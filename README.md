# ECG classification core, modelled in Dafny

This project models the deterministic core of a Django web application that classifies ECG
images into four categories: normal, abnormal heartbeat, myocardial infarction and post-MI
history. The network, image decoding, training and plotting are foreign calls. Here they are
parameters or they are left out. What is modelled and proved is the logic around them:

- **`Outputs`** (`outputs.dfy`): how an output vector becomes a result. This covers numpy's
  `argmax` (first maximum) and `max`, the sklearn label encoder in both directions, and the
  `all_probabilities` map. `utils.py` and `test_model.py` repeat this logic, so it is defined once.
- **`MlModel`** (`ml_model.dfy`): `MemoryEfficientECGModel`, the classifier the upload view
  calls. Its `predict` never raises and falls back to a fixed result. Its loader and trainer
  keep the `training_in_progress` flag and the model in memory.
- **`Utils`** (`utils.dfy`): `ECGClassifier`. Preprocessing is converting to RGB, resizing and
  scaling to [0, 1]. Its `predict` and `batch_predict` raise instead of falling back.
- **`ModelTester`** (`test_model.dfy`): `ECGModelTester`. Covers single-image testing, batch
  testing with numpy's `==` broadcasting and the mean, the report, and the plot-grid arithmetic.
- **`Records`** (`records.dfy`): the choice lists and defaults of `ECGRecord` and
  `TrainingSession`. Also a record as the upload view writes and saves it.
- **`Forms`** (`forms.dfy`): `ECGUploadForm.clean_image`, with POSIX `os.path.splitext`.
- **`Views`** (`views.dfy`): four views.
  - The upload view's record state machine. The record store is the sequence of rows saved.
  - The dashboard's counters and its seven activity bars.
  - The result page's probability display.
  - The `api_user_stats` numbers.

The saved network file, the label encoder, image reading, resizing and the forward pass appear
as parameters, as listed below.

- **Image reading** is a function from a path to an optional pixel array; `None` means `cv2.imread` failed.
- **Resizing** is a function to a 224 × 224 frame.
- **The forward pass** is a function to an optional output vector; `None` means inference raised.
- **A fit** is a function to an optional network; `None` means training raised.
- **The classifier in the upload view** is an abstract outcome: a result, a falsy answer, or an exception with its text.

## Model

| member | source | states |
|---|---|---|
| Outputs.ArgMax | ecg_app/utils.py:111 | the index is the first maximal entry: no entry is larger, every earlier entry is smaller |
| Outputs.ArgMaxUnique | ecg_app/test_model.py:48 | the first maximal index is unique, so any index with that property is `np.argmax` |
| Outputs.MaxIsAtArgMax | ecg_app/utils.py:70-71 | `np.max(p)` equals `p[np.argmax(p)]`, with `Max` defined independently |
| Outputs.Encode | ecg_app/test_model.py:94 | the label encoder's `transform` gives an index holding the name, and fails with an unseen-label error exactly when the name is not a class |
| Outputs.DecodeEncode | ecg_app/utils.py:74 | every known name is encoded and decodes back to itself |
| Outputs.EncodeDecode | ecg_app/utils.py:79 | with distinct classes, every valid index decodes to a name that encodes back to that index |
| Outputs.ProbabilitiesByName | ecg_app/utils.py:77-80 | the `all_probs` map exists exactly when no output index is past the classes, and its keys are then the names of the output's indices; otherwise the first index past the classes is reported |
| Outputs.ProbabilitiesByNameValues | ecg_app/utils.py:77-80 | with distinct class names, each index's name is mapped to that index's own probability |
| Outputs.FillProbabilities | ecg_app/utils.py:77-80 | the loop filling `all_probs` returns exactly ProbabilitiesByName, raising at the same index |
| Outputs.ShapeByMaxAgrees | ecg_app/utils.py:70-71 | taking the confidence from `np.max` or from the argmax entry gives the same result on every vector |
| Outputs.ShapeSpec | ecg_app/utils.py:110-124 | a shaped result exists exactly for a non-empty output no longer than the classes. It names the class at the first maximal index, takes that entry as confidence, maps every index's name to its entry, and no probability exceeds the confidence |
| Outputs.ShapeOkIff | ecg_app/utils.py:110-124 | shaping an output succeeds exactly when it is non-empty and no longer than the class list, whether or not the class names are distinct |
| Records.CategoryFromCode | ecg_app/models.py:17-22 | a stored category value read back is the category with that code |
| Records.StatusFromCode | ecg_app/models.py:24-29 | a stored status value read back is the status with that code |
| Records.CategoryChoicesClosed | ecg_app/models.py:17-33 | the categories are exactly normal, abnormal, mi, post_mi, in that order and distinct; each code fits `max_length` 20 and reads back as itself |
| Records.StatusChoicesClosed | ecg_app/models.py:24-35 | the statuses are exactly pending, processing, completed, failed; each fits `max_length` 20 and reads back as itself |
| Records.ECGRecord.constructor | ecg_app/models.py:31-45 | a new record keeps the form's file, notes and owner; it defaults to status `completed` (not `pending`), no confidence, an empty category and four probabilities of 0.0 |
| Records.ECGRecord.Save | ecg_app/views.py:219 | saving appends the record's current state to the store and changes nothing else. The stored state also holds `probabilities` and `errorMessage`, which the view sets but ecg_app/models.py does not declare |
| Records.NewTrainingSession | ecg_app/models.py:63-76 | a new training session is `pending`, with 50 epochs, batch size 32, no metrics and no error text |
| MlModel.ClassNamesAreCategories | ecg_app/ml_model.py:16 | the classifier's class names are the record's category codes, in the same order, each once |
| MlModel.ProbabilityMap | ecg_app/ml_model.py:81-84 | the comprehension has exactly one key per class name |
| MlModel.ProbabilityMapValues | ecg_app/ml_model.py:81-84 | with distinct class names, each name is mapped to the probability at its own index |
| MlModel.DummyProbabilities | ecg_app/ml_model.py:96-107 | the fallback's `all_probabilities` is the name-by-index map of the probabilities 0.85, 0.10, 0.03 and 0.02 |
| MlModel.ShapePredictionSpec | ecg_app/ml_model.py:75-90 | a real prediction exists exactly when the output is non-empty, covers the class list and its argmax is a class index. It names the class at the first maximal index, takes that entry as confidence (at least every entry), and has one entry per class |
| MlModel.DummyPredictionConsistent | ecg_app/ml_model.py:96-107 | the fallback is class `normal` with confidence 0.85, its own `normal` entry, the largest of four entries that sum to 1.0 |
| MlModel.DummyIndistinguishable | ecg_app/ml_model.py:96-107 | a network that outputs (0.85, 0.10, 0.03, 0.02) gives exactly the fallback result |
| MlModel.PredictResultWellFormed | ecg_app/ml_model.py:58-94 | every answer of `predict`, real or fallback, names a class among the class names, has confidence equal to its own entry and at least every entry, and has one entry per class |
| MlModel.PredictFallback | ecg_app/ml_model.py:60-94 | with no network in memory and none loadable, or an unloadable image, `predict` returns the fallback. With a network in memory and a shapeable output it returns that shaped output |
| MlModel.MemoryEfficientECGModel.constructor | ecg_app/ml_model.py:13-17 | no network in memory and the training flag off |
| MlModel.MemoryEfficientECGModel.GetModelInfo | ecg_app/ml_model.py:19-40 | `is_trained` is whether the file exists. The accuracy key is present exactly then: 0.85 when the file loads, 0.0 when loading raises. `num_classes` is the length of the class list |
| MlModel.MemoryEfficientECGModel.LoadModel | ecg_app/ml_model.py:46-56 | succeeds exactly when the file exists and loads; only then is the network in memory replaced |
| MlModel.MemoryEfficientECGModel.Predict | ecg_app/ml_model.py:58-94 | the answer is PredictResult of the state before the call; the network is loaded into memory only when none was there and the file loads |
| MlModel.MemoryEfficientECGModel.TrainModel | ecg_app/ml_model.py:109-168 | the flag is set on entry and cleared on every exit, twice when logging the accuracy raises. True exactly with a dataset directory, a fit that does not raise, a save that succeeds and a history with at least one epoch's accuracy. A successful save puts the new network in memory and on disk even when True is not returned; a failed save leaves its partial file and the memory as it was; an earlier failure changes neither |
| MlModel.MemoryEfficientECGModel.AutoTrainIfNeeded | ecg_app/ml_model.py:170-175 | with a saved network it returns true and changes nothing. Otherwise it is `train_model` with 10 epochs and batch size 16. It returns true exactly when that stores a network and logs its accuracy, and it writes the same flag log. A stored network is in memory and on disk; a failed save leaves its file; an earlier failure leaves no file and memory unchanged |
| Utils.PrepareImage | ecg_app/utils.py:34-57 | a successful preprocessing is a batch of exactly one image |
| Utils.PrepareImageSpec | ecg_app/utils.py:34-57 | an unreadable path raises. Otherwise the batch holds one 224 × 224 × 3 image whose values are the resized RGB frame's bytes divided by 255, hence in [0, 1] |
| Utils.PrepareAll | ecg_app/utils.py:95-99 | a successful preprocessing loop yields one image per input |
| Utils.PrepareAllElements | ecg_app/utils.py:95-99 | the k-th preprocessed image is what `preprocess_image` gives for the k-th input alone |
| Utils.CollectElements | ecg_app/utils.py:95-99 | collecting per-image results succeeds only when every result is a value, and then yields those values in order |
| Utils.CollectStops | ecg_app/utils.py:95-99 | the first error stops the loop: whatever follows it, the result is that error |
| Utils.PrepareAllStops | ecg_app/utils.py:95-99 | once one image fails to preprocess, the whole list fails with that image's error, whatever follows it |
| Utils.PrepareBatch | ecg_app/utils.py:95-99 | the loop returns PrepareAll, stopping at the first image that raises |
| Utils.ForwardAll | ecg_app/utils.py:107 | one output row per image, each the network's output for that image |
| Utils.ShapeAll | ecg_app/utils.py:109-124 | one shaped result per row, each the shaping of that row without its index |
| Utils.ShapeBatch | ecg_app/utils.py:109-124 | the result loop returns ShapeAll, stopping at the first row that raises |
| Utils.BatchClassifySpec | ecg_app/utils.py:89-126 | an empty input gives an empty list. The batch succeeds exactly when every image classifies on its own, and then there is one result per image in input order, each what `predict` gives for that image alone minus `predicted_class_idx` |
| Utils.BatchClassifyPrepareError | ecg_app/utils.py:95-99 | every image is preprocessed before any reaches the network, so the first image that fails to preprocess decides the batch's error |
| Utils.BatchClassifyInferenceError | ecg_app/utils.py:107 | once all images are preprocessed, a forward pass failing for any of them fails the batch with an inference error |
| Utils.BatchClassifyShapeError | ecg_app/utils.py:110-124 | once all images are preprocessed and run, the first image whose output cannot be shaped fails the batch with the error it raises alone |
| Utils.BatchOfOne | ecg_app/utils.py:59-126 | batching one image gives the single prediction or raises what the single call raises |
| Utils.ECGClassifier.constructor | ecg_app/utils.py:9-13 | the constructor loads: the network, encoder and class names are set when both files load, and the network is None otherwise |
| Utils.ECGClassifier.LoadModel | ecg_app/utils.py:15-32 | succeeds exactly when the network and the encoder load, setting all three fields; a failure sets the network to None and keeps the encoder |
| Utils.ECGClassifier.Predict | ecg_app/utils.py:59-87 | raises "model could not be loaded" when no network is in memory and loading fails; otherwise the answer is Classify of the network in memory. A network in memory leaves the state alone; otherwise the state is what `load_model` leaves |
| Utils.ECGClassifier.BatchPredict | ecg_app/utils.py:89-126 | raises before looking at the images when no network can be loaded; otherwise the answer is BatchClassify of the network in memory. A network in memory leaves the state alone; otherwise the state is what `load_model` leaves |
| ModelTester.SingleTestSpec | ecg_app/test_model.py:29-69 | a result exists exactly when the image preprocesses, an encoder is loaded, the forward pass succeeds and the output is non-empty and no longer than the classes. It is then the class at the first maximal index, that entry as confidence, every index's name mapped to its entry, and `predicted_class_idx` |
| ModelTester.Kept | ecg_app/test_model.py:78-85 | the kept images are at most the given paths |
| ModelTester.SkippedIffUnreadable | ecg_app/test_model.py:79-85 | an image is skipped exactly when `cv2.imread` fails; every other failure raises |
| ModelTester.KeptAllReadable | ecg_app/test_model.py:79-85 | every image is kept exactly when every path is readable |
| ModelTester.KeepReadable | ecg_app/test_model.py:78-85 | the preprocessing loop returns exactly Kept |
| ModelTester.NoneReadable | ecg_app/test_model.py:79-88 | with no readable path nothing is kept |
| ModelTester.EncodeAll | ecg_app/test_model.py:94 | encoding the labels succeeds exactly when every label is a class, giving one code per label, each the index of its label |
| ModelTester.EncodeAllFirstUnseen | ecg_app/test_model.py:94 | encoding fails with the first label that is not a class |
| ModelTester.ArgMaxRows | ecg_app/test_model.py:98 | `argmax(axis=1)` succeeds exactly when no row is empty, giving each row's first maximal index |
| ModelTester.Mean | ecg_app/test_model.py:101 | a mean over a non-empty comparison is a hit count at most the count of positions |
| ModelTester.CountTrueMatches | ecg_app/test_model.py:101 | the number of true positions in `y_pred == y_test_encoded` is the number of matching indices |
| ModelTester.AccuracySpec | ecg_app/test_model.py:101 | for equal lengths the accuracy is the fraction of matching positions (NaN when empty), in [0, 1]; broadcasting fails exactly for unequal lengths neither of which is 1 |
| ModelTester.BatchTestSpec | ecg_app/test_model.py:71-121 | no path, or no readable path, gives None. A report exists exactly when some image is kept, an encoder is loaded, every label is a class, every forward pass succeeds with a non-empty row, and there are as many kept images as labels. `classification_report` raises on unequal numbers, so a broadcast comparison never reaches the report. The report holds one code per label, each decoding to its label, one argmax per kept image, and the fraction of matches as accuracy |
| ModelTester.BatchTestErrors | ecg_app/test_model.py:71-121 | which stage fails the batch: an unreadable image's error, then None for nothing kept, then a missing encoder, the first unseen label, a failed forward pass, an empty output row, lengths that cannot broadcast, and last unequal lengths that broadcast but that `classification_report` refuses |
| ModelTester.UnreadableImageMisaligns | ecg_app/test_model.py:79-101 | labels are not filtered with images. With a dropped image the comparison raises, unless exactly one image was kept; then it is compared with every label, and the report call raises afterwards |
| ModelTester.ReportCountsAllPaths | ecg_app/test_model.py:191-202 | the report's accuracy is `batch_test`'s. `num_test_samples` is the number of paths given. That is at least the number of predictions, and equal exactly when every path is readable |
| ModelTester.GridLayoutSpec | ecg_app/test_model.py:129-131 | a grid exists exactly for a non-empty list (n = 0 divides by zero). It has `min(4, n)` columns and the fewest rows holding every image, so fewer than a row of axes is hidden, all past the last image |
| ModelTester.ECGModelTester.constructor | ecg_app/test_model.py:11-15 | no network, no encoder, no class names |
| ModelTester.ECGModelTester.LoadModel | ecg_app/test_model.py:17-27 | succeeds exactly when the network and the encoder load. A loaded network is kept even when the encoder then fails; the encoder and class names change only on success |
| ModelTester.ECGModelTester.TestSingleImage | ecg_app/test_model.py:29-69 | None when no network can be loaded; otherwise SingleTest of the network in memory. A network in memory leaves the state alone; otherwise the network becomes the saved one when it loads, and the encoder and class names change only when both load |
| ModelTester.ECGModelTester.BatchTest | ecg_app/test_model.py:71-121 | None when no network can be loaded; otherwise the batch result of the network in memory. A network in memory leaves the state alone; otherwise the network becomes the saved one when it loads, and the encoder and class names change only when both load |
| ModelTester.ECGModelTester.GenerateReport | ecg_app/test_model.py:184-203 | None when no network can be loaded; otherwise the report of the batch test. A network in memory leaves the state alone; otherwise the network becomes the saved one when it loads, and the encoder and class names change only when both load |
| Forms.LastIndex | ecg_app/forms.py:109 | the last position of the character, or -1 when it does not occur |
| Forms.SplitExtSpec | ecg_app/forms.py:109 | root and extension rejoin to the name. The extension is non-empty exactly when the last dot follows the last slash and a non-dot precedes it in its component, and it is then everything from that dot |
| Forms.ExtensionOfLower | ecg_app/forms.py:109 | lowercasing the name and then splitting gives the lowercased extension |
| Forms.CleanImageSpec | ecg_app/forms.py:98-112 | a missing or nameless image passes unchecked. A present image gets the size error exactly when over 10 MiB, so the size check wins. Otherwise it gets the format error exactly when its lowercased extension is not one of the six. What passes is returned unchanged |
| Forms.SizeBoundary | ecg_app/forms.py:102-104 | exactly 10 × 1024 × 1024 bytes pass the size check and one byte more is rejected |
| Forms.CaseInsensitive | ecg_app/forms.py:109-110 | letter case in the name never changes the verdict |
| Forms.LastSuffixPasses | ecg_app/forms.py:109-110 | only the last suffix counts: `scan.exe.png` has extension `.png` and is accepted |
| Forms.LastSuffixRejected | ecg_app/forms.py:109-110 | only the last suffix counts: `scan.png.exe` has extension `.exe` and is rejected |
| Forms.ExeNotValid | ecg_app/forms.py:107 | `.exe` is not one of the six accepted extensions |
| Forms.UpperCasePasses | ecg_app/forms.py:109-110 | `SCAN.PNG` has the lowercased extension `.png` and is accepted |
| Forms.MixedCasePasses | ecg_app/forms.py:109-110 | `ecg.JpEg` has the lowercased extension `.jpeg` and is accepted |
| Forms.NoSuffixRejected | ecg_app/forms.py:107-111 | a name without a suffix, or whose only dot leads it, has extension `''` and is rejected |
| Views.UploadWritesSpec | ecg_app/views.py:212-255 | an invalid form saves nothing. A valid one is saved `processing` and then once more, `completed` or `failed`, never left `processing`. Completed exactly on a truthy result: its class, confidence × 100 and probability map. An exception keeps its text. Owner, file and notes are unchanged |
| Views.UploadWithMlModelCompletes | ecg_app/views.py:223-235 | with the fallback classifier every valid upload completes, with a category among the choices and a confidence at least 100 × every probability |
| Views.UploadEcg | ecg_app/views.py:208-262 | the corrected view, reading the record's `image` column (see Findings): the rows saved are exactly UploadWrites for a POST and none for a GET. A completed upload redirects to its result, a failed one back to the upload page |
| Views.UploadAsWrittenAlwaysFails | ecg_app/views.py:221-250 | as written every valid upload ends `failed` with no category or confidence, whatever the classifier would answer |
| Views.ResultProbabilitiesSpec | ecg_app/views.py:269-286 | nothing stored shows nothing. A parsed map shows each category under its label: its value × 100, or 0 when missing. An unparsable text shows the confidence for the predicted category only, 0 for the others |
| Views.CompletedUploadShowsProbabilities | ecg_app/views.py:273-279 | a completed upload's stored probabilities always parse, so each class's probability shows as a percentage under its label |
| Views.ResultPageAsWrittenRaises | ecg_app/views.py:271 | as written the result page raises for every record, even one whose probabilities the upload view set |
| Views.CountStatus | ecg_app/views.py:101-103 | a status count is at most the number of records |
| Views.CountCompleted | ecg_app/views.py:106-109 | a category count is at most the number of completed records |
| Views.DashboardCountsPartition | ecg_app/views.py:96-109 | pending, completed, processing and failed add up to the total; the four category counts together are at most the completed count |
| Views.CountOn | ecg_app/views.py:129-131 | a day's count is at most the number of records |
| Views.CountSince | ecg_app/views.py:134-136 | the window count is at most the number of records |
| Views.CountOnWithinWindow | ecg_app/views.py:127-136 | a day inside the window has no more uploads than the window |
| Views.BarHeightSpec | ecg_app/views.py:134-142 | every bar is 20 to 120 pixels; a day without uploads is 20, a day holding every upload of the window is 120 |
| Views.CapNeverBinds | ecg_app/views.py:134-142 | for the seven days of the window the 120 cap never binds: the height is the day's whole-percent share of the window plus 20 |
| Views.RecentActivity | ecg_app/views.py:124-143 | exactly seven bars, oldest day first, each with its day, that day's count and its height in [20, 120] |
| Views.CountCompletedPositive | ecg_app/views.py:410-416 | a category has a positive completed count exactly when some completed record has it |
| Views.CategoryDistributionSpec | ecg_app/views.py:409-416 | the distribution's keys are exactly the categories of some completed record, each mapped to its completed count |
| Views.NormalFromDistribution | ecg_app/views.py:419 | `category_distribution.get('normal', 0)` is the number of completed normal records |
| Views.ApiUserStatsSpec | ecg_app/views.py:403-435 | `normal_ecgs + abnormal_ecgs == total_ecgs`, so pending, processing and failed records count as abnormal. The success rate is 0 without records and otherwise a percentage in [0, 100] |

## Left out

- Keras network construction, compilation, fitting on random data, saving and loading, and the
  forward pass are foreign calls with floating-point numerics. They are parameters: whether the
  file loads, the network and per-epoch accuracy history a fit gives (or none), how saving ends,
  and the output vector (or none). What a failed save leaves on disk is a parameter too.
- `cv2.imread`, `cv2.resize` and keras `load_img` are parameters. The colour conversion, the
  division by 255 and the batch dimension are modelled. The spread of a pixel array that is not
  rectangular is one `InvalidImage` error.
- Floating point is modelled as exact reals, so `float(...)` conversions are the identity. NaN
  appears only as the mean of an empty comparison, which `batch_test` never reports: the
  report call raises on the unequal lengths first.
- Views.ApiUserStats: the success rate is the exact percentage, not `round(..., 1)`.
- Views.BarHeight: the height uses exact integer division. With floats, `int(count / max_count * 100)` can
  come out one lower when the quotient is not representable.
- JSON is abstracted. `json.dumps` of the probability map is the map itself. A stored text
  either parses to a map of numbers or fails to parse.
- The sklearn label encoder is a sequence of class names. `classification_report` and
  `confusion_matrix` are left out of the batch report, except for their check that labels and
  predictions are equally many. They are foreign, and they also raise when the number of
  classes seen differs from `target_names`, which is not modelled.
- ModelTester.BatchTestSpec: a report is promised whenever the stages above succeed, although
  `classification_report` also raises when the classes seen are not as many as `target_names`.
- `visualize_predictions` and the confusion-matrix plots are matplotlib I/O. Only the grid
  arithmetic and the hidden axes are modelled.
- `ECGModelTester` builds an `ECGModelTrainer`, which `ecg_app/ml_model.py` does not define. That
  import would fail, so loading the tester's network is a parameter.
- Django plumbing is left out: authentication, messages, rendering, redirect targets by id,
  `recent_ecgs`, `latest_ecg_id`, `avg_confidence`, the day label from `strftime`, and ORM
  ordering. ORM filters are counts over the sequence of a user's rows.
- `processed_date`, `doctor_notes` and `UserProfile` are not touched by the modelled code.
- `upload_date` is a day number and `today` is a parameter.
- Django's own field validation (ImageField and Pillow) is one boolean of the form. Only
  `clean_image` is modelled.
- Forms.Lower lowercases ASCII letters only; Python's `str.lower` also folds other letters.
- The model-file path and Keras summary in `get_model_info` are left out.
- The lack of locking around `training_in_progress` is not modelled: the model is sequential.
- Utils.ForwardAll: the single batched `model.predict(batch_array)` is modelled as one forward
  call per row, and the batch fails when any row's call fails; a network whose batched output
  differs from its per-row outputs is not modelled.
- ModelTester.Compare: raising on lengths that cannot broadcast is the behaviour of numpy 1.25
  and later; older numpy returned a scalar False with a warning, which is not modelled.
- `predict` marks a fallback result in no way, so no such mark is modelled (see
  MlModel.DummyIndistinguishable).
- The CLI training command and `startup.py` are not part of this model, and neither are the
  settings. The class names come from `ml_model.py` and from the label encoder.

## Findings

| source | as written | input that shows it | evidently intended | confidence | as-written member | corrected member |
|---|---|---|---|---|---|---|
| ecg_app/views.py:223 | passes `ecg_record.ecg_file.path` to the classifier. The record's file column is `image` (ecg_app/models.py:32), so the read raises AttributeError inside the `try`. Every valid upload is then saved `failed` | any valid upload, e.g. `scan.png` of 1 byte | pass `ecg_record.image.path`, so a valid upload completes with the classifier's result | high; not executed | Views.UploadAsWrittenAlwaysFails | Views.UploadWritesSpec |
| ecg_app/views.py:271 | the result page reads `ecg_record.probabilities`. models.py declares no such column: the upload view's assignment (views.py:233) is never stored, and neither is `error_message` (views.py:247). A record loaded from the table lacks the attribute, so the page raises AttributeError | the result page of any record | declare `probabilities` and `error_message` columns, so the page shows the stored probabilities | high; not executed | Views.ResultPageAsWrittenRaises | Views.ResultProbabilitiesSpec |
