/**
 * ecg_app/ml_model.py: MemoryEfficientECGModel, the classifier the upload view calls. Its
 * `predict` never raises: when no network can be loaded, or anything inside fails, it returns
 * a fixed dummy result. Loading, fitting, saving and the forward pass are foreign calls and
 * appear as parameters: whether the saved file can be read, the network a fit produces (or
 * None when fitting raises), whether saving succeeds, and the output vector the network gives
 * for the image (or None when inference raises).
 */
module MlModel {
  import opened Wrappers
  import opened Outputs
  import Records

  /** `self.class_names`, fixed at construction. */
  const ClassNames: seq<string> := ["normal", "abnormal", "mi", "post_mi"]

  /** The epochs and batch size `auto_train_if_needed` trains with. */
  const AutoEpochs: int := 10
  const AutoBatchSize: int := 16

  /** The class names are the category choices of a record, in the same order, each once. */
  lemma ClassNamesAreCategories()
    ensures ClassNames == Records.CategoryCodes()
    ensures Distinct(ClassNames)
  {
    Records.CategoryChoicesClosed();
  }

  lemma ClassNameSet()
    ensures Names(ClassNames) == {"normal", "abnormal", "mi", "post_mi"}
  {
    assert ClassNames[0] == "normal" && ClassNames[1] == "abnormal";
    assert ClassNames[2] == "mi" && ClassNames[3] == "post_mi";
  }

  /**
   * The comprehension `{class_names[i]: predictions[0][i] for i in range(len(class_names))}`;
   * a later equal name would overwrite an earlier one.
   */
  function ProbabilityMap(names: seq<string>, p: seq<real>): (m: map<string, real>)
    requires |names| <= |p|
    ensures m.Keys == Names(names)
  {
    if names == [] then map[]
    else
      var n := |names| - 1;
      assert names == names[..n] + [names[n]];
      ProbabilityMap(names[..n], p)[names[n] := p[n]]
  }

  /** With distinct names, every name is mapped to the probability at its own index. */
  lemma {:induction false} ProbabilityMapValues(names: seq<string>, p: seq<real>)
    requires |names| <= |p| && Distinct(names)
    ensures forall i :: 0 <= i < |names| ==> ProbabilityMap(names, p)[names[i]] == p[i]
  {
    if names != [] {
      var n := |names| - 1;
      var prefix := names[..n];
      assert Distinct(prefix);
      ProbabilityMapValues(prefix, p);
      var before := ProbabilityMap(prefix, p);
      var m := ProbabilityMap(names, p);
      assert m == before[names[n] := p[n]];
      forall i | 0 <= i < |names|
        ensures m[names[i]] == p[i]
      {
        if i < n {
          assert names[i] != names[n];
          assert prefix[i] == names[i];
          assert before[prefix[i]] == p[i];
        }
      }
    }
  }

  /**
   * The result built from an output vector inside the `try`; None where the code raises:
   * `np.argmax` of an empty vector, an argmax past the class list, or a vector shorter than
   * the class list.
   */
  function ShapePrediction(names: seq<string>, p: seq<real>): Option<Prediction> {
    if |p| == 0 then None
    else
      var i := ArgMax(p);
      if i >= |names| || |p| < |names| then None
      else Some(Prediction(names[i], p[i], ProbabilityMap(names, p)))
  }

  /**
   * A real prediction exists exactly when the vector is non-empty, at least as long as the
   * class list and its first maximum falls inside it; then the class is the name at the first
   * maximal index, the confidence is that entry and no entry exceeds it, and every class name
   * is mapped to the probability at its own index.
   */
  lemma ShapePredictionSpec(names: seq<string>, p: seq<real>)
    requires Distinct(names)
    ensures ShapePrediction(names, p).Some? <==> |p| > 0 && |names| <= |p| && ArgMax(p) < |names|
    ensures ShapePrediction(names, p).Some? ==>
      var r := ShapePrediction(names, p).value;
      && r.predictedClass == names[ArgMax(p)]
      && r.confidence == p[ArgMax(p)]
      && (forall j :: 0 <= j < |p| ==> p[j] <= r.confidence)
      && r.allProbabilities.Keys == Names(names)
      && (forall i :: 0 <= i < |names| ==> r.allProbabilities[names[i]] == p[i])
      && Consistent(r)
  {
    if ShapePrediction(names, p).Some? {
      ProbabilityMapValues(names, p);
      var r := ShapePrediction(names, p).value;
      var m := r.allProbabilities;
      forall k | k in m
        ensures m[k] <= r.confidence
      {
        var i :| 0 <= i < |names| && names[i] == k;
        assert m[names[i]] == p[i];
      }
      assert names[ArgMax(p)] in names;
    }
  }

  /** `_dummy_prediction()`. */
  function DummyPrediction(): Prediction {
    Prediction("normal", 0.85, map["normal" := 0.85, "abnormal" := 0.10, "mi" := 0.03, "post_mi" := 0.02])
  }

  /**
   * The dummy result names class `normal` with confidence 0.85, which is its own `normal`
   * entry and the largest of one entry per class, and the entries sum to 1.
   */
  lemma DummyPredictionConsistent()
    ensures DummyPrediction().predictedClass == "normal" && DummyPrediction().confidence == 0.85
    ensures Consistent(DummyPrediction())
    ensures DummyPrediction().allProbabilities.Keys == Names(ClassNames)
    ensures var m := DummyPrediction().allProbabilities;
      m["normal"] + m["abnormal"] + m["mi"] + m["post_mi"] == 1.0
  {
    ClassNameSet();
  }

  /**
   * The fallback cannot be told apart from a real prediction: a network that outputs
   * (0.85, 0.10, 0.03, 0.02) yields exactly the dummy result.
   */
  lemma DummyIndistinguishable()
    ensures ShapePrediction(ClassNames, [0.85, 0.10, 0.03, 0.02]) == Some(DummyPrediction())
  {
    var p: seq<real> := [0.85, 0.10, 0.03, 0.02];
    ArgMaxUnique(p, 0);
    DummyProbabilities();
  }

  /** The comprehension over the output (0.85, 0.10, 0.03, 0.02) is the dummy dictionary. */
  lemma DummyProbabilities()
    ensures ProbabilityMap(ClassNames, [0.85, 0.10, 0.03, 0.02]) == DummyPrediction().allProbabilities
  {
    var p: seq<real> := [0.85, 0.10, 0.03, 0.02];
    var cn := ClassNames;
    assert cn[..0] == [] && cn[..1][..0] == [];
    assert cn[..2][..1] == cn[..1] && cn[..3][..2] == cn[..2] && cn[..3] == cn[..|cn| - 1];
    assert ProbabilityMap(cn[..1], p) == map["normal" := 0.85];
    assert ProbabilityMap(cn[..2], p) == map["normal" := 0.85, "abnormal" := 0.10];
    assert ProbabilityMap(cn[..3], p) == map["normal" := 0.85, "abnormal" := 0.10, "mi" := 0.03];
  }

  /**
   * What `predict` returns, given the network in memory, the saved file, whether that file
   * loads, whether the image loads, and what the network outputs for the image.
   */
  function PredictResult(model: Option<Network>, saved: Option<Network>, readable: bool,
                         imageLoads: bool, infer: Network -> Option<seq<real>>): Prediction
  {
    var net := if model.Some? then model else if saved.Some? && readable then saved else None;
    if net.None? || !imageLoads then DummyPrediction()
    else
      match infer(net.value)
      case None => DummyPrediction()
      case Some(p) =>
        match ShapePrediction(ClassNames, p)
        case None => DummyPrediction()
        case Some(r) => r
  }

  /**
   * Every result `predict` returns, real or dummy, is Consistent, names one of the class
   * names, and has exactly one entry per class name.
   */
  lemma PredictResultWellFormed(model: Option<Network>, saved: Option<Network>, readable: bool,
                                imageLoads: bool, infer: Network -> Option<seq<real>>)
    ensures var r := PredictResult(model, saved, readable, imageLoads, infer);
      && Consistent(r)
      && r.predictedClass in ClassNames
      && r.allProbabilities.Keys == Names(ClassNames)
  {
    DummyPredictionConsistent();
    ClassNamesAreCategories();
    var net := if model.Some? then model else if saved.Some? && readable then saved else None;
    if net.Some? && imageLoads && infer(net.value).Some? {
      ShapePredictionSpec(ClassNames, infer(net.value).value);
    }
  }

  /**
   * `predict` falls back to the dummy result when no network is in memory and none loads,
   * when the image does not load, when inference raises, or when the output cannot be
   * shaped; otherwise it is the shaped output of the network in memory, or of the one just
   * loaded.
   */
  lemma PredictFallback(model: Option<Network>, saved: Option<Network>, readable: bool,
                        imageLoads: bool, infer: Network -> Option<seq<real>>)
    ensures model.None? && !(saved.Some? && readable) ==>
      PredictResult(model, saved, readable, imageLoads, infer) == DummyPrediction()
    ensures !imageLoads ==> PredictResult(model, saved, readable, imageLoads, infer) == DummyPrediction()
    ensures (model.Some? && imageLoads && infer(model.value).Some?
             && ShapePrediction(ClassNames, infer(model.value).value).Some?) ==>
      PredictResult(model, saved, readable, imageLoads, infer) == ShapePrediction(ClassNames, infer(model.value).value).value
  {
  }

  /** What `model.fit` yields: the fitted network and the history's per-epoch training accuracy. */
  datatype Fitted = Fitted(net: Network, accuracy: seq<real>)

  /**
   * How `model.save` ends: it succeeds, or it raises having left behind on disk the file it
   * found, no file, or a file of its own writing.
   */
  datatype SaveOutcome = Saved | Failed(leftBehind: Option<Network>)

  /** Whether `train_model` reaches the point where the new network is saved and kept in memory. */
  predicate Stored(hasDataset: bool, fitted: Option<Fitted>, save: SaveOutcome) {
    hasDataset && fitted.Some? && save.Saved?
  }

  /** The directory under BASE_DIR the model reads: the saved network file and the dataset directory. */
  class Disk {
    /** `ml_models/ecg_model.h5`, if present. */
    var modelFile: Option<Network>
    /** Whether the `dataset` directory exists. */
    var hasDataset: bool

    constructor (modelFile: Option<Network>, hasDataset: bool)
      ensures this.modelFile == modelFile && this.hasDataset == hasDataset
    {
      this.modelFile := modelFile;
      this.hasDataset := hasDataset;
    }
  }

  /** `get_model_info()`; the Keras summary and the path are left out. */
  datatype ModelInfo = ModelInfo(isTrained: bool, trainingInProgress: bool, numClasses: nat,
                                 classNames: seq<string>, accuracy: Option<real>)

  class MemoryEfficientECGModel {
    var model: Option<Network>
    var trainingInProgress: bool
    /** Every value written to `training_in_progress`, in order. */
    ghost var flagWrites: seq<bool>
    const classNames: seq<string> := ClassNames
    const disk: Disk

    constructor (disk: Disk)
      ensures model == None && !trainingInProgress && flagWrites == []
      ensures this.disk == disk
    {
      model := None;
      trainingInProgress := false;
      flagWrites := [];
      this.disk := disk;
    }

    function ModelExists(): bool
      reads this, disk
    {
      disk.modelFile.Some?
    }

    /**
     * `get_model_info()`: the accuracy key is present exactly when a saved network exists,
     * and is 0.85 when it loads and 0.0 when loading raises.
     */
    function GetModelInfo(readable: bool): (info: ModelInfo)
      reads this, disk
      ensures info.isTrained == ModelExists() && info.trainingInProgress == trainingInProgress
      ensures info.numClasses == |info.classNames| && info.classNames == classNames
      ensures info.accuracy.Some? <==> info.isTrained
      ensures info.accuracy.Some? ==> info.accuracy.value == (if readable then 0.85 else 0.0)
    {
      var base := ModelInfo(ModelExists(), trainingInProgress, |classNames|, classNames, None);
      if ModelExists() then base.(accuracy := Some(if readable then 0.85 else 0.0)) else base
    }

    /**
     * `load_model()`: succeeds only when the saved file exists and loads; only then is the
     * network in memory replaced.
     */
    method LoadModel(readable: bool) returns (ok: bool)
      modifies this`model
      ensures ok == (disk.modelFile.Some? && readable)
      ensures model == if ok then disk.modelFile else old(model)
    {
      if ModelExists() {
        if readable {
          model := disk.modelFile;
          return true;
        }
        return false;
      }
      return false;
    }

    /** `predict(image_path)`: never raises; see PredictResult. */
    method Predict(readable: bool, imageLoads: bool, infer: Network -> Option<seq<real>>) returns (r: Prediction)
      modifies this`model
      ensures model == if old(model).None? && disk.modelFile.Some? && readable then disk.modelFile else old(model)
      ensures r == PredictResult(old(model), disk.modelFile, readable, imageLoads, infer)
    {
      if model.None? {
        var loaded := LoadModel(readable);
        if !loaded {
          return DummyPrediction();
        }
      }
      var net := model.value;
      assert net == (if old(model).Some? then old(model) else disk.modelFile).value;
      if !imageLoads {
        return DummyPrediction();
      }
      var output := infer(net);
      if output.None? {
        return DummyPrediction();
      }
      var predictions := output.value;
      if |predictions| == 0 {
        return DummyPrediction();
      }
      var idx := ArgMax(predictions);
      if idx >= |classNames| {
        return DummyPrediction();
      }
      var predictedClass := classNames[idx];
      var confidence := predictions[idx];
      if |predictions| < |classNames| {
        return DummyPrediction();
      }
      var allProbabilities := ProbabilityMap(classNames, predictions);
      r := Prediction(predictedClass, confidence, allProbabilities);
      assert ShapePrediction(ClassNames, predictions) == Some(r);
    }

    /**
     * `train_model(epochs, batch_size)`: the flag is set on entry and cleared on every exit.
     * Without a dataset directory nothing is fitted or saved. A fit that raises changes
     * nothing else; a save that raises leaves behind whatever it wrote. Once the save succeeds
     * the network is in memory and on disk, and only then is the last epoch's accuracy logged:
     * a history without one raises there, so False is returned after the network was stored,
     * and the flag is cleared a second time by the handler.
     */
    method TrainModel(epochs: int, batchSize: int, fit: (int, int) -> Option<Fitted>, save: SaveOutcome)
      returns (ok: bool)
      modifies this`model, this`trainingInProgress, this`flagWrites, disk`modelFile
      ensures !trainingInProgress
      ensures flagWrites == old(flagWrites) +
        if Stored(disk.hasDataset, fit(epochs, batchSize), save) && |fit(epochs, batchSize).value.accuracy| == 0
        then [true, false, false] else [true, false]
      ensures ok <==> Stored(disk.hasDataset, fit(epochs, batchSize), save) && |fit(epochs, batchSize).value.accuracy| > 0
      ensures Stored(disk.hasDataset, fit(epochs, batchSize), save) ==>
        model == disk.modelFile == Some(fit(epochs, batchSize).value.net)
      ensures disk.hasDataset && fit(epochs, batchSize).Some? && save.Failed? ==>
        model == old(model) && disk.modelFile == save.leftBehind
      ensures !(disk.hasDataset && fit(epochs, batchSize).Some?) ==>
        model == old(model) && disk.modelFile == old(disk.modelFile)
    {
      trainingInProgress := true;
      flagWrites := flagWrites + [true];
      if !disk.hasDataset {
        trainingInProgress := false;
        flagWrites := flagWrites + [false];
        return false;
      }
      var fitted := fit(epochs, batchSize);
      if fitted.None? {
        trainingInProgress := false;
        flagWrites := flagWrites + [false];
        return false;
      }
      if save.Failed? {
        disk.modelFile := save.leftBehind;
        trainingInProgress := false;
        flagWrites := flagWrites + [false];
        return false;
      }
      disk.modelFile := Some(fitted.value.net);
      model := Some(fitted.value.net);
      trainingInProgress := false;
      flagWrites := flagWrites + [false];
      if |fitted.value.accuracy| == 0 {
        trainingInProgress := false;
        flagWrites := flagWrites + [false];
        return false;
      }
      return true;
    }

    /**
     * `auto_train_if_needed()`: with a saved network it reports success and changes nothing;
     * otherwise it is `train_model(epochs=10, batch_size=16)`.
     */
    method AutoTrainIfNeeded(fit: (int, int) -> Option<Fitted>, save: SaveOutcome) returns (ok: bool)
      modifies this`model, this`trainingInProgress, this`flagWrites, disk`modelFile
      ensures old(disk.modelFile).Some? ==> ok && unchanged(this, disk)
      ensures old(disk.modelFile).None? ==>
        && !trainingInProgress
        && (ok <==> Stored(disk.hasDataset, fit(AutoEpochs, AutoBatchSize), save)
                    && |fit(AutoEpochs, AutoBatchSize).value.accuracy| > 0)
        && (Stored(disk.hasDataset, fit(AutoEpochs, AutoBatchSize), save) ==>
              model == disk.modelFile == Some(fit(AutoEpochs, AutoBatchSize).value.net))
        && (!Stored(disk.hasDataset, fit(AutoEpochs, AutoBatchSize), save) ==>
              model == old(model) && !ok)
        && flagWrites == old(flagWrites) +
             (if Stored(disk.hasDataset, fit(AutoEpochs, AutoBatchSize), save)
                 && |fit(AutoEpochs, AutoBatchSize).value.accuracy| == 0
              then [true, false, false] else [true, false])
        && (disk.hasDataset && fit(AutoEpochs, AutoBatchSize).Some? && save.Failed? ==>
              disk.modelFile == save.leftBehind)
        && (!(disk.hasDataset && fit(AutoEpochs, AutoBatchSize).Some?) ==> disk.modelFile == None)
    {
      if !ModelExists() {
        ok := TrainModel(AutoEpochs, AutoBatchSize, fit, save);
        return;
      }
      return true;
    }
  }
}
