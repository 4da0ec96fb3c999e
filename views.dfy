/**
 * ecg_app/views.py: the upload view's record state machine, the dashboard's counts and 7-day
 * activity bars, the result page's probability display and the `api_user_stats` counts. A
 * user's records are the rows last written for them; the classifier call is an abstract
 * outcome; the request's date is a day number.
 */
module Views {
  import opened Wrappers
  import opened Outputs
  import opened Records
  import Forms
  import MlModel

  // ---------------------------------------------------------------- upload_ecg_view

  /** The bound ECGUploadForm: the uploaded file, the notes, and Django's own field checks. */
  datatype UploadForm = UploadForm(image: Option<Forms.UploadedFile>, notes: string, fieldsValid: bool)

  /** `form.is_valid()`: the field checks and `clean_image`. */
  predicate FormValid(form: UploadForm) {
    form.fieldsValid && form.image.Some? && Forms.CleanImage(form.image).Ok?
  }

  /** What the classifier call does: return a truthy result, return a falsy one, or raise. */
  datatype ClassifierOutcome = Returned(result: Prediction) | ReturnedFalsy | Raised(message: string)

  datatype Response = RedirectToResult | RedirectToUpload | RenderUploadPage

  /** The record saved before the prediction: the form's fields, the owner, status `processing`. */
  function ProcessingRow(user: nat, form: UploadForm, day: int): Row
    requires form.image.Some?
  {
    Row(user, form.image.value.name, form.notes, day, "", None, Processing, 0.0, 0.0, 0.0, 0.0, None, "")
  }

  /** The record saved after the prediction. */
  function AfterPrediction(r: Row, outcome: ClassifierOutcome): Row {
    match outcome
    case Returned(p) =>
      r.(predictedCategory := p.predictedClass, confidence := Some(p.confidence * 100.0), status := Completed,
         probabilities := Some(p.allProbabilities))
    case ReturnedFalsy => r.(status := Failed)
    case Raised(m) => r.(status := Failed, errorMessage := m)
  }

  /** The rows a POST writes: none for an invalid form, else the processing row and the final one. */
  function UploadWrites(user: nat, form: UploadForm, day: int, outcome: ClassifierOutcome): seq<Row> {
    if !FormValid(form) then []
    else
      var r := ProcessingRow(user, form, day);
      [r, AfterPrediction(r, outcome)]
  }

  /**
   * A valid upload is saved as `processing` before the classifier runs and saved once more in
   * a final state that is never `processing`: `completed` with the class, the confidence as a
   * percentage and the probabilities when a result comes back, `failed` otherwise, carrying
   * the exception's text when one was raised. The notes, file and owner never change. An
   * invalid form writes nothing.
   */
  lemma UploadWritesSpec(user: nat, form: UploadForm, day: int, outcome: ClassifierOutcome)
    ensures !FormValid(form) <==> UploadWrites(user, form, day, outcome) == []
    ensures FormValid(form) ==>
      var w := UploadWrites(user, form, day, outcome);
      && |w| == 2
      && w[0].status == Processing && w[1].status in {Completed, Failed}
      && w[0].user == w[1].user == user && w[0].image == w[1].image == form.image.value.name
      && w[0].notes == w[1].notes == form.notes
      && (w[1].status == Completed <==> outcome.Returned?)
      && (outcome.Returned? ==>
            && w[1].predictedCategory == outcome.result.predictedClass
            && w[1].confidence == Some(outcome.result.confidence * 100.0)
            && w[1].probabilities == Some(outcome.result.allProbabilities))
      && (outcome.Raised? ==> w[1].errorMessage == outcome.message)
      && (!outcome.Returned? ==> w[1].predictedCategory == "" && w[1].confidence == None)
      && w[1].normalProb == w[1].abnormalProb == w[1].miProb == w[1].postMiProb == 0.0
  {
  }

  /**
   * The view calls `ecg_model`, whose `predict` never raises and always returns a non-empty
   * dictionary, so every valid upload completes, with a category among the record's choices
   * and a confidence between 0 and 100 times the largest probability.
   */
  lemma UploadWithMlModelCompletes(user: nat, form: UploadForm, day: int,
                                   model: Option<Network>, saved: Option<Network>, readable: bool,
                                   imageLoads: bool, infer: Network -> Option<seq<real>>)
    requires FormValid(form)
    ensures var p := MlModel.PredictResult(model, saved, readable, imageLoads, infer);
      var w := UploadWrites(user, form, day, Returned(p));
      && w[1].status == Completed
      && CategoryFromCode(w[1].predictedCategory).Some?
      && w[1].confidence == Some(p.confidence * 100.0)
      && (forall k :: k in p.allProbabilities ==> p.allProbabilities[k] * 100.0 <= w[1].confidence.value)
  {
    var p := MlModel.PredictResult(model, saved, readable, imageLoads, infer);
    MlModel.PredictResultWellFormed(model, saved, readable, imageLoads, infer);
    ClassNameIsCategory(p.predictedClass);
    var w := UploadWrites(user, form, day, Returned(p));
    assert w[1].confidence == Some(p.confidence * 100.0);
    forall k | k in p.allProbabilities
      ensures p.allProbabilities[k] * 100.0 <= p.confidence * 100.0
    {
      assert p.allProbabilities[k] <= p.confidence;
    }
  }

  /** Each of the classifier's class names is read back as a record category. */
  lemma ClassNameIsCategory(name: string)
    requires name in MlModel.ClassNames
    ensures CategoryFromCode(name).Some?
  {
    assert MlModel.ClassNames == ["normal", "abnormal", "mi", "post_mi"];
  }

  /**
   * The rows the view writes as it is written: it reads `ecg_record.ecg_file.path`, but the
   * record's file column is `image`, so that read raises inside the `try` before the
   * classifier is called. The `failed` row keeps no error text, as the record has no
   * `error_message` column.
   */
  function UploadWritesAsWritten(user: nat, form: UploadForm, day: int): seq<Row> {
    if !FormValid(form) then []
    else
      var r := ProcessingRow(user, form, day);
      [r, r.(status := Failed)]
  }

  /**
   * As written every valid upload ends `failed` with no category and no confidence, whatever
   * the classifier would have returned; the intended view completes the same upload.
   */
  lemma UploadAsWrittenAlwaysFails(user: nat, form: UploadForm, day: int, p: Prediction)
    requires FormValid(form)
    ensures UploadWritesAsWritten(user, form, day)[1].status == Failed
    ensures UploadWritesAsWritten(user, form, day)[1].predictedCategory == ""
    ensures UploadWritesAsWritten(user, form, day)[1].confidence == None
    ensures UploadWrites(user, form, day, Returned(p))[1].status == Completed
    ensures UploadWritesAsWritten(user, form, day) != UploadWrites(user, form, day, Returned(p))
  {
  }

  /**
   * The corrected `upload_ecg_view`, which reads the record's `image` column, for a POST
   * (`isPost`) or a GET: a valid form's record is saved as `processing`, the classifier's
   * outcome is recorded, and the record is saved again. UploadWritesAsWritten is the view as
   * written.
   */
  method UploadEcg(db: Database, user: nat, isPost: bool, form: UploadForm, day: int, outcome: ClassifierOutcome)
    returns (resp: Response)
    modifies db
    ensures db.writes == old(db.writes) + (if isPost then UploadWrites(user, form, day, outcome) else [])
    ensures resp == if !isPost || !FormValid(form) then RenderUploadPage
                    else if outcome.Returned? then RedirectToResult else RedirectToUpload
  {
    if !isPost || !FormValid(form) {
      return RenderUploadPage;
    }
    var record := new ECGRecord(user, form.image.value.name, form.notes, day);
    record.status := Processing;
    record.Save(db);
    assert record.Snapshot() == ProcessingRow(user, form, day);
    match outcome {
      case Returned(p) =>
        record.predictedCategory := p.predictedClass;
        record.confidence := Some(p.confidence * 100.0);
        record.status := Completed;
        record.probabilities := Some(p.allProbabilities);
        record.Save(db);
        resp := RedirectToResult;
      case ReturnedFalsy =>
        record.status := Failed;
        record.Save(db);
        resp := RedirectToUpload;
      case Raised(m) =>
        record.status := Failed;
        record.errorMessage := m;
        record.Save(db);
        resp := RedirectToUpload;
    }
  }

  // ---------------------------------------------------------------- ecg_result_view

  /**
   * The stored `probabilities` text: empty (falsy), or a text that `json.loads` turns into a
   * dictionary of numbers, or one it does not (None).
   */
  datatype StoredProbabilities = NoText | Text(parsed: Option<map<string, real>>)

  /** How the upload view stores a result's probabilities: `json.dumps`, which always parses back. */
  function Serialised(probabilities: Option<map<string, real>>): StoredProbabilities {
    if probabilities.None? then NoText else Text(Some(probabilities.value))
  }

  /** `probs_dict.get(code, 0) * 100`. */
  function Percent(m: map<string, real>, code: string): real {
    (if code in m then m[code] else 0.0) * 100.0
  }

  /** `ecg_record.confidence if ecg_record.predicted_category == code else 0`; None stays None. */
  function OnlyPredicted(category: string, confidence: Option<real>, code: string): Option<real> {
    if category == code then confidence else Some(0.0)
  }

  /** The page's `probabilities` dictionary, keyed by display name. */
  function ResultProbabilities(stored: StoredProbabilities, category: string, confidence: Option<real>)
    : map<string, Option<real>>
  {
    match stored
    case NoText => map[]
    case Text(Some(m)) =>
      map[Normal.Display() := Some(Percent(m, "normal")), Abnormal.Display() := Some(Percent(m, "abnormal")),
          Mi.Display() := Some(Percent(m, "mi")), PostMi.Display() := Some(Percent(m, "post_mi"))]
    case Text(None) =>
      map[Normal.Display() := OnlyPredicted(category, confidence, "normal"),
          Abnormal.Display() := OnlyPredicted(category, confidence, "abnormal"),
          Mi.Display() := OnlyPredicted(category, confidence, "mi"),
          PostMi.Display() := OnlyPredicted(category, confidence, "post_mi")]
  }

  /**
   * Nothing stored shows nothing. Otherwise each of the four categories is shown under its
   * display label: a parsed dictionary gives its value times 100, 0 for a missing key; a text
   * that does not parse gives the record's confidence to the predicted category alone and 0
   * to the other three.
   */
  lemma ResultProbabilitiesSpec(stored: StoredProbabilities, category: string, confidence: Option<real>)
    ensures stored == NoText ==> ResultProbabilities(stored, category, confidence) == map[]
    ensures stored.Text? ==>
      ResultProbabilities(stored, category, confidence).Keys
        == {Normal.Display(), Abnormal.Display(), Mi.Display(), PostMi.Display()}
    ensures stored.Text? && stored.parsed.Some? ==> forall c: Category ::
      ResultProbabilities(stored, category, confidence)[c.Display()]
        == Some(if c.Code() in stored.parsed.value then stored.parsed.value[c.Code()] * 100.0 else 0.0)
    ensures stored == Text(None) ==> forall c: Category ::
      ResultProbabilities(stored, category, confidence)[c.Display()]
        == (if c.Code() == category then confidence else Some(0.0))
  {
    var shown := ResultProbabilities(stored, category, confidence);
    if stored.Text? {
      forall c: Category
        ensures c.Display() in shown
        ensures stored.parsed.Some? ==> shown[c.Display()] == Some(Percent(stored.parsed.value, c.Code()))
        ensures stored.parsed.None? ==> shown[c.Display()] == OnlyPredicted(category, confidence, c.Code())
      {
        match c
        case Normal =>
        case Abnormal =>
        case Mi =>
        case PostMi =>
      }
    }
  }

  /**
   * A completed upload's result page shows the stored probabilities, never the fallback: each
   * class's probability appears as a percentage under its display label.
   */
  lemma CompletedUploadShowsProbabilities(user: nat, form: UploadForm, day: int, p: Prediction)
    requires FormValid(form)
    ensures var r := UploadWrites(user, form, day, Returned(p))[1];
      var shown := ResultProbabilities(Serialised(r.probabilities), r.predictedCategory, r.confidence);
      && Serialised(r.probabilities) == Text(Some(p.allProbabilities))
      && forall c :: c in Categories && c.Code() in p.allProbabilities ==>
           shown[c.Display()] == Some(p.allProbabilities[c.Code()] * 100.0)
  {
    var r := UploadWrites(user, form, day, Returned(p))[1];
    ResultProbabilitiesSpec(Serialised(r.probabilities), r.predictedCategory, r.confidence);
  }

  /** The AttributeError the result page as written raises. */
  datatype PageError = MissingAttribute(name: string)

  /**
   * The result page as written: a record loaded from the table has only the declared columns,
   * and models.py declares no `probabilities`, so reading it raises before any branch runs.
   */
  function ResultPageAsWritten(r: Row): Result<map<string, Option<real>>, PageError> {
    Err(MissingAttribute("probabilities"))
  }

  /** As written every result page raises, even for a record whose probabilities the upload view set. */
  lemma ResultPageAsWrittenRaises(user: nat, form: UploadForm, day: int, p: Prediction)
    requires FormValid(form)
    ensures var r := UploadWrites(user, form, day, Returned(p))[1];
      && ResultPageAsWritten(r) == Err(MissingAttribute("probabilities"))
      && |ResultProbabilities(Serialised(r.probabilities), r.predictedCategory, r.confidence)| == 4
  {
    var r := UploadWrites(user, form, day, Returned(p))[1];
    ResultProbabilitiesSpec(Serialised(r.probabilities), r.predictedCategory, r.confidence);
    assert Normal.Display() != Abnormal.Display() && Mi.Display() != PostMi.Display();
  }

  // ---------------------------------------------------------------- dashboard_view

  /** `user_ecgs.filter(status=s).count()`. */
  function CountStatus(rows: seq<Row>, s: Status): (n: nat)
    ensures n <= |rows|
  {
    if rows == [] then 0
    else CountStatus(rows[..|rows| - 1], s) + (if rows[|rows| - 1].status == s then 1 else 0)
  }

  /** `user_ecgs.filter(predicted_category=code, status='completed').count()`. */
  function CountCompleted(rows: seq<Row>, code: string): (n: nat)
    ensures n <= CountStatus(rows, Completed)
  {
    if rows == [] then 0
    else
      var last := rows[|rows| - 1];
      CountCompleted(rows[..|rows| - 1], code) + (if last.status == Completed && last.predictedCategory == code then 1 else 0)
  }

  /** The dashboard's counters. */
  datatype DashboardCounts = DashboardCounts(total: nat, completed: nat, processing: nat, failed: nat,
                                             normal: nat, abnormal: nat, mi: nat, postMi: nat)

  function Dashboard(rows: seq<Row>): DashboardCounts {
    DashboardCounts(|rows|, CountStatus(rows, Completed), CountStatus(rows, Processing), CountStatus(rows, Failed),
                    CountCompleted(rows, "normal"), CountCompleted(rows, "abnormal"),
                    CountCompleted(rows, "mi"), CountCompleted(rows, "post_mi"))
  }

  /**
   * The status counters with the `pending` records (which the dashboard does not show) add up
   * to the total, and the four category counters together never exceed the completed count.
   */
  lemma {:induction false} DashboardCountsPartition(rows: seq<Row>)
    ensures var d := Dashboard(rows);
      && CountStatus(rows, Pending) + d.completed + d.processing + d.failed == d.total
      && d.normal + d.abnormal + d.mi + d.postMi <= d.completed
  {
    if rows != [] {
      DashboardCountsPartition(rows[..|rows| - 1]);
    }
  }

  /** One bar of the activity chart. */
  datatype Bar = Bar(day: int, count: nat, height: int)

  /** `user_ecgs.filter(upload_date__date=day).count()`, from the rows' upload days. */
  function CountOn(days: seq<int>, day: int): (n: nat)
    ensures n <= |days|
  {
    if days == [] then 0 else CountOn(days[..|days| - 1], day) + (if days[|days| - 1] == day then 1 else 0)
  }

  /** `user_ecgs.filter(upload_date__date__gte=start).count()`: no upper bound. */
  function CountSince(days: seq<int>, start: int): (n: nat)
    ensures n <= |days|
  {
    if days == [] then 0 else CountSince(days[..|days| - 1], start) + (if days[|days| - 1] >= start then 1 else 0)
  }

  /** `min(int((count / max(1, max_count)) * 100) + 20, 120)` with `max_count = max(1, window)`. */
  function BarHeight(count: nat, window: nat): int {
    var maxCount := if window < 1 then 1 else window;
    var height := count * 100 / maxCount + 20;
    if height < 120 then height else 120
  }

  /**
   * Every bar is between 20 and 120 pixels, a day without uploads is 20, and a day holding
   * every upload of the window is 120.
   */
  lemma BarHeightSpec(count: nat, window: nat)
    ensures 20 <= BarHeight(count, window) <= 120
    ensures count == 0 ==> BarHeight(count, window) == 20
    ensures 0 < count == window ==> BarHeight(count, window) == 120
  {
  }

  /** A day inside the window has no more uploads than the window. */
  lemma {:induction false} CountOnWithinWindow(days: seq<int>, day: int, start: int)
    requires start <= day
    ensures CountOn(days, day) <= CountSince(days, start)
  {
    if days != [] {
      CountOnWithinWindow(days[..|days| - 1], day, start);
    }
  }

  /**
   * For the seven days of the window the cap never binds: the height is the day's share of
   * the window's uploads in whole percent, plus 20.
   */
  lemma CapNeverBinds(days: seq<int>, today: int, k: nat)
    requires k < 7
    ensures var count := CountOn(days, today - 6 + k);
      var window := CountSince(days, today - 6);
      BarHeight(count, window) == count * 100 / (if window < 1 then 1 else window) + 20
  {
    var count := CountOn(days, today - 6 + k);
    var window := CountSince(days, today - 6);
    CountOnWithinWindow(days, today - 6 + k, today - 6);
    if window >= 1 {
      ShareAtMostWhole(count, window);
    }
  }

  /** A part of a positive whole is at most 100 percent of it, in whole percent. */
  lemma ShareAtMostWhole(part: nat, whole: nat)
    requires 0 < whole && part <= whole
    ensures part * 100 / whole <= 100
  {
    var q := part * 100 / whole;
    assert q * whole <= part * 100;
    assert part * 100 <= 100 * whole;
    AtLeastOnce(q - 100, whole);
    assert q * whole == (q - 100) * whole + 100 * whole;
  }

  /** A positive multiple of `w` is at least `w`. */
  lemma {:induction false} AtLeastOnce(k: int, w: nat)
    ensures k >= 1 ==> k * w >= w
  {
    if k > 1 {
      AtLeastOnce(k - 1, w);
      assert k * w == (k - 1) * w + w;
    }
  }

  /** The bar of the day `today - i`, as the loop body builds it. */
  function ActivityBar(days: seq<int>, today: int, i: int): Bar {
    var count := CountOn(days, today - i);
    Bar(today - i, count, BarHeight(count, CountSince(days, today - 6)))
  }

  /**
   * The loop of `dashboard_view` over `range(6, -1, -1)`: seven bars, oldest day first, each
   * the count of that day's uploads and its height.
   */
  method RecentActivity(days: seq<int>, today: int) returns (bars: seq<Bar>)
    ensures |bars| == 7
    ensures forall k :: 0 <= k < 7 ==> bars[k] == ActivityBar(days, today, 6 - k)
    ensures forall k :: 0 <= k < 7 ==> bars[k].day == today - 6 + k && 20 <= bars[k].height <= 120
  {
    bars := [];
    var i := 6;
    while i >= 0
      invariant -1 <= i <= 6
      invariant |bars| == 6 - i
      invariant forall k :: 0 <= k < |bars| ==> bars[k] == ActivityBar(days, today, 6 - k)
    {
      var day := today - i;
      var count := CountOn(days, day);
      var maxCount := CountSince(days, today - 6);
      var height := BarHeight(count, maxCount);
      BarHeightSpec(count, maxCount);
      bars := bars + [Bar(day, count, height)];
      i := i - 1;
    }
    forall k | 0 <= k < 7
      ensures 20 <= bars[k].height <= 120
    {
      BarHeightSpec(CountOn(days, today - 6 + k), CountSince(days, today - 6));
    }
  }

  // ---------------------------------------------------------------- api_user_stats

  /** `category_distribution`: the completed records counted by category. */
  function CategoryDistribution(rows: seq<Row>): map<string, nat> {
    map code | code in (set r | r in rows && r.status == Completed :: r.predictedCategory) :: CountCompleted(rows, code)
  }

  /** The JSON numbers of `api_user_stats`; the success rate is not rounded to one decimal here. */
  datatype UserStats = UserStats(total: nat, distribution: map<string, nat>, normal: nat, abnormal: int, successRate: real)

  function ApiUserStats(rows: seq<Row>): UserStats {
    var distribution := CategoryDistribution(rows);
    var normal := if "normal" in distribution then distribution["normal"] else 0;
    var total := |rows|;
    UserStats(total, distribution, normal, total - normal,
              if total > 0 then normal as real / total as real * 100.0 else 0.0)
  }

  /** A completed record's category is a key of the distribution; a category with no completed record is not. */
  lemma {:induction false} CountCompletedPositive(rows: seq<Row>, code: string)
    ensures CountCompleted(rows, code) > 0 <==> exists r :: r in rows && r.status == Completed && r.predictedCategory == code
  {
    if rows != [] {
      var n := |rows| - 1;
      CountCompletedPositive(rows[..n], code);
      assert rows == rows[..n] + [rows[n]];
      if exists r :: r in rows && r.status == Completed && r.predictedCategory == code {
        var r :| r in rows && r.status == Completed && r.predictedCategory == code;
        if r != rows[n] {
          assert r in rows[..n];
        }
      }
    }
  }

  /**
   * `normal_ecgs` is the number of completed normal records, `normal_ecgs + abnormal_ecgs`
   * is the total, so every record not completed as normal (pending, processing and failed
   * ones included) counts as abnormal, and the success rate is 0 without records and a
   * percentage between 0 and 100 otherwise.
   */
  lemma ApiUserStatsSpec(rows: seq<Row>)
    ensures var s := ApiUserStats(rows);
      && s.normal == CountCompleted(rows, "normal")
      && s.normal + s.abnormal == s.total == |rows|
      && 0 <= s.abnormal
      && s.abnormal >= CountStatus(rows, Pending) + CountStatus(rows, Processing) + CountStatus(rows, Failed)
      && (s.total == 0 ==> s.successRate == 0.0)
      && 0.0 <= s.successRate <= 100.0
  {
    NormalFromDistribution(rows);
    DashboardCountsPartition(rows);
    var s := ApiUserStats(rows);
    if s.total > 0 {
      FractionAtMostOne(s.normal, s.total);
    }
  }

  /** `category_distribution.get('normal', 0)` is the number of completed normal records. */
  lemma NormalFromDistribution(rows: seq<Row>)
    ensures var d := CategoryDistribution(rows);
      (if "normal" in d then d["normal"] else 0) == CountCompleted(rows, "normal")
  {
    CategoryDistributionSpec(rows);
  }

  /**
   * The distribution's keys are exactly the categories of some completed record, and each
   * key maps to its number of completed records.
   */
  lemma CategoryDistributionSpec(rows: seq<Row>)
    ensures forall code :: code in CategoryDistribution(rows) <==> CountCompleted(rows, code) > 0
    ensures forall code :: code in CategoryDistribution(rows) ==> CategoryDistribution(rows)[code] == CountCompleted(rows, code)
  {
    forall code
      ensures code in CategoryDistribution(rows) <==> CountCompleted(rows, code) > 0
    {
      CountCompletedPositive(rows, code);
    }
  }

  /** A part of a positive whole is at most 100 percent of it. */
  lemma FractionAtMostOne(part: nat, whole: nat)
    requires 0 < whole && part <= whole
    ensures 0.0 <= part as real / whole as real * 100.0 <= 100.0
  {
    var f := part as real / whole as real;
    assert f * whole as real == part as real;
  }
}
