/**
 * ecg_app/test_model.py: ECGModelTester, the offline evaluation helper. Unlike ECGClassifier
 * it answers None where a single image cannot be classified, drops unreadable images from a
 * batch, and lets the errors of the label encoding, the forward pass and numpy's comparison
 * propagate. Loading the network and encoder, reading and resizing an image, and the forward
 * pass are parameters, as in Utils.
 */
module ModelTester {
  import opened Wrappers
  import opened Outputs
  import Utils

  /** A single image classified by the network in memory; None wherever the code raises. */
  function SingleTest(net: Network, encoder: Option<seq<string>>, path: string,
                      imread: string -> Option<seq<seq<Utils.Bgr>>>, resize: seq<seq<Utils.Rgb>> -> Utils.Frame,
                      forward: (Network, Utils.Scaled) -> Option<seq<real>>): (r: Option<IndexedPrediction>)
  {
    match Utils.PrepareImage(Utils.FilePath(path), imread, resize)
    case Err(_) => None
    case Ok(t) =>
      match forward(net, t[0])
      case None => None
      case Some(p) =>
        if encoder.None? then None
        else
          match Shape(encoder.value, p)
          case Err(_) => None
          case Ok(r) => Some(r)
  }

  /**
   * `test_single_image` answers None for an unreadable image, a failed forward pass and a
   * missing encoder; otherwise, with distinct class names, it answers exactly when the output
   * is non-empty and no longer than the encoder's classes, naming the class at the first
   * maximal index, with that entry as confidence and every index's name mapped to its entry.
   */
  lemma SingleTestSpec(net: Network, encoder: Option<seq<string>>, path: string,
                       imread: string -> Option<seq<seq<Utils.Bgr>>>, resize: seq<seq<Utils.Rgb>> -> Utils.Frame,
                       forward: (Network, Utils.Scaled) -> Option<seq<real>>)
    ensures imread(path).None? ==> SingleTest(net, encoder, path, imread, resize, forward) == None
    ensures encoder.None? ==> SingleTest(net, encoder, path, imread, resize, forward) == None
    ensures (Utils.PrepareImage(Utils.FilePath(path), imread, resize).Ok?
             && forward(net, Utils.PrepareImage(Utils.FilePath(path), imread, resize).value[0]).None?) ==>
      SingleTest(net, encoder, path, imread, resize, forward) == None
    ensures SingleTest(net, encoder, path, imread, resize, forward).Some? <==>
      var t := Utils.PrepareImage(Utils.FilePath(path), imread, resize);
      && t.Ok? && encoder.Some? && forward(net, t.value[0]).Some?
      && 0 < |forward(net, t.value[0]).value| <= |encoder.value|
    ensures SingleTest(net, encoder, path, imread, resize, forward).Some? && Distinct(encoder.value) ==>
      var t := Utils.PrepareImage(Utils.FilePath(path), imread, resize).value;
      var p := forward(net, t[0]).value;
      var r := SingleTest(net, encoder, path, imread, resize, forward).value;
      && 0 < |p| <= |encoder.value|
      && IsFirstMax(p, r.predictedClassIdx)
      && r.prediction.predictedClass == encoder.value[r.predictedClassIdx]
      && r.prediction.confidence == p[r.predictedClassIdx]
      && r.prediction.allProbabilities.Keys == Names(encoder.value[..|p|])
      && (forall i :: 0 <= i < |p| ==> r.prediction.allProbabilities[encoder.value[i]] == p[i])
  {
    var prepared := Utils.PrepareImage(Utils.FilePath(path), imread, resize);
    if prepared.Ok? && forward(net, prepared.value[0]).Some? && encoder.Some? {
      ShapeOkIff(encoder.value, forward(net, prepared.value[0]).value);
      if Distinct(encoder.value) {
        ShapeSpec(encoder.value, forward(net, prepared.value[0]).value);
      }
    }
  }

  /**
   * The preprocessing loop of `batch_test`: an image `cv2.imread` cannot read is skipped, any
   * other failure raises.
   */
  function Kept(paths: seq<string>, imread: string -> Option<seq<seq<Utils.Bgr>>>,
                resize: seq<seq<Utils.Rgb>> -> Utils.Frame): (r: Result<seq<Utils.Scaled>, Error>)
    ensures r.Ok? ==> |r.value| <= |paths|
  {
    if paths == [] then Ok([])
    else
      var n := |paths| - 1;
      match Kept(paths[..n], imread, resize)
      case Err(e) => Err(e)
      case Ok(fs) =>
        match Utils.PrepareImage(Utils.FilePath(paths[n]), imread, resize)
        case Ok(t) => Ok(fs + [t[0]])
        case Err(e) => if e.ImageUnreadable? then Ok(fs) else Err(e)
  }

  /** A path is skipped exactly when `cv2.imread` cannot read it. */
  lemma SkippedIffUnreadable(path: string, imread: string -> Option<seq<seq<Utils.Bgr>>>,
                             resize: seq<seq<Utils.Rgb>> -> Utils.Frame)
    ensures var t := Utils.PrepareImage(Utils.FilePath(path), imread, resize);
      (t.Err? && t.error.ImageUnreadable?) <==> imread(path).None?
  {
  }

  /** Every image is kept exactly when every image is readable. */
  lemma {:induction false} KeptAllReadable(paths: seq<string>, imread: string -> Option<seq<seq<Utils.Bgr>>>,
                                           resize: seq<seq<Utils.Rgb>> -> Utils.Frame)
    requires Kept(paths, imread, resize).Ok?
    ensures |Kept(paths, imread, resize).value| == |paths| <==> forall k :: 0 <= k < |paths| ==> imread(paths[k]).Some?
  {
    if paths != [] {
      var n := |paths| - 1;
      var prefix := paths[..n];
      KeptStep(paths, imread, resize);
      KeptAllReadable(prefix, imread, resize);
      var before := |Kept(prefix, imread, resize).value|;
      var after := |Kept(paths, imread, resize).value|;
      if imread(paths[n]).Some? {
        assert after == before + 1;
        if forall k :: 0 <= k < n ==> imread(prefix[k]).Some? {
          forall k | 0 <= k < |paths|
            ensures imread(paths[k]).Some?
          {
            if k < n {
              assert prefix[k] == paths[k];
              assert imread(prefix[k]).Some?;
            } else {
              assert k == n;
            }
          }
        } else {
          var j :| 0 <= j < n && imread(prefix[j]).None?;
          assert paths[j] == prefix[j];
        }
      } else {
        assert after == before <= n;
      }
    }
  }

  /** Keeping a non-empty list: the last image is added when readable and skipped when not. */
  lemma KeptStep(paths: seq<string>, imread: string -> Option<seq<seq<Utils.Bgr>>>,
                 resize: seq<seq<Utils.Rgb>> -> Utils.Frame)
    requires paths != [] && Kept(paths, imread, resize).Ok?
    ensures var n := |paths| - 1;
      && Kept(paths[..n], imread, resize).Ok?
      && |Kept(paths, imread, resize).value|
           == |Kept(paths[..n], imread, resize).value| + (if imread(paths[n]).Some? then 1 else 0)
  {
    SkippedIffUnreadable(paths[|paths| - 1], imread, resize);
  }

  /** The loop of `batch_test` that reads and preprocesses each image in turn. */
  method KeepReadable(paths: seq<string>, imread: string -> Option<seq<seq<Utils.Bgr>>>,
                      resize: seq<seq<Utils.Rgb>> -> Utils.Frame) returns (r: Result<seq<Utils.Scaled>, Error>)
    ensures r == Kept(paths, imread, resize)
  {
    var processedImages: seq<Utils.Scaled> := [];
    var k := 0;
    while k < |paths|
      invariant k <= |paths|
      invariant Kept(paths[..k], imread, resize) == Ok(processedImages)
    {
      assert paths[..k + 1][..k] == paths[..k];
      var img := Utils.PrepareImage(Utils.FilePath(paths[k]), imread, resize);
      if img.Ok? {
        processedImages := processedImages + [img.value[0]];
      } else if !img.error.ImageUnreadable? {
        KeptStops(paths, k, imread, resize);
        return Err(img.error);
      }
      k := k + 1;
    }
    assert paths[..k] == paths;
    return Ok(processedImages);
  }

  /** Once an image fails other than by being unreadable, the whole loop fails with its error. */
  lemma {:induction false} KeptStops(paths: seq<string>, k: nat, imread: string -> Option<seq<seq<Utils.Bgr>>>,
                                     resize: seq<seq<Utils.Rgb>> -> Utils.Frame)
    requires k < |paths|
    requires Kept(paths[..k], imread, resize).Ok?
    requires Utils.PrepareImage(Utils.FilePath(paths[k]), imread, resize).Err?
    requires !Utils.PrepareImage(Utils.FilePath(paths[k]), imread, resize).error.ImageUnreadable?
    ensures Kept(paths, imread, resize) == Err(Utils.PrepareImage(Utils.FilePath(paths[k]), imread, resize).error)
    decreases |paths|
  {
    var n := |paths| - 1;
    if k == n {
      assert paths[..n] == paths[..k];
    } else {
      assert paths[..n][..k] == paths[..k];
      assert paths[..n][k] == paths[k];
      KeptStops(paths[..n], k, imread, resize);
    }
  }

  /** `label_encoder.transform(y_test)`: the first label outside `classes_` raises. */
  function EncodeAll(classes: seq<string>, labels: seq<string>): (r: Result<seq<nat>, Error>)
    ensures r.Ok? <==> forall k :: 0 <= k < |labels| ==> labels[k] in classes
    ensures r.Ok? ==> (|r.value| == |labels|
      && forall k :: 0 <= k < |labels| ==> r.value[k] < |classes| && classes[r.value[k]] == labels[k])
  {
    if labels == [] then Ok([])
    else
      var n := |labels| - 1;
      match EncodeAll(classes, labels[..n])
      case Err(e) =>
        assert labels[..n][..] == labels[..n];
        assert exists k :: 0 <= k < n && labels[..n][k] !in classes;
        Err(e)
      case Ok(ys) =>
        match Encode(classes, labels[n])
        case Err(e) => Err(e)
        case Ok(y) => Ok(ys + [y])
  }

  /** The first label outside `classes_` is the one `transform` reports. */
  lemma {:induction false} EncodeAllFirstUnseen(classes: seq<string>, labels: seq<string>, j: nat)
    requires j < |labels| && labels[j] !in classes
    requires forall i :: 0 <= i < j ==> labels[i] in classes
    ensures EncodeAll(classes, labels) == Err(UnseenLabel(labels[j]))
    decreases |labels|
  {
    var n := |labels| - 1;
    if j < n {
      assert labels[..n][j] == labels[j];
      assert forall i :: 0 <= i < j ==> labels[..n][i] == labels[i];
      EncodeAllFirstUnseen(classes, labels[..n], j);
    } else {
      assert forall i :: 0 <= i < n ==> labels[..n][i] == labels[i];
      assert EncodeAll(classes, labels[..n]).Ok?;
    }
  }

  /** `np.argmax(predictions, axis=1)`: the first maximal index of each row; an empty row raises. */
  function ArgMaxRows(rows: seq<seq<real>>): (r: Result<seq<nat>, Error>)
    ensures r.Ok? <==> forall k :: 0 <= k < |rows| ==> |rows[k]| > 0
    ensures r.Err? ==> r.error == EmptyOutput
    ensures r.Ok? ==> |r.value| == |rows| && forall k :: 0 <= k < |rows| ==> IsFirstMax(rows[k], r.value[k])
  {
    if rows == [] then Ok([])
    else
      var n := |rows| - 1;
      match ArgMaxRows(rows[..n])
      case Err(e) =>
        assert exists k :: 0 <= k < n && |rows[..n][k]| == 0;
        Err(e)
      case Ok(ys) => if |rows[n]| == 0 then Err(EmptyOutput) else Ok(ys + [ArgMax(rows[n])])
  }

  /**
   * `y_pred == y_test_encoded` under numpy broadcasting: equal lengths compare position by
   * position, a side of length one is repeated, and any other pair of lengths raises.
   */
  function Compare(yPred: seq<nat>, yTrue: seq<nat>): (r: Result<seq<bool>, Error>) {
    if |yPred| == |yTrue| then Ok(seq(|yPred|, i requires 0 <= i < |yPred| => yPred[i] == yTrue[i]))
    else if |yTrue| == 1 then Ok(seq(|yPred|, i requires 0 <= i < |yPred| => yPred[i] == yTrue[0]))
    else if |yPred| == 1 then Ok(seq(|yTrue|, i requires 0 <= i < |yTrue| => yPred[0] == yTrue[i]))
    else Err(ShapeMismatch)
  }

  /** `np.mean` of a boolean array: the fraction of `True`, or NaN for an empty array. */
  datatype Accuracy = Ratio(hits: nat, total: nat) | NotANumber

  function CountTrue(bs: seq<bool>): (c: nat)
    ensures c <= |bs|
  {
    if bs == [] then 0 else CountTrue(bs[..|bs| - 1]) + (if bs[|bs| - 1] then 1 else 0)
  }

  function Mean(bs: seq<bool>): (a: Accuracy)
    ensures a.Ratio? ==> 0 < a.total && a.hits <= a.total
  {
    if bs == [] then NotANumber else Ratio(CountTrue(bs), |bs|)
  }

  /** The positions at which two equally long label lists agree, counted on their own. */
  function Matches(a: seq<nat>, b: seq<nat>): (c: nat)
    requires |a| == |b|
    ensures c <= |a|
  {
    if a == [] then 0
    else
      var n := |a| - 1;
      Matches(a[..n], b[..n]) + (if a[n] == b[n] then 1 else 0)
  }

  /** `np.mean(y_pred == y_test_encoded)`. */
  function AccuracyOf(yPred: seq<nat>, yTrue: seq<nat>): (r: Result<Accuracy, Error>) {
    match Compare(yPred, yTrue)
    case Err(e) => Err(e)
    case Ok(bs) => Ok(Mean(bs))
  }

  lemma {:induction false} CountTrueMatches(a: seq<nat>, b: seq<nat>)
    requires |a| == |b|
    ensures CountTrue(seq(|a|, i requires 0 <= i < |a| => a[i] == b[i])) == Matches(a, b)
  {
    if a != [] {
      var n := |a| - 1;
      var bs := seq(|a|, i requires 0 <= i < |a| => a[i] == b[i]);
      assert bs[..n] == seq(n, i requires 0 <= i < n => a[..n][i] == b[..n][i]);
      CountTrueMatches(a[..n], b[..n]);
    }
  }

  /**
   * The accuracy of equally long, non-empty label lists is the number of agreeing positions
   * over their length, so lies in [0, 1]; empty ones give NaN; every accuracy that is a ratio
   * has a positive total and no more hits than positions.
   */
  lemma AccuracySpec(yPred: seq<nat>, yTrue: seq<nat>)
    ensures |yPred| == |yTrue| > 0 ==> AccuracyOf(yPred, yTrue) == Ok(Ratio(Matches(yPred, yTrue), |yPred|))
    ensures |yPred| == |yTrue| == 0 ==> AccuracyOf(yPred, yTrue) == Ok(NotANumber)
    ensures AccuracyOf(yPred, yTrue).Ok? && AccuracyOf(yPred, yTrue).value.Ratio? ==>
      var a := AccuracyOf(yPred, yTrue).value;
      0 < a.total && a.hits <= a.total
    ensures AccuracyOf(yPred, yTrue).Err? <==> |yPred| != |yTrue| && |yPred| != 1 && |yTrue| != 1
  {
    if |yPred| == |yTrue| {
      CountTrueMatches(yPred, yTrue);
    }
  }

  /** What `batch_test` returns beside the sklearn report and confusion matrix. */
  datatype BatchReport = BatchReport(accuracy: Accuracy, predictions: seq<seq<real>>, yTrue: seq<nat>, yPred: seq<nat>)

  /**
   * `batch_test` once a network is in memory: None when no image is readable, the first
   * error raised otherwise, and the report when everything succeeds. After the accuracy,
   * `classification_report` checks that labels and predictions are equally many and raises
   * otherwise, so a broadcast comparison never reaches the report.
   */
  function BatchTestResult(net: Network, encoder: Option<seq<string>>, paths: seq<string>, labels: seq<string>,
                           imread: string -> Option<seq<seq<Utils.Bgr>>>, resize: seq<seq<Utils.Rgb>> -> Utils.Frame,
                           forward: (Network, Utils.Scaled) -> Option<seq<real>>): (r: Result<Option<BatchReport>, Error>)
  {
    match Kept(paths, imread, resize)
    case Err(e) => Err(e)
    case Ok(frames) =>
      if frames == [] then Ok(None)
      else if encoder.None? then Err(NoEncoder)
      else
        match EncodeAll(encoder.value, labels)
        case Err(e) => Err(e)
        case Ok(yTrue) =>
          match Utils.ForwardAll(net, frames, forward)
          case None => Err(InferenceFailed)
          case Some(predictions) =>
            match ArgMaxRows(predictions)
            case Err(e) => Err(e)
            case Ok(yPred) =>
              match AccuracyOf(yPred, yTrue)
              case Err(e) => Err(e)
              case Ok(a) =>
                if |yPred| != |yTrue| then Err(InconsistentLengths)
                else Ok(Some(BatchReport(a, predictions, yTrue, yPred)))
  }

  /**
   * A report compares one prediction per kept image with the encoded labels: when every image
   * is readable and there are as many labels, the accuracy is the fraction of images whose first
   * maximal output index is their label's code. With no readable image the answer is None.
   */
  lemma BatchTestSpec(net: Network, encoder: Option<seq<string>>, paths: seq<string>, labels: seq<string>,
                      imread: string -> Option<seq<seq<Utils.Bgr>>>, resize: seq<seq<Utils.Rgb>> -> Utils.Frame,
                      forward: (Network, Utils.Scaled) -> Option<seq<real>>)
    ensures paths == [] ==> BatchTestResult(net, encoder, paths, labels, imread, resize, forward) == Ok(None)
    ensures (forall k :: 0 <= k < |paths| ==> imread(paths[k]).None?) ==>
      BatchTestResult(net, encoder, paths, labels, imread, resize, forward) == Ok(None)
    ensures (BatchTestResult(net, encoder, paths, labels, imread, resize, forward).Ok?
             && BatchTestResult(net, encoder, paths, labels, imread, resize, forward).value.Some?) ==>
      var b := BatchTestResult(net, encoder, paths, labels, imread, resize, forward).value.value;
      && encoder.Some?
      && |b.yTrue| == |labels|
      && (forall k :: 0 <= k < |labels| ==> encoder.value[b.yTrue[k]] == labels[k])
      && |b.yPred| == |b.predictions| == |Kept(paths, imread, resize).value| > 0
      && (forall k :: 0 <= k < |b.yPred| ==> IsFirstMax(b.predictions[k], b.yPred[k]))
      && |b.yPred| == |labels|
      && b.accuracy == Ratio(Matches(b.yPred, b.yTrue), |labels|)
    ensures (BatchTestResult(net, encoder, paths, labels, imread, resize, forward).Ok?
             && BatchTestResult(net, encoder, paths, labels, imread, resize, forward).value.Some?) <==>
      var kept := Kept(paths, imread, resize);
      && kept.Ok? && kept.value != [] && encoder.Some?
      && (forall k :: 0 <= k < |labels| ==> labels[k] in encoder.value)
      && Utils.ForwardAll(net, kept.value, forward).Some?
      && (forall k :: 0 <= k < |kept.value| ==> |Utils.ForwardAll(net, kept.value, forward).value[k]| > 0)
      && |kept.value| == |labels|
  {
    var kept := Kept(paths, imread, resize);
    if kept.Ok? && kept.value != [] && encoder.Some? && EncodeAll(encoder.value, labels).Ok?
       && Utils.ForwardAll(net, kept.value, forward).Some? {
      var rows := Utils.ForwardAll(net, kept.value, forward).value;
      if ArgMaxRows(rows).Ok? {
        AccuracySpec(ArgMaxRows(rows).value, EncodeAll(encoder.value, labels).value);
      }
    }
    if forall k :: 0 <= k < |paths| ==> imread(paths[k]).None? {
      NoneReadable(paths, imread, resize);
    }
    var r := BatchTestResult(net, encoder, paths, labels, imread, resize, forward);
    if r.Ok? && r.value.Some? {
      var b := r.value.value;
      var frames := Kept(paths, imread, resize).value;
      var predictions := Utils.ForwardAll(net, frames, forward).value;
      assert b.predictions == predictions && |predictions| == |frames| > 0;
      assert b.yPred == ArgMaxRows(predictions).value;
      assert b.yTrue == EncodeAll(encoder.value, labels).value;
      AccuracySpec(b.yPred, b.yTrue);
    }
  }

  /**
   * Which answer `batch_test` gives, stage by stage: a non-skipped preprocessing error, None
   * when nothing was kept, the missing encoder, the first unseen label, the forward pass, an
   * empty output row, a comparison numpy cannot broadcast, and last a comparison it can
   * broadcast but the report refuses, in that order.
   */
  lemma BatchTestErrors(net: Network, encoder: Option<seq<string>>, paths: seq<string>, labels: seq<string>,
                        imread: string -> Option<seq<seq<Utils.Bgr>>>, resize: seq<seq<Utils.Rgb>> -> Utils.Frame,
                        forward: (Network, Utils.Scaled) -> Option<seq<real>>)
    ensures var r := BatchTestResult(net, encoder, paths, labels, imread, resize, forward);
      var kept := Kept(paths, imread, resize);
      && (kept.Err? ==> r == Err(kept.error))
      && (kept.Ok? ==> (r == Ok(None) <==> kept.value == []))
      && (kept.Ok? && kept.value != [] && encoder.None? ==> r == Err(NoEncoder))
      && (kept.Ok? && kept.value != [] && encoder.Some? ==>
            forall j :: 0 <= j < |labels| && labels[j] !in encoder.value
                        && (forall i :: 0 <= i < j ==> labels[i] in encoder.value) ==>
              r == Err(UnseenLabel(labels[j])))
    ensures var r := BatchTestResult(net, encoder, paths, labels, imread, resize, forward);
      var kept := Kept(paths, imread, resize);
      kept.Ok? && kept.value != [] && encoder.Some? && (forall k :: 0 <= k < |labels| ==> labels[k] in encoder.value) ==>
        var rows := Utils.ForwardAll(net, kept.value, forward);
        && (rows.None? ==> r == Err(InferenceFailed))
        && (rows.Some? && (exists k :: 0 <= k < |rows.value| && |rows.value[k]| == 0) ==> r == Err(EmptyOutput))
        && ((rows.Some? && (forall k :: 0 <= k < |rows.value| ==> |rows.value[k]| > 0)
             && |kept.value| != |labels| && |kept.value| != 1 && |labels| != 1)
            ==> r == Err(ShapeMismatch))
        && ((rows.Some? && (forall k :: 0 <= k < |rows.value| ==> |rows.value[k]| > 0)
             && |kept.value| != |labels| && (|kept.value| == 1 || |labels| == 1))
            ==> r == Err(InconsistentLengths))
  {
    var kept := Kept(paths, imread, resize);
    if kept.Ok? && kept.value != [] && encoder.Some? {
      forall j | 0 <= j < |labels| && labels[j] !in encoder.value
                 && (forall i :: 0 <= i < j ==> labels[i] in encoder.value)
        ensures BatchTestResult(net, encoder, paths, labels, imread, resize, forward) == Err(UnseenLabel(labels[j]))
      {
        EncodeAllFirstUnseen(encoder.value, labels, j);
      }
      var rows := Utils.ForwardAll(net, kept.value, forward);
      if EncodeAll(encoder.value, labels).Ok? && rows.Some? && ArgMaxRows(rows.value).Ok? {
        AccuracySpec(ArgMaxRows(rows.value).value, EncodeAll(encoder.value, labels).value);
      }
    }
  }

  /** With no readable image nothing is kept. */
  lemma {:induction false} NoneReadable(paths: seq<string>, imread: string -> Option<seq<seq<Utils.Bgr>>>,
                                        resize: seq<seq<Utils.Rgb>> -> Utils.Frame)
    requires forall k :: 0 <= k < |paths| ==> imread(paths[k]).None?
    ensures Kept(paths, imread, resize) == Ok([])
  {
    if paths != [] {
      var n := |paths| - 1;
      assert forall k :: 0 <= k < n ==> paths[..n][k] == paths[k];
      NoneReadable(paths[..n], imread, resize);
    }
  }

  /**
   * The labels are not filtered with the images: when one label is given per image and some
   * image is unreadable, the comparison raises unless exactly one image was kept, in which case
   * that one prediction is compared with every label (and the report then raises).
   */
  lemma UnreadableImageMisaligns(yPred: seq<nat>, yTrue: seq<nat>)
    requires 0 < |yPred| < |yTrue|
    ensures |yPred| > 1 ==> AccuracyOf(yPred, yTrue) == Err(ShapeMismatch)
    ensures |yPred| == 1 ==> AccuracyOf(yPred, yTrue).Ok? && AccuracyOf(yPred, yTrue).value.total == |yTrue|
  {
  }

  /** `generate_performance_report`'s dictionary, without the sklearn metrics and the plots. */
  datatype PerformanceReport = PerformanceReport(overallAccuracy: Accuracy, classNames: seq<string>, numTestSamples: nat)

  /** The report built from `batch_test`'s answer: None and errors pass through. */
  function ReportOf(batch: Result<Option<BatchReport>, Error>, classNames: seq<string>, paths: seq<string>)
    : (r: Result<Option<PerformanceReport>, Error>)
  {
    match batch
    case Err(e) => Err(e)
    case Ok(None) => Ok(None)
    case Ok(Some(b)) => Ok(Some(PerformanceReport(b.accuracy, classNames, |paths|)))
  }

  /**
   * `num_test_samples` counts the image paths given, unreadable ones included, so it exceeds
   * the number of predictions the accuracy is taken over whenever an image was dropped.
   */
  lemma ReportCountsAllPaths(net: Network, encoder: Option<seq<string>>, classNames: seq<string>,
                             paths: seq<string>, labels: seq<string>,
                             imread: string -> Option<seq<seq<Utils.Bgr>>>, resize: seq<seq<Utils.Rgb>> -> Utils.Frame,
                             forward: (Network, Utils.Scaled) -> Option<seq<real>>)
    requires ReportOf(BatchTestResult(net, encoder, paths, labels, imread, resize, forward), classNames, paths).Ok?
    requires ReportOf(BatchTestResult(net, encoder, paths, labels, imread, resize, forward), classNames, paths).value.Some?
    ensures var b := BatchTestResult(net, encoder, paths, labels, imread, resize, forward).value.value;
      var rep := ReportOf(BatchTestResult(net, encoder, paths, labels, imread, resize, forward), classNames, paths).value.value;
      && rep.overallAccuracy == b.accuracy
      && rep.numTestSamples == |paths|
      && |b.yPred| <= rep.numTestSamples
      && (|b.yPred| == rep.numTestSamples <==> forall k :: 0 <= k < |paths| ==> imread(paths[k]).Some?)
  {
    KeptAllReadable(paths, imread, resize);
  }

  /** The subplot grid of `visualize_predictions`. */
  datatype Grid = Grid(rows: nat, cols: nat)

  /** `n_cols = min(4, n)`, `n_rows = (n + n_cols - 1) // n_cols`; None where n = 0 divides by zero. */
  function GridLayout(n: nat): (r: Option<Grid>) {
    var cols := if n < 4 then n else 4;
    if cols == 0 then None else Some(Grid((n + cols - 1) / cols, cols))
  }

  /** The axes `visualize_predictions` hides: those past the last image. */
  function HiddenAxes(n: nat, g: Grid): (r: seq<nat>)
    requires n <= g.rows * g.cols
  {
    seq(g.rows * g.cols - n, i requires 0 <= i < g.rows * g.cols - n => n + i)
  }

  /**
   * A grid exists exactly for a non-empty list; it has at most four columns and the fewest
   * rows holding every image, so the hidden axes are fewer than one row.
   */
  lemma GridLayoutSpec(n: nat)
    ensures GridLayout(n).None? <==> n == 0
    ensures GridLayout(n).Some? ==>
      var g := GridLayout(n).value;
      && g.cols == (if n < 4 then n else 4)
      && 1 <= g.cols <= 4
      && (g.rows - 1) * g.cols < n <= g.rows * g.cols
      && |HiddenAxes(n, g)| < g.cols
      && (forall i :: 0 <= i < |HiddenAxes(n, g)| ==> n <= HiddenAxes(n, g)[i] < g.rows * g.cols)
  {
    if n > 0 {
      var g := GridLayout(n).value;
      var c := g.cols;
      var q := (n + c - 1) / c;
      assert q * c <= n + c - 1 < q * c + c;
      assert (q - 1) * c == q * c - c;
    }
  }

  class ECGModelTester {
    var model: Option<Network>
    /** The fitted label encoder's `classes_`. */
    var labelEncoder: Option<seq<string>>
    var classNames: seq<string>

    constructor ()
      ensures model == None && labelEncoder == None && classNames == []
    {
      model := None;
      labelEncoder := None;
      classNames := [];
    }

    /**
     * `load_model()`: the network is assigned as soon as it loads, so a failure to load the
     * encoder afterwards returns False with that network still in memory.
     */
    method LoadModel(savedModel: Option<Network>, savedEncoder: Option<seq<string>>) returns (ok: bool)
      modifies this
      ensures ok == (savedModel.Some? && savedEncoder.Some?)
      ensures model == if savedModel.Some? then savedModel else old(model)
      ensures labelEncoder == if ok then savedEncoder else old(labelEncoder)
      ensures classNames == if ok then savedEncoder.value else old(classNames)
    {
      if savedModel.None? {
        return false;
      }
      model := savedModel;
      if savedEncoder.None? {
        return false;
      }
      labelEncoder := savedEncoder;
      classNames := savedEncoder.value;
      return true;
    }

    /**
     * `test_single_image(image_path)`: None when no network is in memory and loading fails;
     * otherwise SingleTest with the network in memory.
     */
    method TestSingleImage(path: string, savedModel: Option<Network>, savedEncoder: Option<seq<string>>,
                           imread: string -> Option<seq<seq<Utils.Bgr>>>, resize: seq<seq<Utils.Rgb>> -> Utils.Frame,
                           forward: (Network, Utils.Scaled) -> Option<seq<real>>) returns (r: Option<IndexedPrediction>)
      modifies this
      ensures old(model).Some? ==> unchanged(this)
      ensures old(model).None? && !(savedModel.Some? && savedEncoder.Some?) ==> r == None
      ensures old(model).None? ==>
        && model == (if savedModel.Some? then savedModel else old(model))
        && labelEncoder == (if savedModel.Some? && savedEncoder.Some? then savedEncoder else old(labelEncoder))
        && classNames == (if savedModel.Some? && savedEncoder.Some? then savedEncoder.value else old(classNames))
      ensures old(model).Some? || (savedModel.Some? && savedEncoder.Some?) ==>
        model.Some? && r == SingleTest(model.value, labelEncoder, path, imread, resize, forward)
    {
      if model.None? {
        var loaded := LoadModel(savedModel, savedEncoder);
        if !loaded {
          return None;
        }
      }
      var prepared := Utils.PrepareImage(Utils.FilePath(path), imread, resize);
      if prepared.Err? {
        return None;
      }
      var predictions := forward(model.value, prepared.value[0]);
      if predictions.None? {
        return None;
      }
      var p := predictions.value;
      if |p| == 0 || labelEncoder.None? {
        return None;
      }
      var predictedClassIdx := ArgMax(p);
      var confidence := p[predictedClassIdx];
      var predictedClass := Decode(labelEncoder.value, predictedClassIdx);
      if predictedClass.Err? {
        return None;
      }
      var allProbs := FillProbabilities(labelEncoder.value, p);
      if allProbs.Err? {
        return None;
      }
      r := Some(IndexedPrediction(Prediction(predictedClass.value, confidence, allProbs.value), predictedClassIdx));
    }

    /**
     * `batch_test(test_images, test_labels)`: None when no network is in memory and loading
     * fails; otherwise BatchTestResult with the network in memory.
     */
    method BatchTest(paths: seq<string>, labels: seq<string>, savedModel: Option<Network>, savedEncoder: Option<seq<string>>,
                     imread: string -> Option<seq<seq<Utils.Bgr>>>, resize: seq<seq<Utils.Rgb>> -> Utils.Frame,
                     forward: (Network, Utils.Scaled) -> Option<seq<real>>) returns (r: Result<Option<BatchReport>, Error>)
      modifies this
      ensures old(model).Some? ==> unchanged(this)
      ensures old(model).None? && !(savedModel.Some? && savedEncoder.Some?) ==> r == Ok(None)
      ensures old(model).None? ==>
        && model == (if savedModel.Some? then savedModel else old(model))
        && labelEncoder == (if savedModel.Some? && savedEncoder.Some? then savedEncoder else old(labelEncoder))
        && classNames == (if savedModel.Some? && savedEncoder.Some? then savedEncoder.value else old(classNames))
      ensures old(model).Some? || (savedModel.Some? && savedEncoder.Some?) ==>
        model.Some? && r == BatchTestResult(model.value, labelEncoder, paths, labels, imread, resize, forward)
    {
      if model.None? {
        var loaded := LoadModel(savedModel, savedEncoder);
        if !loaded {
          return Ok(None);
        }
      }
      var kept := KeepReadable(paths, imread, resize);
      if kept.Err? {
        return Err(kept.error);
      }
      if kept.value == [] {
        return Ok(None);
      }
      if labelEncoder.None? {
        return Err(NoEncoder);
      }
      var yTrue := EncodeAll(labelEncoder.value, labels);
      if yTrue.Err? {
        return Err(yTrue.error);
      }
      var predictions := Utils.ForwardAll(model.value, kept.value, forward);
      if predictions.None? {
        return Err(InferenceFailed);
      }
      var yPred := ArgMaxRows(predictions.value);
      if yPred.Err? {
        return Err(yPred.error);
      }
      var accuracy := AccuracyOf(yPred.value, yTrue.value);
      if accuracy.Err? {
        return Err(accuracy.error);
      }
      if |yPred.value| != |yTrue.value| {
        return Err(InconsistentLengths);
      }
      r := Ok(Some(BatchReport(accuracy.value, predictions.value, yTrue.value, yPred.value)));
    }

    /**
     * `generate_performance_report(X_test, y_test)`: None when no network loads or when
     * `batch_test` answers None; its errors propagate; otherwise ReportOf its answer.
     */
    method GenerateReport(paths: seq<string>, labels: seq<string>, savedModel: Option<Network>,
                          savedEncoder: Option<seq<string>>,
                          imread: string -> Option<seq<seq<Utils.Bgr>>>, resize: seq<seq<Utils.Rgb>> -> Utils.Frame,
                          forward: (Network, Utils.Scaled) -> Option<seq<real>>)
      returns (r: Result<Option<PerformanceReport>, Error>)
      modifies this
      ensures old(model).Some? ==> unchanged(this)
      ensures old(model).None? && !(savedModel.Some? && savedEncoder.Some?) ==> r == Ok(None)
      ensures old(model).None? ==>
        && model == (if savedModel.Some? then savedModel else old(model))
        && labelEncoder == (if savedModel.Some? && savedEncoder.Some? then savedEncoder else old(labelEncoder))
        && classNames == (if savedModel.Some? && savedEncoder.Some? then savedEncoder.value else old(classNames))
      ensures old(model).Some? || (savedModel.Some? && savedEncoder.Some?) ==>
        model.Some? && r == ReportOf(BatchTestResult(model.value, labelEncoder, paths, labels, imread, resize, forward),
                                     classNames, paths)
    {
      if model.None? {
        var loaded := LoadModel(savedModel, savedEncoder);
        if !loaded {
          return Ok(None);
        }
      }
      var batch := BatchTest(paths, labels, savedModel, savedEncoder, imread, resize, forward);
      if batch.Err? {
        return Err(batch.error);
      }
      if batch.value.None? {
        return Ok(None);
      }
      r := Ok(Some(PerformanceReport(batch.value.value.accuracy, classNames, |paths|)));
    }
  }
}
