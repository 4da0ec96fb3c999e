/**
 * What every classifier front end does with a network's output vector: numpy's `argmax` and
 * `max`, sklearn's LabelEncoder mapping between class index and class name, and the shaping
 * of the result dictionary. ecg_app/utils.py and ecg_app/test_model.py repeat this logic
 * verbatim, so it is defined once here; ecg_app/ml_model.py's variant is in MlModel.
 */
module Outputs {
  import opened Wrappers

  /** The exceptions the core raises or catches, one constructor per distinct cause. */
  datatype Error =
    | ModelNotLoaded                // ValueError: the model could not be loaded
    | ImageUnreadable(path: string) // ValueError: cv2.imread returned None
    | InvalidImage                  // cv2.cvtColor rejects an empty or ragged pixel array
    | InferenceFailed               // model.predict raised
    | EmptyOutput                   // np.argmax / np.max of an empty array raise ValueError
    | UnseenIndex(index: nat)       // LabelEncoder.inverse_transform of an index past classes_
    | UnseenLabel(name: string)     // LabelEncoder.transform of a name not in classes_
    | NoEncoder                     // the label encoder is still None (AttributeError)
    | ShapeMismatch                 // numpy cannot broadcast the two operands of ==
    | InconsistentLengths           // sklearn's report: labels and predictions differ in number

  /** A trained network, opaque here: inference and training are parameters of the model. */
  datatype Network = Network(id: nat)

  /** The result dictionary: `predicted_class`, `confidence`, `all_probabilities`. */
  datatype Prediction = Prediction(predictedClass: string, confidence: real, allProbabilities: map<string, real>)

  /** utils.py's `predict` and test_model.py add the key `predicted_class_idx`. */
  datatype IndexedPrediction = IndexedPrediction(prediction: Prediction, predictedClassIdx: nat)

  predicate Distinct(names: seq<string>) {
    forall i, j :: 0 <= i < j < |names| ==> names[i] != names[j]
  }

  function Names(s: seq<string>): set<string> {
    set n | n in s
  }

  /** `i` is the first index of a maximal entry of `p`. */
  predicate IsFirstMax(p: seq<real>, i: nat) {
    i < |p| && (forall j :: 0 <= j < |p| ==> p[j] <= p[i]) && (forall j :: 0 <= j < i ==> p[j] < p[i])
  }

  /**
   * A result is consistent when the confidence is the predicted class's own entry and no
   * entry is larger; the results `predict` builds, fallback included, all are.
   */
  predicate Consistent(r: Prediction) {
    && r.predictedClass in r.allProbabilities
    && r.allProbabilities[r.predictedClass] == r.confidence
    && forall k :: k in r.allProbabilities ==> r.allProbabilities[k] <= r.confidence
  }

  /** `np.argmax`: ties go to the lowest index. */
  function ArgMax(p: seq<real>): (i: nat)
    requires |p| > 0
    ensures IsFirstMax(p, i)
  {
    if |p| == 1 then 0
    else
      var k := ArgMax(p[..|p| - 1]);
      if p[|p| - 1] > p[k] then |p| - 1 else k
  }

  /** The first maximal index is unique, so ArgMax is the only index with that property. */
  lemma ArgMaxUnique(p: seq<real>, i: nat)
    requires |p| > 0 && IsFirstMax(p, i)
    ensures i == ArgMax(p)
  {
  }

  /** `np.max`, defined on its own, independently of ArgMax. */
  function Max(p: seq<real>): real
    requires |p| > 0
  {
    if |p| == 1 then p[0]
    else
      var m := Max(p[..|p| - 1]);
      if p[|p| - 1] > m then p[|p| - 1] else m
  }

  /** `np.max(p) == p[np.argmax(p)]`: the two ways the sources compute a confidence agree. */
  lemma {:induction false} MaxIsAtArgMax(p: seq<real>)
    requires |p| > 0
    ensures Max(p) == p[ArgMax(p)]
  {
    if |p| > 1 {
      MaxIsAtArgMax(p[..|p| - 1]);
    }
  }

  /** `label_encoder.inverse_transform([idx])[0]`. */
  function Decode(classes: seq<string>, idx: nat): Result<string, Error> {
    if idx < |classes| then Ok(classes[idx]) else Err(UnseenIndex(idx))
  }

  /** `label_encoder.transform([name])[0]`: the position of `name` in `classes_`. */
  function Encode(classes: seq<string>, name: string): (r: Result<nat, Error>)
    ensures r.Ok? ==> r.value < |classes| && classes[r.value] == name
    ensures r.Err? ==> name !in classes && r.error == UnseenLabel(name)
  {
    if classes == [] then Err(UnseenLabel(name))
    else if classes[0] == name then Ok(0)
    else
      match Encode(classes[1..], name)
      case Ok(i) => Ok(i + 1)
      case Err(e) => Err(e)
  }

  /** Round trip from names: every known name decodes back from its code. */
  lemma DecodeEncode(classes: seq<string>, name: string)
    requires name in classes
    ensures Encode(classes, name).Ok?
    ensures Decode(classes, Encode(classes, name).value) == Ok(name)
  {
  }

  /** Round trip from codes: with distinct class names every index is the code of its name. */
  lemma EncodeDecode(classes: seq<string>, idx: nat)
    requires Distinct(classes) && idx < |classes|
    ensures Decode(classes, idx).Ok?
    ensures Encode(classes, Decode(classes, idx).value) == Ok(idx)
  {
  }

  /**
   * The `all_probs` dictionary: every index of the output vector, in order, is decoded to a
   * class name that is mapped to that index's probability. Decoding the first index past
   * `classes_` raises.
   */
  function ProbabilitiesByName(classes: seq<string>, p: seq<real>): (r: Result<map<string, real>, Error>)
    ensures r.Ok? <==> |p| <= |classes|
    ensures r.Err? ==> r.error == UnseenIndex(|classes|)
    ensures r.Ok? ==> |p| <= |classes| && r.value.Keys == Names(classes[..|p|])
  {
    if |p| == 0 then Ok(map[])
    else
      var n := |p| - 1;
      match ProbabilitiesByName(classes, p[..n])
      case Err(e) => Err(e)
      case Ok(m) =>
        if n < |classes| then
          assert classes[..n + 1] == classes[..n] + [classes[n]];
          Ok(m[classes[n] := p[n]])
        else Err(UnseenIndex(n))
  }

  /** With distinct class names, every index's name is mapped to that index's probability. */
  lemma {:induction false} ProbabilitiesByNameValues(classes: seq<string>, p: seq<real>)
    requires ProbabilitiesByName(classes, p).Ok? && Distinct(classes)
    ensures forall i :: 0 <= i < |p| ==> ProbabilitiesByName(classes, p).value[classes[i]] == p[i]
  {
    if |p| > 0 {
      var n := |p| - 1;
      ProbabilitiesByNameStep(classes, p);
      ProbabilitiesByNameValues(classes, p[..n]);
      var before := ProbabilitiesByName(classes, p[..n]).value;
      var m := ProbabilitiesByName(classes, p).value;
      assert m == before[classes[n] := p[n]];
      forall i | 0 <= i < |p|
        ensures m[classes[i]] == p[i]
      {
        if i < n {
          assert classes[i] != classes[n];
          assert before[classes[i]] == p[..n][i] == p[i];
        }
      }
    }
  }

  /** A map for the whole output extends the map for all but its last index. */
  lemma ProbabilitiesByNameStep(classes: seq<string>, p: seq<real>)
    requires |p| > 0 && ProbabilitiesByName(classes, p).Ok?
    ensures var n := |p| - 1;
      && n < |classes|
      && ProbabilitiesByName(classes, p[..n]).Ok?
      && ProbabilitiesByName(classes, p).value == ProbabilitiesByName(classes, p[..n]).value[classes[n] := p[n]]
  {
  }

  /** The loop of utils.py and test_model.py that fills `all_probs`. */
  method FillProbabilities(classes: seq<string>, p: seq<real>) returns (r: Result<map<string, real>, Error>)
    ensures r == ProbabilitiesByName(classes, p)
  {
    var allProbs: map<string, real> := map[];
    var idx := 0;
    while idx < |p|
      invariant idx <= |p| && idx <= |classes|
      invariant ProbabilitiesByName(classes, p[..idx]) == Ok(allProbs)
    {
      if idx >= |classes| {
        return Err(UnseenIndex(idx));
      }
      assert p[..idx + 1][..idx] == p[..idx];
      allProbs := allProbs[classes[idx] := p[idx]];
      idx := idx + 1;
    }
    assert p[..idx] == p;
    return Ok(allProbs);
  }

  /**
   * One output vector shaped as test_model.py and utils.py's `batch_predict` do: the argmax
   * index, the entry there as confidence, the decoded class name, and `all_probs`.
   */
  function Shape(classes: seq<string>, p: seq<real>): Result<IndexedPrediction, Error> {
    if |p| == 0 then Err(EmptyOutput)
    else
      var idx := ArgMax(p);
      match Decode(classes, idx)
      case Err(e) => Err(e)
      case Ok(name) =>
        match ProbabilitiesByName(classes, p)
        case Err(e) => Err(e)
        case Ok(m) => Ok(IndexedPrediction(Prediction(name, p[idx], m), idx))
  }

  /** utils.py's `predict` takes the confidence from `np.max` instead of the argmax entry. */
  function ShapeByMax(classes: seq<string>, p: seq<real>): Result<IndexedPrediction, Error> {
    if |p| == 0 then Err(EmptyOutput)
    else
      var idx := ArgMax(p);
      match Decode(classes, idx)
      case Err(e) => Err(e)
      case Ok(name) =>
        match ProbabilitiesByName(classes, p)
        case Err(e) => Err(e)
        case Ok(m) => Ok(IndexedPrediction(Prediction(name, Max(p), m), idx))
  }

  /** Both shapings give the same result on every output vector. */
  lemma ShapeByMaxAgrees(classes: seq<string>, p: seq<real>)
    ensures ShapeByMax(classes, p) == Shape(classes, p)
  {
    if |p| > 0 {
      MaxIsAtArgMax(p);
    }
  }

  /** Shaping fails exactly on an empty output or one longer than the class list, whatever the names. */
  lemma ShapeOkIff(classes: seq<string>, p: seq<real>)
    ensures Shape(classes, p).Ok? <==> 0 < |p| <= |classes|
  {
    if 0 < |p| {
      assert ArgMax(p) < |p|;
    }
  }

  /**
   * What a shaped result promises: it fails exactly on an empty output or one longer than
   * `classes_`; otherwise the class is the name at the first maximal index, the confidence is
   * that entry, every entry's name is a key mapped to its own probability, and the result is
   * Consistent.
   */
  lemma ShapeSpec(classes: seq<string>, p: seq<real>)
    requires Distinct(classes)
    ensures Shape(classes, p).Ok? <==> 0 < |p| <= |classes|
    ensures |p| == 0 ==> Shape(classes, p) == Err(EmptyOutput)
    ensures Shape(classes, p).Ok? ==>
      var r := Shape(classes, p).value;
      && IsFirstMax(p, r.predictedClassIdx)
      && r.prediction.predictedClass == classes[r.predictedClassIdx]
      && r.prediction.confidence == p[r.predictedClassIdx]
      && r.prediction.allProbabilities.Keys == Names(classes[..|p|])
      && (forall i :: 0 <= i < |p| ==> r.prediction.allProbabilities[classes[i]] == p[i])
      && Consistent(r.prediction)
  {
    if 0 < |p| <= |classes| {
      ProbabilitiesByNameValues(classes, p);
      var r := Shape(classes, p).value;
      var m := r.prediction.allProbabilities;
      var idx := r.predictedClassIdx;
      forall k | k in m
        ensures m[k] <= r.prediction.confidence
      {
        assert k in classes[..|p|];
        var i :| 0 <= i < |p| && classes[i] == k;
        assert m[classes[i]] == p[i];
      }
      assert classes[idx] in classes[..|p|];
    }
  }
}
