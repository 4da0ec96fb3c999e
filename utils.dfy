/**
 * ecg_app/utils.py: ECGClassifier. Unlike MlModel it raises instead of falling back. Reading
 * an image file (cv2.imread), resizing (cv2.resize), loading the saved network and label
 * encoder, and the network's forward pass are parameters; the colour conversion and the
 * scaling to [0, 1] are modelled.
 */
module Utils {
  import opened Wrappers
  import opened Outputs

  /** The side of the square image the network takes. */
  const Side: nat := 224

  type Byte = x: int | 0 <= x < 256

  /** A pixel as OpenCV decodes a file: blue, green, red. */
  datatype Bgr = Bgr(b: Byte, g: Byte, r: Byte)

  datatype Rgb = Rgb(r: Byte, g: Byte, b: Byte)

  predicate IsFrame(f: seq<seq<Rgb>>) {
    |f| == Side && forall row :: row in f ==> |row| == Side
  }

  /** A resized image: `Side` rows of `Side` RGB pixels. */
  type Frame = f: seq<seq<Rgb>> | IsFrame(f)
    witness seq(Side, _ => seq(Side, _ => Rgb(0, 0, 0)))

  /** An image array: one row after another, every row the same non-zero length. */
  predicate Rectangular(img: seq<seq<Bgr>>) {
    |img| > 0 && |img[0]| > 0 && forall row :: row in img ==> |row| == |img[0]|
  }

  /** `preprocess_image` accepts a path or an already decoded array. */
  datatype ImageSource = FilePath(path: string) | PixelArray(pixels: seq<seq<Bgr>>)

  /** An image scaled to [0, 1]: rows, columns, channels. */
  type Scaled = seq<seq<seq<real>>>

  /** `cv2.cvtColor(img, cv2.COLOR_BGR2RGB)`: the same pixels with blue and red swapped. */
  function ToRgb(img: seq<seq<Bgr>>): seq<seq<Rgb>> {
    seq(|img|, i requires 0 <= i < |img| =>
      seq(|img[i]|, j requires 0 <= j < |img[i]| => Rgb(img[i][j].r, img[i][j].g, img[i][j].b)))
  }

  function Channels(p: Rgb): seq<real> {
    [p.r as real / 255.0, p.g as real / 255.0, p.b as real / 255.0]
  }

  /** `img / 255.0` on a resized frame. */
  function Normalize(f: Frame): Scaled {
    seq(Side, i requires 0 <= i < Side => seq(Side, j requires 0 <= j < Side => Channels(f[i][j])))
  }

  /** The pixel array `preprocess_image` works on: read from the path, or given. */
  function ReadImage(image: ImageSource, imread: string -> Option<seq<seq<Bgr>>>): Result<seq<seq<Bgr>>, Error> {
    match image
    case FilePath(path) => if imread(path).None? then Err(ImageUnreadable(path)) else Ok(imread(path).value)
    case PixelArray(pixels) => Ok(pixels)
  }

  /** Converted to RGB, resized and scaled. */
  function Convert(img: seq<seq<Bgr>>, resize: seq<seq<Rgb>> -> Frame): Scaled {
    Normalize(resize(ToRgb(img)))
  }

  /** `preprocess_image(image)`: a batch holding the one converted, resized and scaled image. */
  function PrepareImage(image: ImageSource, imread: string -> Option<seq<seq<Bgr>>>,
                        resize: seq<seq<Rgb>> -> Frame): (r: Result<seq<Scaled>, Error>)
    ensures r.Ok? ==> |r.value| == 1
  {
    match ReadImage(image, imread)
    case Err(e) => Err(e)
    case Ok(img) => if !Rectangular(img) then Err(InvalidImage) else Ok([Convert(img, resize)])
  }

  /**
   * A path that cannot be read raises; otherwise the result is a batch of exactly one
   * 224 x 224 x 3 image whose every value is the matching byte of the resized RGB frame
   * divided by 255, so lies in [0, 1].
   */
  lemma PrepareImageSpec(image: ImageSource, imread: string -> Option<seq<seq<Bgr>>>,
                         resize: seq<seq<Rgb>> -> Frame)
    ensures image.FilePath? && imread(image.path).None? ==>
      PrepareImage(image, imread, resize) == Err(ImageUnreadable(image.path))
    ensures PrepareImage(image, imread, resize).Ok? ==>
      var t := PrepareImage(image, imread, resize).value;
      var img := if image.FilePath? then imread(image.path).value else image.pixels;
      var f := resize(ToRgb(img));
      && |t| == 1 && |t[0]| == Side
      && (forall i :: 0 <= i < Side ==> |t[0][i]| == Side)
      && (forall i, j :: 0 <= i < Side && 0 <= j < Side ==> |t[0][i][j]| == 3)
      && (forall i, j :: 0 <= i < Side && 0 <= j < Side ==>
            t[0][i][j][0] == f[i][j].r as real / 255.0
            && t[0][i][j][1] == f[i][j].g as real / 255.0
            && t[0][i][j][2] == f[i][j].b as real / 255.0)
      && (forall i, j, c :: 0 <= i < Side && 0 <= j < Side && 0 <= c < 3 ==> 0.0 <= t[0][i][j][c] <= 1.0)
  {
    if PrepareImage(image, imread, resize).Ok? {
      var t := PrepareImage(image, imread, resize).value;
      var img := if image.FilePath? then imread(image.path).value else image.pixels;
      var f := resize(ToRgb(img));
      assert t == [Normalize(f)];
      forall i, j, c | 0 <= i < Side && 0 <= j < Side && 0 <= c < 3
        ensures 0.0 <= t[0][i][j][c] <= 1.0
      {
        assert f[i] in f;
        assert t[0][i][j] == Channels(f[i][j]);
        ChannelsInUnit(f[i][j]);
      }
    }
  }

  /** A byte divided by 255 lies in [0, 1]. */
  lemma ChannelsInUnit(p: Rgb)
    ensures forall c :: 0 <= c < 3 ==> 0.0 <= Channels(p)[c] <= 1.0
  {
    var ch := Channels(p);
    assert 0.0 <= ch[0] <= 1.0 && 0.0 <= ch[1] <= 1.0 && 0.0 <= ch[2] <= 1.0;
  }

  /** After a network is in memory: prepare the image, run the network, shape its output. */
  function Classify(net: Network, classes: seq<string>, image: ImageSource,
                    imread: string -> Option<seq<seq<Bgr>>>, resize: seq<seq<Rgb>> -> Frame,
                    forward: (Network, Scaled) -> Option<seq<real>>): Result<IndexedPrediction, Error>
  {
    match PrepareImage(image, imread, resize)
    case Err(e) => Err(e)
    case Ok(t) =>
      match forward(net, t[0])
      case None => Err(InferenceFailed)
      case Some(p) => ShapeByMax(classes, p)
  }

  /** `preprocess_image(image)[0]`: one image without its batch dimension. */
  function PrepareOne(image: ImageSource, imread: string -> Option<seq<seq<Bgr>>>,
                      resize: seq<seq<Rgb>> -> Frame): Result<Scaled, Error>
  {
    match PrepareImage(image, imread, resize)
    case Err(e) => Err(e)
    case Ok(t) => Ok(t[0])
  }

  /** Each image of the list prepared on its own. */
  function PrepareEach(images: seq<ImageSource>, imread: string -> Option<seq<seq<Bgr>>>,
                       resize: seq<seq<Rgb>> -> Frame): (rs: seq<Result<Scaled, Error>>)
    ensures |rs| == |images|
    ensures forall k :: 0 <= k < |images| ==> rs[k] == PrepareOne(images[k], imread, resize)
  {
    seq(|images|, i requires 0 <= i < |images| => PrepareOne(images[i], imread, resize))
  }

  /** The values of `rs` in order, or the first error among them. */
  function Collect<T, E>(rs: seq<Result<T, E>>): (r: Result<seq<T>, E>)
    ensures r.Ok? ==> |r.value| == |rs|
  {
    if rs == [] then Ok([])
    else
      var n := |rs| - 1;
      match Collect(rs[..n])
      case Err(e) => Err(e)
      case Ok(vs) => if rs[n].Err? then Err(rs[n].error) else Ok(vs + [rs[n].value])
  }

  /** Collecting succeeds only when every result is a value, and then gives those values. */
  lemma {:induction false} CollectElements<T, E>(rs: seq<Result<T, E>>)
    requires Collect(rs).Ok?
    ensures forall k :: 0 <= k < |rs| ==> rs[k] == Ok(Collect(rs).value[k])
  {
    if rs != [] {
      var n := |rs| - 1;
      CollectElements(rs[..n]);
      forall k | 0 <= k < |rs|
        ensures rs[k] == Ok(Collect(rs).value[k])
      {
        if k < n {
          assert rs[..n][k] == rs[k];
        }
      }
    }
  }

  /** The first error stops collecting: whatever follows it, the result is that error. */
  /** Collecting one more value extends the values collected so far. */
  lemma CollectExtends<T, E>(rs: seq<Result<T, E>>, k: nat, vs: seq<T>)
    requires k < |rs| && rs[k].Ok?
    requires Collect(rs[..k]) == Ok(vs)
    ensures Collect(rs[..k + 1]) == Ok(vs + [rs[k].value])
  {
    assert rs[..k + 1][..k] == rs[..k];
  }

  lemma {:induction false} CollectStops<T, E>(rs: seq<Result<T, E>>, k: nat)
    requires k < |rs|
    requires Collect(rs[..k]).Ok?
    requires rs[k].Err?
    ensures Collect(rs) == Err(rs[k].error)
    decreases |rs|
  {
    var n := |rs| - 1;
    if k < n {
      assert rs[..n][..k] == rs[..k];
      assert rs[..n][k] == rs[k];
      CollectStops(rs[..n], k);
    } else {
      assert rs[..n] == rs[..k];
    }
  }

  /** Results that are all values collect. */
  lemma {:induction false} CollectAllOk<T, E>(rs: seq<Result<T, E>>)
    requires forall k :: 0 <= k < |rs| ==> rs[k].Ok?
    ensures Collect(rs).Ok?
  {
    if rs != [] {
      var n := |rs| - 1;
      assert forall k :: 0 <= k < n ==> rs[..n][k] == rs[k];
      CollectAllOk(rs[..n]);
    }
  }

  /** The preprocessing loop of `batch_predict`: the first image that fails raises. */
  function PrepareAll(images: seq<ImageSource>, imread: string -> Option<seq<seq<Bgr>>>,
                      resize: seq<seq<Rgb>> -> Frame): (r: Result<seq<Scaled>, Error>)
    ensures r.Ok? ==> |r.value| == |images|
  {
    Collect(PrepareEach(images, imread, resize))
  }

  /** Each prepared image is the one `preprocess_image` gives for that image alone. */
  lemma PrepareAllElements(images: seq<ImageSource>, imread: string -> Option<seq<seq<Bgr>>>,
                           resize: seq<seq<Rgb>> -> Frame)
    requires PrepareAll(images, imread, resize).Ok?
    ensures forall k :: 0 <= k < |images| ==>
      PrepareImage(images[k], imread, resize) == Ok([PrepareAll(images, imread, resize).value[k]])
  {
    var rs := PrepareEach(images, imread, resize);
    CollectElements(rs);
    forall k | 0 <= k < |images|
      ensures PrepareImage(images[k], imread, resize) == Ok([PrepareAll(images, imread, resize).value[k]])
    {
      assert rs[k] == PrepareOne(images[k], imread, resize);
      var t := PrepareImage(images[k], imread, resize);
      assert t.Ok? ==> t.value == [t.value[0]];
    }
  }

  /** A list whose every image prepares prepares. */
  lemma PrepareAllOk(images: seq<ImageSource>, imread: string -> Option<seq<seq<Bgr>>>,
                     resize: seq<seq<Rgb>> -> Frame)
    requires forall k :: 0 <= k < |images| ==> PrepareImage(images[k], imread, resize).Ok?
    ensures PrepareAll(images, imread, resize).Ok?
  {
    var rs := PrepareEach(images, imread, resize);
    forall k | 0 <= k < |rs|
      ensures rs[k].Ok?
    {
      assert rs[k] == PrepareOne(images[k], imread, resize);
    }
    CollectAllOk(rs);
  }

  /** Preparing a prefix of the list prepares the prefix of the images one by one. */
  lemma PrepareEachPrefix(images: seq<ImageSource>, k: nat, imread: string -> Option<seq<seq<Bgr>>>,
                          resize: seq<seq<Rgb>> -> Frame)
    requires k <= |images|
    ensures PrepareEach(images[..k], imread, resize) == PrepareEach(images, imread, resize)[..k]
  {
    var p := PrepareEach(images[..k], imread, resize);
    var q := PrepareEach(images, imread, resize)[..k];
    forall i | 0 <= i < k
      ensures p[i] == q[i]
    {
      assert images[..k][i] == images[i];
    }
  }


  /** `model.predict(X)` on a stacked batch: one output row per image, each as a single pass gives it. */
  function ForwardAll(net: Network, frames: seq<Scaled>,
                      forward: (Network, Scaled) -> Option<seq<real>>): (r: Option<seq<seq<real>>>)
    ensures r.Some? ==> (|r.value| == |frames|
      && forall k :: 0 <= k < |frames| ==> forward(net, frames[k]) == Some(r.value[k]))
  {
    if frames == [] then Some([])
    else
      var n := |frames| - 1;
      match ForwardAll(net, frames[..n], forward)
      case None => None
      case Some(rows) =>
        match forward(net, frames[n])
        case None => None
        case Some(row) => Some(rows + [row])
  }

  /** When every single pass answers, the batch pass answers. */
  lemma {:induction false} ForwardAllSome(net: Network, frames: seq<Scaled>,
                                          forward: (Network, Scaled) -> Option<seq<real>>)
    requires forall k :: 0 <= k < |frames| ==> forward(net, frames[k]).Some?
    ensures ForwardAll(net, frames, forward).Some?
  {
    if frames != [] {
      var n := |frames| - 1;
      assert forall k :: 0 <= k < n ==> frames[..n][k] == frames[k];
      ForwardAllSome(net, frames[..n], forward);
    }
  }

  /** The result loop of `batch_predict`: each row shaped, in order; the first failure raises. */
  function ShapeAll(classes: seq<string>, rows: seq<seq<real>>): (r: Result<seq<Prediction>, Error>)
    ensures r.Ok? ==> (|r.value| == |rows|
      && forall k :: 0 <= k < |rows| ==> Shape(classes, rows[k]).Ok? && Shape(classes, rows[k]).value.prediction == r.value[k])
  {
    if rows == [] then Ok([])
    else
      var n := |rows| - 1;
      match ShapeAll(classes, rows[..n])
      case Err(e) => Err(e)
      case Ok(ps) =>
        match Shape(classes, rows[n])
        case Err(e) => Err(e)
        case Ok(ip) =>
          assert forall k :: 0 <= k < n ==> rows[..n][k] == rows[k];
          Ok(ps + [ip.prediction])
  }

  /** Rows that all shape shape together. */
  lemma {:induction false} ShapeAllOk(classes: seq<string>, rows: seq<seq<real>>)
    requires forall k :: 0 <= k < |rows| ==> Shape(classes, rows[k]).Ok?
    ensures ShapeAll(classes, rows).Ok?
  {
    if rows != [] {
      var n := |rows| - 1;
      assert forall k :: 0 <= k < n ==> rows[..n][k] == rows[k];
      ShapeAllOk(classes, rows[..n]);
    }
  }

  /** What `batch_predict` returns once a network is in memory. */
  function BatchClassify(net: Network, classes: seq<string>, images: seq<ImageSource>,
                         imread: string -> Option<seq<seq<Bgr>>>, resize: seq<seq<Rgb>> -> Frame,
                         forward: (Network, Scaled) -> Option<seq<real>>): Result<seq<Prediction>, Error>
  {
    match PrepareAll(images, imread, resize)
    case Err(e) => Err(e)
    case Ok(frames) =>
      if frames == [] then Ok([])
      else
        match ForwardAll(net, frames, forward)
        case None => Err(InferenceFailed)
        case Some(rows) => ShapeAll(classes, rows)
  }

  /**
   * `batch_predict` returns one result per image, in input order, and each is what `predict`
   * returns for that image alone without its `predicted_class_idx`; an empty input gives an
   * empty list.
   */
  lemma BatchClassifySpec(net: Network, classes: seq<string>, images: seq<ImageSource>,
                          imread: string -> Option<seq<seq<Bgr>>>, resize: seq<seq<Rgb>> -> Frame,
                          forward: (Network, Scaled) -> Option<seq<real>>)
    ensures images == [] ==> BatchClassify(net, classes, images, imread, resize, forward) == Ok([])
    ensures BatchClassify(net, classes, images, imread, resize, forward).Ok? ==>
      var rs := BatchClassify(net, classes, images, imread, resize, forward).value;
      && |rs| == |images|
      && forall k :: 0 <= k < |images| ==>
           Classify(net, classes, images[k], imread, resize, forward).Ok?
           && Classify(net, classes, images[k], imread, resize, forward).value.prediction == rs[k]
    ensures BatchClassify(net, classes, images, imread, resize, forward).Ok? <==>
      forall k :: 0 <= k < |images| ==> Classify(net, classes, images[k], imread, resize, forward).Ok?
  {
    if forall k :: 0 <= k < |images| ==> Classify(net, classes, images[k], imread, resize, forward).Ok? {
      BatchClassifyAllOk(net, classes, images, imread, resize, forward);
    }
    var prepared := PrepareAll(images, imread, resize);
    if prepared.Ok? && prepared.value != [] {
      var frames := prepared.value;
      var out := ForwardAll(net, frames, forward);
      if out.Some? && ShapeAll(classes, out.value).Ok? {
        PrepareAllElements(images, imread, resize);
        var rs := ShapeAll(classes, out.value).value;
        forall k | 0 <= k < |images|
          ensures Classify(net, classes, images[k], imread, resize, forward).Ok?
          ensures Classify(net, classes, images[k], imread, resize, forward).value.prediction == rs[k]
        {
          assert PrepareImage(images[k], imread, resize) == Ok([frames[k]]);
          assert forward(net, frames[k]) == Some(out.value[k]);
          ShapeByMaxAgrees(classes, out.value[k]);
          assert Shape(classes, out.value[k]).Ok? && Shape(classes, out.value[k]).value.prediction == rs[k];
        }
      }
    }
  }

  /** When every image classifies on its own, the batch does. */
  lemma BatchClassifyAllOk(net: Network, classes: seq<string>, images: seq<ImageSource>,
                           imread: string -> Option<seq<seq<Bgr>>>, resize: seq<seq<Rgb>> -> Frame,
                           forward: (Network, Scaled) -> Option<seq<real>>)
    requires forall k :: 0 <= k < |images| ==> Classify(net, classes, images[k], imread, resize, forward).Ok?
    ensures BatchClassify(net, classes, images, imread, resize, forward).Ok?
  {
    PrepareAllOk(images, imread, resize);
    PrepareAllElements(images, imread, resize);
    var frames := PrepareAll(images, imread, resize).value;
    if frames != [] {
      forall k | 0 <= k < |frames|
        ensures forward(net, frames[k]).Some?
      {
        assert PrepareImage(images[k], imread, resize) == Ok([frames[k]]);
      }
      ForwardAllSome(net, frames, forward);
      var rows := ForwardAll(net, frames, forward).value;
      forall k | 0 <= k < |rows|
        ensures Shape(classes, rows[k]).Ok?
      {
        assert PrepareImage(images[k], imread, resize) == Ok([frames[k]]);
        assert forward(net, frames[k]) == Some(rows[k]);
        ShapeByMaxAgrees(classes, rows[k]);
      }
      ShapeAllOk(classes, rows);
    }
  }

  /** The first image that fails to preprocess decides the batch's error. */
  lemma BatchClassifyPrepareError(net: Network, classes: seq<string>, images: seq<ImageSource>,
                                  imread: string -> Option<seq<seq<Bgr>>>, resize: seq<seq<Rgb>> -> Frame,
                                  forward: (Network, Scaled) -> Option<seq<real>>, k: nat)
    requires k < |images| && PrepareImage(images[k], imread, resize).Err?
    requires forall i :: 0 <= i < k ==> PrepareImage(images[i], imread, resize).Ok?
    ensures BatchClassify(net, classes, images, imread, resize, forward) == Err(PrepareImage(images[k], imread, resize).error)
  {
    assert forall i :: 0 <= i < k ==> images[..k][i] == images[i];
    PrepareAllOk(images[..k], imread, resize);
    PrepareAllStops(images, k, imread, resize);
  }

  /** Once every image is preprocessed, a forward pass that fails for any image fails the batch. */
  lemma BatchClassifyInferenceError(net: Network, classes: seq<string>, images: seq<ImageSource>,
                                    imread: string -> Option<seq<seq<Bgr>>>, resize: seq<seq<Rgb>> -> Frame,
                                    forward: (Network, Scaled) -> Option<seq<real>>, k: nat)
    requires forall i :: 0 <= i < |images| ==> PrepareImage(images[i], imread, resize).Ok?
    requires k < |images| && forward(net, PrepareImage(images[k], imread, resize).value[0]).None?
    ensures BatchClassify(net, classes, images, imread, resize, forward) == Err(InferenceFailed)
  {
    PrepareAllOk(images, imread, resize);
    PrepareAllElements(images, imread, resize);
    var frames := PrepareAll(images, imread, resize).value;
    assert PrepareImage(images[k], imread, resize) == Ok([frames[k]]);
    assert forward(net, frames[k]).None?;
  }

  /**
   * Once every image is preprocessed and run through the network, the first image whose
   * output cannot be shaped decides the batch's error, the one it raises on its own.
   */
  lemma BatchClassifyShapeError(net: Network, classes: seq<string>, images: seq<ImageSource>,
                                imread: string -> Option<seq<seq<Bgr>>>, resize: seq<seq<Rgb>> -> Frame,
                                forward: (Network, Scaled) -> Option<seq<real>>, k: nat)
    requires forall i :: 0 <= i < |images| ==> PrepareImage(images[i], imread, resize).Ok?
    requires forall i :: 0 <= i < |images| ==> forward(net, PrepareImage(images[i], imread, resize).value[0]).Some?
    requires k < |images| && Classify(net, classes, images[k], imread, resize, forward).Err?
    requires forall i :: 0 <= i < k ==> Classify(net, classes, images[i], imread, resize, forward).Ok?
    ensures BatchClassify(net, classes, images, imread, resize, forward)
            == Err(Classify(net, classes, images[k], imread, resize, forward).error)
  {
    PrepareAllOk(images, imread, resize);
    PrepareAllElements(images, imread, resize);
    var frames := PrepareAll(images, imread, resize).value;
    forall i | 0 <= i < |frames|
      ensures forward(net, frames[i]).Some?
    {
      assert PrepareImage(images[i], imread, resize) == Ok([frames[i]]);
    }
    ForwardAllSome(net, frames, forward);
    var rows := ForwardAll(net, frames, forward).value;
    forall i | 0 <= i <= k
      ensures Classify(net, classes, images[i], imread, resize, forward).Ok? <==> Shape(classes, rows[i]).Ok?
      ensures Classify(net, classes, images[i], imread, resize, forward).Err? ==>
        Classify(net, classes, images[i], imread, resize, forward).error == Shape(classes, rows[i]).error
    {
      assert PrepareImage(images[i], imread, resize) == Ok([frames[i]]);
      ClassifyByRow(net, classes, images[i], imread, resize, forward, rows[i]);
    }
    ShapeAllFirstError(classes, rows, k);
  }

  /** The first row that cannot be shaped decides the error of shaping them all. */
  lemma ShapeAllFirstError(classes: seq<string>, rows: seq<seq<real>>, k: nat)
    requires k < |rows| && Shape(classes, rows[k]).Err?
    requires forall i :: 0 <= i < k ==> Shape(classes, rows[i]).Ok?
    ensures ShapeAll(classes, rows) == Err(Shape(classes, rows[k]).error)
  {
    assert forall i :: 0 <= i < k ==> rows[..k][i] == rows[i];
    ShapeAllOk(classes, rows[..k]);
    ShapeAllStops(classes, rows, k);
  }

  /** Once an image's output row is known, classifying it is shaping that row. */
  lemma ClassifyByRow(net: Network, classes: seq<string>, image: ImageSource,
                      imread: string -> Option<seq<seq<Bgr>>>, resize: seq<seq<Rgb>> -> Frame,
                      forward: (Network, Scaled) -> Option<seq<real>>, row: seq<real>)
    requires PrepareImage(image, imread, resize).Ok?
    requires forward(net, PrepareImage(image, imread, resize).value[0]) == Some(row)
    ensures Classify(net, classes, image, imread, resize, forward).Ok? <==> Shape(classes, row).Ok?
    ensures Classify(net, classes, image, imread, resize, forward).Err? ==>
      Classify(net, classes, image, imread, resize, forward).error == Shape(classes, row).error
  {
    ShapeByMaxAgrees(classes, row);
  }

  /** Batching one image gives the single prediction, or raises what the single call raises. */
  lemma BatchOfOne(net: Network, classes: seq<string>, image: ImageSource,
                   imread: string -> Option<seq<seq<Bgr>>>, resize: seq<seq<Rgb>> -> Frame,
                   forward: (Network, Scaled) -> Option<seq<real>>)
    ensures var single := Classify(net, classes, image, imread, resize, forward);
      BatchClassify(net, classes, [image], imread, resize, forward)
        == if single.Ok? then Ok([single.value.prediction]) else Err(single.error)
  {
    var images := [image];
    assert images[..0] == [];
    assert PrepareAll(images[..0], imread, resize) == Ok([]);
    assert images[0] == image;
    var prepared := PrepareImage(image, imread, resize);
    if prepared.Ok? {
      var frames := [prepared.value[0]];
      assert images != [] && |images| - 1 == 0;
      assert PrepareImage(images[0], imread, resize) == prepared;
      assert [] + frames == frames;
      assert PrepareAll(images, imread, resize) == Ok(frames);
      assert frames[..0] == [];
      assert ForwardAll(net, frames[..0], forward) == Some([]);
      var row := forward(net, prepared.value[0]);
      if row.Some? {
        assert frames != [] && |frames| - 1 == 0 && frames[0] == prepared.value[0];
        assert [] + [row.value] == [row.value];
        assert ForwardAll(net, frames, forward) == Some([row.value]);
        var rows := [row.value];
        assert rows[..0] == [];
        assert ShapeAll(classes, rows[..0]) == Ok([]);
        ShapeByMaxAgrees(classes, row.value);
        assert rows != [] && |rows| - 1 == 0 && rows[0] == row.value;
        var shaped := Shape(classes, row.value);
        if shaped.Ok? {
          assert [] + [shaped.value.prediction] == [shaped.value.prediction];
          assert ShapeAll(classes, rows) == Ok([shaped.value.prediction]);
        } else {
          assert ShapeAll(classes, rows) == Err(shaped.error);
        }
      } else {
        assert frames != [] && |frames| - 1 == 0 && frames[0] == prepared.value[0];
        assert ForwardAll(net, frames, forward) == None;
      }
    }
  }

  class ECGClassifier {
    var model: Option<Network>
    /** The fitted label encoder's `classes_`. */
    var labelEncoder: Option<seq<string>>
    var classNames: seq<string>

    /** A network is only ever in memory together with the encoder loaded beside it. */
    ghost predicate Valid()
      reads this
    {
      model.Some? ==> labelEncoder == Some(classNames)
    }

    /** `__init__`: the fields start empty and `load_model()` runs once. */
    constructor (savedModel: Option<Network>, savedEncoder: Option<seq<string>>)
      ensures Valid()
      ensures if savedModel.Some? && savedEncoder.Some?
              then model == savedModel && labelEncoder == savedEncoder && classNames == savedEncoder.value
              else model == None && labelEncoder == None && classNames == []
    {
      model := None;
      labelEncoder := None;
      classNames := [];
      new;
      var _ := LoadModel(savedModel, savedEncoder);
    }

    /**
     * `load_model()`: loads the network, then the encoder; either failing leaves no network in
     * memory and returns False, with the encoder and class names as they were.
     */
    method LoadModel(savedModel: Option<Network>, savedEncoder: Option<seq<string>>) returns (ok: bool)
      requires Valid()
      modifies this
      ensures Valid()
      ensures ok == (savedModel.Some? && savedEncoder.Some?)
      ensures ok ==> model == savedModel && labelEncoder == savedEncoder && classNames == savedEncoder.value
      ensures !ok ==> model == None && labelEncoder == old(labelEncoder) && classNames == old(classNames)
    {
      if savedModel.None? {
        model := None;
        return false;
      }
      model := savedModel;
      if savedEncoder.None? {
        model := None;
        return false;
      }
      labelEncoder := savedEncoder;
      classNames := savedEncoder.value;
      return true;
    }

    /**
     * `predict(image)`: raises when no network is in memory and none loads; otherwise the
     * image is classified by the network in memory, or the one just loaded.
     */
    method Predict(image: ImageSource, savedModel: Option<Network>, savedEncoder: Option<seq<string>>,
                   imread: string -> Option<seq<seq<Bgr>>>, resize: seq<seq<Rgb>> -> Frame,
                   forward: (Network, Scaled) -> Option<seq<real>>) returns (r: Result<IndexedPrediction, Error>)
      requires Valid()
      modifies this
      ensures Valid()
      ensures old(model).Some? ==> unchanged(this)
      ensures old(model).None? && !(savedModel.Some? && savedEncoder.Some?) ==> r == Err(ModelNotLoaded)
      ensures model.Some? ==> r == Classify(model.value, classNames, image, imread, resize, forward)
      ensures old(model).None? ==>
        if savedModel.Some? && savedEncoder.Some?
        then model == savedModel && labelEncoder == savedEncoder && classNames == savedEncoder.value
        else model == None && labelEncoder == old(labelEncoder) && classNames == old(classNames)
    {
      if model.None? {
        var loaded := LoadModel(savedModel, savedEncoder);
        if !loaded {
          return Err(ModelNotLoaded);
        }
      }
      var prepared := PrepareImage(image, imread, resize);
      if prepared.Err? {
        return Err(prepared.error);
      }
      var predictions := forward(model.value, prepared.value[0]);
      if predictions.None? {
        return Err(InferenceFailed);
      }
      var p := predictions.value;
      if |p| == 0 {
        return Err(EmptyOutput);
      }
      var predictedClassIdx := ArgMax(p);
      var confidence := Max(p);
      var predictedClass := Decode(labelEncoder.value, predictedClassIdx);
      if predictedClass.Err? {
        return Err(predictedClass.error);
      }
      var allProbs := FillProbabilities(labelEncoder.value, p);
      if allProbs.Err? {
        return Err(allProbs.error);
      }
      r := Ok(IndexedPrediction(Prediction(predictedClass.value, confidence, allProbs.value), predictedClassIdx));
    }

    /**
     * `batch_predict(images)`: raises first when no network can be loaded, even for an empty
     * list; otherwise BatchClassify with the network in memory.
     */
    method BatchPredict(images: seq<ImageSource>, savedModel: Option<Network>, savedEncoder: Option<seq<string>>,
                        imread: string -> Option<seq<seq<Bgr>>>, resize: seq<seq<Rgb>> -> Frame,
                        forward: (Network, Scaled) -> Option<seq<real>>) returns (r: Result<seq<Prediction>, Error>)
      requires Valid()
      modifies this
      ensures Valid()
      ensures old(model).Some? ==> unchanged(this)
      ensures old(model).None? && !(savedModel.Some? && savedEncoder.Some?) ==> r == Err(ModelNotLoaded)
      ensures model.Some? ==> r == BatchClassify(model.value, classNames, images, imread, resize, forward)
      ensures old(model).None? ==>
        if savedModel.Some? && savedEncoder.Some?
        then model == savedModel && labelEncoder == savedEncoder && classNames == savedEncoder.value
        else model == None && labelEncoder == old(labelEncoder) && classNames == old(classNames)
    {
      if model.None? {
        var loaded := LoadModel(savedModel, savedEncoder);
        if !loaded {
          return Err(ModelNotLoaded);
        }
      }
      var prepared := PrepareBatch(images, imread, resize);
      if prepared.Err? {
        return Err(prepared.error);
      }
      if prepared.value == [] {
        return Ok([]);
      }
      var predictions := ForwardAll(model.value, prepared.value, forward);
      if predictions.None? {
        return Err(InferenceFailed);
      }
      r := ShapeBatch(labelEncoder.value, predictions.value);
    }
  }

  /** The loop of `batch_predict` that preprocesses each image in turn, stopping at the first failure. */
  method PrepareBatch(images: seq<ImageSource>, imread: string -> Option<seq<seq<Bgr>>>,
                      resize: seq<seq<Rgb>> -> Frame) returns (r: Result<seq<Scaled>, Error>)
    ensures r == PrepareAll(images, imread, resize)
  {
    ghost var rs := PrepareEach(images, imread, resize);
    var preprocessedImages: seq<Scaled> := [];
    var k := 0;
    while k < |images|
      invariant k <= |images|
      invariant Collect(rs[..k]) == Ok(preprocessedImages)
    {
      var prepared := PrepareImage(images[k], imread, resize);
      assert rs[k] == PrepareOne(images[k], imread, resize);
      if prepared.Err? {
        CollectStops(rs, k);
        return Err(prepared.error);
      }
      CollectExtends(rs, k, preprocessedImages);
      preprocessedImages := preprocessedImages + [prepared.value[0]];
      k := k + 1;
    }
    assert rs[..k] == rs;
    return Ok(preprocessedImages);
  }

  /** The loop of `batch_predict` that shapes each output row in turn, stopping at the first failure. */
  method ShapeBatch(classes: seq<string>, rows: seq<seq<real>>) returns (r: Result<seq<Prediction>, Error>)
    ensures r == ShapeAll(classes, rows)
  {
    var results: seq<Prediction> := [];
    var n := 0;
    while n < |rows|
      invariant n <= |rows|
      invariant ShapeAll(classes, rows[..n]) == Ok(results)
    {
      var pred := rows[n];
      assert rows[..n + 1][..n] == rows[..n];
      if |pred| == 0 {
        ShapeAllStops(classes, rows, n);
        return Err(EmptyOutput);
      }
      var predictedClassIdx := ArgMax(pred);
      var confidence := pred[predictedClassIdx];
      var predictedClass := Decode(classes, predictedClassIdx);
      if predictedClass.Err? {
        ShapeAllStops(classes, rows, n);
        return Err(predictedClass.error);
      }
      var allProbs := FillProbabilities(classes, pred);
      if allProbs.Err? {
        ShapeAllStops(classes, rows, n);
        return Err(allProbs.error);
      }
      results := results + [Prediction(predictedClass.value, confidence, allProbs.value)];
      n := n + 1;
    }
    assert rows[..n] == rows;
    return Ok(results);
  }

  /** Once one image fails to prepare, preparing the whole list fails with its error. */
  lemma PrepareAllStops(images: seq<ImageSource>, k: nat,
                        imread: string -> Option<seq<seq<Bgr>>>, resize: seq<seq<Rgb>> -> Frame)
    requires k < |images|
    requires PrepareAll(images[..k], imread, resize).Ok?
    requires PrepareImage(images[k], imread, resize).Err?
    ensures PrepareAll(images, imread, resize) == Err(PrepareImage(images[k], imread, resize).error)
  {
    var rs := PrepareEach(images, imread, resize);
    PrepareEachPrefix(images, k, imread, resize);
    assert rs[k] == PrepareOne(images[k], imread, resize);
    CollectStops(rs, k);
  }

  /** Once one row fails to shape, shaping all rows fails with its error. */
  lemma {:induction false} ShapeAllStops(classes: seq<string>, rows: seq<seq<real>>, k: nat)
    requires k < |rows|
    requires ShapeAll(classes, rows[..k]).Ok?
    requires Shape(classes, rows[k]).Err?
    ensures ShapeAll(classes, rows) == Err(Shape(classes, rows[k]).error)
    decreases |rows|
  {
    var n := |rows| - 1;
    if k == n {
      assert rows[..n] == rows[..k];
    } else {
      assert rows[..n][..k] == rows[..k];
      assert rows[..n][k] == rows[k];
      ShapeAllStops(classes, rows[..n], k);
    }
  }
}
