/**
 * ecg_app/forms.py: ECGUploadForm.clean_image, the upload validator. The file name is split
 * as POSIX `os.path.splitext` splits it and lowercased as ASCII.
 */
module Forms {
  import opened Wrappers

  /** An uploaded file as the form sees it: its name and its size in bytes. */
  datatype UploadedFile = UploadedFile(name: string, size: nat)

  /** A `forms.ValidationError` and its message. */
  datatype ValidationError = ValidationError(message: string)

  /** `max_size`: 10 MiB. */
  const MaxSize: nat := 10 * 1024 * 1024

  const ValidExtensions: seq<string> := [".png", ".jpg", ".jpeg", ".bmp", ".tiff", ".pdf"]

  /** `f'File size must be under {max_size/1024/1024}MB'`: the quotient is the float 10.0. */
  const SizeMessage: string := "File size must be under 10.0MB"

  /** `f'Unsupported file format. Supported formats: {", ".join(valid_extensions)}'`. */
  const FormatMessage: string := "Unsupported file format. Supported formats: .png, .jpg, .jpeg, .bmp, .tiff, .pdf"

  /** The last index of `c` in `s`, or -1 (`str.rfind`). */
  function LastIndex(s: string, c: char): (i: int)
    ensures -1 <= i < |s|
    ensures i >= 0 ==> s[i] == c
    ensures forall j :: i < j < |s| ==> s[j] != c
  {
    if s == [] then -1
    else if s[|s| - 1] == c then |s| - 1
    else LastIndex(s[..|s| - 1], c)
  }

  /** Some character of `s[lo..hi]` is not a dot. */
  predicate HasNonDot(s: string, lo: int, hi: int)
    requires 0 <= lo && hi <= |s|
  {
    exists k :: lo <= k < hi && s[k] != '.'
  }

  /**
   * POSIX `os.path.splitext`: the extension starts at the last dot of the last path
   * component, unless everything before that dot in the component is dots.
   */
  function SplitExt(p: string): (string, string) {
    var sep := LastIndex(p, '/');
    var dot := LastIndex(p, '.');
    if dot > sep && HasNonDot(p, sep + 1, dot) then (p[..dot], p[dot..]) else (p, "")
  }

  /**
   * The root and the extension put back together give the path. The extension is non-empty
   * exactly when the last dot lies in the last component after some non-dot of that component,
   * and it is then everything from that dot on: one dot followed by no dot and no slash.
   */
  lemma SplitExtSpec(p: string)
    ensures SplitExt(p).0 + SplitExt(p).1 == p
    ensures var sep := LastIndex(p, '/'); var dot := LastIndex(p, '.');
      SplitExt(p).1 != "" <==> dot > sep && HasNonDot(p, sep + 1, dot)
    ensures var sep := LastIndex(p, '/'); var dot := LastIndex(p, '.');
      dot > sep && HasNonDot(p, sep + 1, dot) ==> SplitExt(p).1 == p[dot..]
    ensures var ext := SplitExt(p).1;
      ext == "" || (ext[0] == '.' && forall k :: 1 <= k < |ext| ==> ext[k] != '.' && ext[k] != '/')
    ensures var ext := SplitExt(p).1;
      ext != "" ==> var dot := |p| - |ext|; HasNonDot(p, LastIndex(p, '/') + 1, dot)
  {
    var sep := LastIndex(p, '/');
    var dot := LastIndex(p, '.');
    if dot > sep && HasNonDot(p, sep + 1, dot) {
      assert p[..dot] + p[dot..] == p;
      var ext := p[dot..];
      forall k | 1 <= k < |ext|
        ensures ext[k] != '.' && ext[k] != '/'
      {
        assert ext[k] == p[dot + k];
      }
    }
  }

  function LowerChar(c: char): char {
    if 'A' <= c <= 'Z' then (c as int - 'A' as int + 'a' as int) as char else c
  }

  /** `str.lower()` on ASCII letters. */
  function Lower(s: string): (r: string)
    ensures |r| == |s|
  {
    seq(|s|, i requires 0 <= i < |s| => LowerChar(s[i]))
  }

  /** The extension `clean_image` checks. */
  function Extension(name: string): string {
    Lower(SplitExt(name).1)
  }

  /**
   * Lowercasing leaves dots and slashes where they are, so the extension of the lowercased
   * name is the lowercased extension: the check does not depend on letter case.
   */
  lemma ExtensionOfLower(name: string)
    ensures SplitExt(Lower(name)).1 == Lower(SplitExt(name).1)
    ensures Extension(Lower(name)) == Extension(name)
  {
    var l := Lower(name);
    assert forall k :: 0 <= k < |name| ==> (l[k] == '.' <==> name[k] == '.') && (l[k] == '/' <==> name[k] == '/');
    var sep := LastIndex(name, '/');
    var dot := LastIndex(name, '.');
    assert LastIndex(l, '/') == sep;
    assert LastIndex(l, '.') == dot;
    if dot > sep {
      assert HasNonDot(l, sep + 1, dot) == HasNonDot(name, sep + 1, dot);
      if HasNonDot(name, sep + 1, dot) {
        assert l[dot..] == Lower(name[dot..]);
      }
    }
    var e := SplitExt(name).1;
    assert Lower(Lower(e)) == Lower(e);
  }

  /** Whether the image is truthy: a Django `File` is false when its name is empty. */
  predicate Present(image: Option<UploadedFile>) {
    image.Some? && image.value.name != ""
  }

  /** `clean_image()`. */
  function CleanImage(image: Option<UploadedFile>): Result<Option<UploadedFile>, ValidationError> {
    if !Present(image) then Ok(image)
    else if image.value.size > MaxSize then Err(ValidationError(SizeMessage))
    else if Extension(image.value.name) !in ValidExtensions then Err(ValidationError(FormatMessage))
    else Ok(image)
  }

  /**
   * A missing or nameless image passes unchecked; a present one is rejected with the size
   * message exactly when it is larger than 10 MiB, and otherwise with the format message
   * exactly when its lowercased extension is not one of the six; whatever passes is returned
   * as it came.
   */
  lemma CleanImageSpec(image: Option<UploadedFile>)
    ensures !Present(image) ==> CleanImage(image) == Ok(image)
    ensures CleanImage(image).Ok? ==> CleanImage(image).value == image
    ensures Present(image) ==>
      (CleanImage(image) == Err(ValidationError(SizeMessage)) <==> image.value.size > MaxSize)
    ensures Present(image) ==>
      (CleanImage(image) == Err(ValidationError(FormatMessage)) <==>
         image.value.size <= MaxSize && Extension(image.value.name) !in ValidExtensions)
    ensures CleanImage(image).Ok? <==>
      !Present(image) || (image.value.size <= MaxSize && Extension(image.value.name) in ValidExtensions)
  {
  }

  /** Exactly 10 MiB passes the size check and one byte more does not. */
  lemma SizeBoundary(name: string)
    requires name != ""
    ensures CleanImage(Some(UploadedFile(name, MaxSize))) != Err(ValidationError(SizeMessage))
    ensures CleanImage(Some(UploadedFile(name, MaxSize + 1))) == Err(ValidationError(SizeMessage))
  {
  }

  /** Letter case in the name never changes the verdict. */
  lemma CaseInsensitive(name: string, size: nat)
    ensures CleanImage(Some(UploadedFile(Lower(name), size))).Ok? == CleanImage(Some(UploadedFile(name, size))).Ok?
  {
    ExtensionOfLower(name);
  }

  /** Only the last suffix counts: `scan.exe.png` passes. */
  lemma LastSuffixPasses()
    ensures Extension("scan.exe.png") == ".png"
    ensures CleanImage(Some(UploadedFile("scan.exe.png", 1))).Ok?
  {
    ExtensionAt("scan.exe.png", 8, 0);
    assert Lower(".png") == ".png";
    assert ValidExtensions[0] == ".png";
  }

  /** Only the last suffix counts: `scan.png.exe` is rejected. */
  lemma LastSuffixRejected()
    ensures Extension("scan.png.exe") == ".exe"
    ensures CleanImage(Some(UploadedFile("scan.png.exe", 1))).Err?
  {
    ExtensionAt("scan.png.exe", 8, 0);
    assert Lower(".exe") == ".exe";
    ExeNotValid();
  }

  /** `.exe` is not one of the six: each of them has a letter other than `e` after its dot. */
  lemma ExeNotValid()
    ensures ".exe" !in ValidExtensions
  {
    forall i | 0 <= i < |ValidExtensions|
      ensures ValidExtensions[i] != ".exe"
    {
      assert |ValidExtensions[i]| > 1 && ValidExtensions[i][1] != 'e';
    }
  }

  /** An upper-case extension passes. */
  lemma UpperCasePasses()
    ensures Extension("SCAN.PNG") == ".png"
    ensures CleanImage(Some(UploadedFile("SCAN.PNG", 1))).Ok?
  {
    ExtensionAt("SCAN.PNG", 4, 0);
    assert Lower(".PNG") == ".png";
    assert ValidExtensions[0] == ".png";
  }

  /** A mixed-case extension passes. */
  lemma MixedCasePasses()
    ensures Extension("ecg.JpEg") == ".jpeg"
    ensures CleanImage(Some(UploadedFile("ecg.JpEg", 1))).Ok?
  {
    ExtensionAt("ecg.JpEg", 3, 0);
    assert Lower(".JpEg") == ".jpeg";
    assert ValidExtensions[2] == ".jpeg";
  }

  /** A name without a suffix, or whose only dot leads it, has extension `''` and is rejected. */
  lemma NoSuffixRejected()
    ensures Extension("scan") == ""
    ensures Extension(".png") == ""
    ensures CleanImage(Some(UploadedFile("scan", 1))) == Err(ValidationError(FormatMessage))
    ensures CleanImage(Some(UploadedFile(".png", 1))) == Err(ValidationError(FormatMessage))
  {
    assert LastIndex("scan", '.') == -1;
    var p := ".png";
    assert p[0] == '.' && p[1] != '.' && p[2] != '.' && p[3] != '.';
    assert LastIndex(p, '.') == 0;
    assert Lower("") == "";
  }

  /** A name whose only slashless last dot sits at `dot`, after a non-dot at `k`, has the suffix from there. */
  lemma ExtensionAt(p: string, dot: nat, k: nat)
    requires k < dot < |p| && p[dot] == '.' && p[k] != '.'
    requires forall j :: dot < j < |p| ==> p[j] != '.'
    requires forall j :: 0 <= j < |p| ==> p[j] != '/'
    ensures SplitExt(p).1 == p[dot..]
  {
    assert LastIndex(p, '.') == dot;
    assert LastIndex(p, '/') == -1;
    assert HasNonDot(p, 0, dot);
  }
}
