/**
 * The multer configuration of the user-panel server
 * (`src/middleware/upload.middleware.js`): the image filter, the stored file
 * names and the size and count limits. `path.extname` is modelled after Node's
 * POSIX implementation; the clock and `Math.random` are parameters.
 */
module UploadMiddleware {
  import opened Wrappers
  import opened Js
  import ErrorMiddleware

  // ---------------------------------------------------------------------------
  // path.extname

  /** The index of the last occurrence of `c` in `s`. */
  function LastIndexOf(s: string, c: char): (r: Option<nat>)
    ensures r.Some? ==> r.value < |s| && s[r.value] == c && forall k :: r.value < k < |s| ==> s[k] != c
    ensures r.None? ==> forall k :: 0 <= k < |s| ==> s[k] != c
    decreases |s|
  {
    if s == [] then None
    else if s[|s| - 1] == c then Some(|s| - 1)
    else LastIndexOf(s[..|s| - 1], c)
  }

  /** `s` without its trailing slashes. */
  function StripTrailingSlashes(s: string): (r: string)
    ensures |r| <= |s| && r == s[..|r|]
    ensures r != [] ==> r[|r| - 1] != '/'
    decreases |s|
  {
    if s != [] && s[|s| - 1] == '/' then StripTrailingSlashes(s[..|s| - 1]) else s
  }

  /** The last path segment, as `path.extname` sees it. */
  function LastSegment(p: string): (r: string)
    ensures forall k :: 0 <= k < |r| ==> r[k] != '/'
  {
    var q := StripTrailingSlashes(p);
    match LastIndexOf(q, '/')
    case None => q
    case Some(k) => q[k + 1..]
  }

  /**
   * `path.extname(p)`: from the last `.` of the last segment to its end; empty
   * when the segment has no dot, when the dot is its first character, and for `..`.
   */
  function Extname(p: string): (r: string)
    ensures r == [] || (r[0] == '.' && forall k :: 1 <= k < |r| ==> r[k] != '.' && r[k] != '/')
  {
    var seg := LastSegment(p);
    match LastIndexOf(seg, '.')
    case None => ""
    case Some(k) => if k == 0 || seg == ".." then "" else seg[k..]
  }

  // ---------------------------------------------------------------------------
  // imageFilter

  /** `/jpeg|jpg|png|webp/.test(s)`: one of the four names occurs anywhere in `s`. */
  predicate MentionsImageType(s: string) {
    Contains(s, "jpeg") || Contains(s, "jpg") || Contains(s, "png") || Contains(s, "webp")
  }

  /** The verdict a multer file filter hands to its callback. */
  datatype FilterVerdict = Accept | Reject(message: string)

  const ImageFilterMessage := "Only image files (JPEG, PNG, WebP) are allowed"

  /** `imageFilter(req, file, cb)`: upload.middleware.js:46-56. */
  function ImageFilter(originalName: string, mimetype: string): (v: FilterVerdict)
    ensures v.Accept? <==> MentionsImageType(Lower(Extname(originalName))) && MentionsImageType(mimetype)
    ensures v.Reject? ==> v.message == ImageFilterMessage
  {
    var extOk := MentionsImageType(Lower(Extname(originalName)));
    var mimeOk := MentionsImageType(mimetype);
    if mimeOk && extOk then Accept else Reject(ImageFilterMessage)
  }

  /** A type name anywhere in the extension and the mimetype is enough: the test is not anchored. */
  lemma SubstringIsEnough(originalName: string, mimetype: string, ext: string, before: string, after: string)
    requires ext in {"jpeg", "jpg", "png", "webp"}
    requires Lower(Extname(originalName)) == before + ext + after
    requires Contains(mimetype, ext)
    ensures ImageFilter(originalName, mimetype) == Accept
  {
    ContainsInside(before, ext, after);
  }

  lemma {:induction false} ContainsInside(before: string, sub: string, after: string)
    ensures Contains(before + sub + after, sub)
    decreases |before|
  {
    var s := before + sub + after;
    if before == [] {
      assert s[..|sub|] == sub;
    } else {
      assert s[1..] == before[1..] + sub + after;
      ContainsInside(before[1..], sub, after);
    }
  }

  /** Nothing in the mimetype names an image type, so the file is refused whatever its extension. */
  lemma MimetypeIsNotLowercased(originalName: string)
    ensures ImageFilter(originalName, "IMAGE/PNG").Reject?
  {
    var m := "IMAGE/PNG";
    assert forall k :: 0 <= k < |m| ==> !IsAsciiLower(m[k]);
    NoLowerNoMention(m);
  }

  lemma NoLowerNoMention(s: string)
    requires forall k :: 0 <= k < |s| ==> !IsAsciiLower(s[k])
    ensures !MentionsImageType(s)
  {
    NoLowerNotContains(s, "jpeg");
    NoLowerNotContains(s, "jpg");
    NoLowerNotContains(s, "png");
    NoLowerNotContains(s, "webp");
  }

  lemma {:induction false} NoLowerNotContains(s: string, sub: string)
    requires forall k :: 0 <= k < |s| ==> !IsAsciiLower(s[k])
    requires sub != [] && IsAsciiLower(sub[0])
    ensures !Contains(s, sub)
    decreases |s|
  {
    if |sub| <= |s| {
      assert s[..|sub|][0] == s[0];
    }
    if s != [] {
      NoLowerNotContains(s[1..], sub);
    }
  }

  // ---------------------------------------------------------------------------
  // Storage names and limits

  /** The three multer instances the module exports. */
  datatype Upload = UploadTemplate | UploadFrame | GenericUpload

  /** 10 * 1024 * 1024 bytes. */
  const MaxFileSize: nat := 10 * 1024 * 1024

  /** The `limits.files` of an instance. */
  function MaxFiles(u: Upload): (n: nat)
    ensures n == (if u.GenericUpload? then 5 else 1)
  {
    match u
    case UploadTemplate => 1
    case UploadFrame => 1
    case GenericUpload => 5
  }

  /**
   * The disk name of an upload: `template-` or `frame-`, the clock reading, `-`,
   * the rounded random number, and the original extension. The generic upload
   * lets multer pick a random name and has no prefix (`None`).
   */
  function StoredName(u: Upload, now: nat, random: nat, originalName: string): (r: Option<string>)
    ensures r.Some? <==> !u.GenericUpload?
    ensures r.Some? ==> StartsWith(r.value, if u.UploadTemplate? then "template-" else "frame-")
    ensures r.Some? ==> (|Extname(originalName)| <= |r.value|
      && r.value[|r.value| - |Extname(originalName)|..] == Extname(originalName))
  {
    if u.GenericUpload? then None
    else
      var prefix := if u.UploadTemplate? then "template-" else "frame-";
      var middle := NatToString(now) + "-" + NatToString(random);
      var ext := Extname(originalName);
      ConcatEnds(prefix, middle, ext);
      Some(prefix + middle + ext)
  }

  /** `a + b + c` starts with `a` and ends with `c`. */
  lemma ConcatEnds(a: string, b: string, c: string)
    ensures StartsWith(a + b + c, a)
    ensures |c| <= |a + b + c| && (a + b + c)[|a + b + c| - |c|..] == c
  {
    assert (a + b + c)[..|a|] == a;
    assert (a + b + c)[|a + b + c| - |c|..] == c;
  }

  /**
   * The limit error multer raises for a request whose files have the given sizes
   * in arrival order: a file past the count limit, or the first file larger than
   * the size limit, whichever comes first.
   */
  function LimitError(u: Upload, sizes: seq<nat>): (e: Option<ErrorMiddleware.ErrorCode>)
    ensures e.None? <==> |sizes| <= MaxFiles(u) && forall k :: 0 <= k < |sizes| ==> sizes[k] <= MaxFileSize
    ensures e.Some? ==> e.value in {ErrorMiddleware.StrCode("LIMIT_FILE_COUNT"), ErrorMiddleware.StrCode("LIMIT_FILE_SIZE")}
  {
    LimitErrorFrom(MaxFiles(u), sizes, 0)
  }

  function LimitErrorFrom(maxFiles: nat, sizes: seq<nat>, k: nat): (e: Option<ErrorMiddleware.ErrorCode>)
    requires k <= |sizes|
    ensures e.None? <==> ((|sizes| <= maxFiles || |sizes| <= k)
      && forall j :: k <= j < |sizes| ==> sizes[j] <= MaxFileSize)
    ensures e.Some? ==> e.value in {ErrorMiddleware.StrCode("LIMIT_FILE_COUNT"), ErrorMiddleware.StrCode("LIMIT_FILE_SIZE")}
    decreases |sizes| - k
  {
    if k == |sizes| then None
    else if k >= maxFiles then Some(ErrorMiddleware.StrCode("LIMIT_FILE_COUNT"))
    else if sizes[k] > MaxFileSize then Some(ErrorMiddleware.StrCode("LIMIT_FILE_SIZE"))
    else LimitErrorFrom(maxFiles, sizes, k + 1)
  }

  /** Whatever limit is broken, the error handler answers 400. */
  lemma LimitErrorsAre400(u: Upload, sizes: seq<nat>, e: ErrorMiddleware.AppError, nodeEnv: string)
    requires LimitError(u, sizes) == Some(e.code)
    requires e.name !in {"ValidationError", "CastError", "JsonWebTokenError", "TokenExpiredError"}
    ensures ErrorMiddleware.ErrorHandler(e, nodeEnv).Json?
    ensures ErrorMiddleware.ErrorHandler(e, nodeEnv).status == 400
    ensures ErrorMiddleware.ErrorHandler(e, nodeEnv).message
      == (if e.code == ErrorMiddleware.StrCode("LIMIT_FILE_SIZE") then "File size too large" else "Too many files")
  {
  }
}
