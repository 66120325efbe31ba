/**
 * The frame handlers of the user-panel server (`src/controllers/frame.controller.js`):
 * the paging and URL choice of `getFrames`, and `createFrameWithElements`, which
 * turns the parallel multipart fields `elements`, `x`, `y`, `font_size` and
 * `color` into FrameElement documents, one row at a time, and saves each one.
 * The Cloudinary upload, the file move and the frame's own save are calls into
 * code outside the model; their outcomes are parameters.
 */
module FrameController {
  import opened Wrappers
  import opened Js
  import opened MultipartFields
  import FrameElementModel

  // ---------------------------------------------------------------------------
  // getFrames

  /** The `skip` and `limit` of `getFrames`, with the defaults `page = 1` and `limit = 12`. */
  function FramesWindow(page: Option<int>, limit: Option<int>): (r: (int, int))
    ensures r.1 == limit.GetOr(12)
    ensures page.None? || page == Some(1) ==> r.0 == 0
    ensures r.0 == (page.GetOr(1) - 1) * r.1
  {
    var l := limit.GetOr(12);
    ((page.GetOr(1) - 1) * l, l)
  }

  /** `Math.ceil(a / b)` for integers. */
  function CeilDiv(a: int, b: int): int
    requires b != 0
  {
    if b > 0 then (a + b - 1) / b else (-a - b - 1) / -b
  }

  /**
   * `Math.ceil(total / limit)`: `None` when `limit` is 0, where the quotient is
   * not a finite number and the JSON field comes out `null`.
   */
  function TotalPages(total: nat, limit: int): (r: Option<int>)
    ensures r.None? <==> limit == 0
    ensures limit > 0 ==> r.value >= 0 && r.value * limit >= total && (r.value - 1) * limit < total
  {
    if limit == 0 then None
    else
      var p := CeilDiv(total, limit);
      CeilDivBounds(total, limit);
      Some(p)
  }

  lemma CeilDivBounds(a: int, b: int)
    requires a >= 0 && b != 0
    ensures b > 0 ==> CeilDiv(a, b) >= 0 && CeilDiv(a, b) * b >= a && (CeilDiv(a, b) - 1) * b < a
  {
    if b < 0 { return; }
    var q := (a + b - 1) / b;
    var m := (a + b - 1) % b;
    assert a + b - 1 == q * b + m && 0 <= m < b;
    assert q * b == a + b - 1 - m;
    assert (q - 1) * b == q * b - b;
  }

  /** A stored frame, as far as `getFrames` reads it. */
  datatype FrameRecord = FrameRecord(imagePath: string, cloudinaryPublicId: Option<string>, cloudinaryUrl: Option<string>)

  /** The `imageUrl` of a listed frame: Cloudinary's when it has a public id, the local file's otherwise. */
  function ImageUrl(f: FrameRecord, protocol: string, host: string): (u: Option<string>)
    ensures f.cloudinaryPublicId.Some? && f.cloudinaryPublicId.value != "" ==> u == f.cloudinaryUrl
    ensures !(f.cloudinaryPublicId.Some? && f.cloudinaryPublicId.value != "") ==>
      u.Some? && StartsWith(u.value, protocol + "://" + host + "/Frame_images/")
      && u.value[|protocol + "://" + host + "/Frame_images/"|..] == f.imagePath
  {
    if f.cloudinaryPublicId.Some? && f.cloudinaryPublicId.value != "" then f.cloudinaryUrl
    else Some(protocol + "://" + host + "/Frame_images/" + f.imagePath)
  }

  // ---------------------------------------------------------------------------
  // The element rows of createFrameWithElements

  /** The five wrapped body fields. */
  datatype Rows = Rows(
    elements: seq<Option<string>>,
    xs: seq<Option<string>>,
    ys: seq<Option<string>>,
    sizes: seq<Option<string>>,
    colors: seq<Option<string>>)

  function WrapAll(elements: FormField, x: FormField, y: FormField, fontSize: FormField, color: FormField): Rows {
    Rows(Wrap(elements), Wrap(x), Wrap(y), Wrap(fontSize), Wrap(color))
  }

  /** `elementsArray[i] && xArray[i] !== undefined && yArray[i] !== undefined`. */
  predicate Keep(rows: Rows, i: nat) {
    TruthyAt(rows.elements, i) && At(rows.xs, i).Some? && At(rows.ys, i).Some?
  }

  /** `parseInt(v)`, with `parseInt(undefined)` being NaN. */
  function ParseField(v: Option<string>): FrameElementModel.Number {
    if v.None? then None else ParseInt(v.value)
  }

  /** `elementsArray[i] === 'logo'` (before the schema lowercases the type). */
  predicate IsLogoRow(rows: Rows, i: nat) {
    At(rows.elements, i) == Some("logo")
  }

  /** `logo ? 0 : parseInt(fontSizeArray[i] || 16)`: the number 16 goes through `parseInt` too. */
  function RowFontSize(rows: Rows, i: nat): FrameElementModel.Number {
    if IsLogoRow(rows, i) then Some(0)
    else if TruthyAt(rows.sizes, i) then ParseInt(At(rows.sizes, i).value)
    else ParseInt(NatToString(16))
  }

  /** `logo ? '#000000' : (colorArray[i] || '#000000')`. */
  function RowColor(rows: Rows, i: nat): string {
    if IsLogoRow(rows, i) then "#000000"
    else if TruthyAt(rows.colors, i) then At(rows.colors, i).value
    else "#000000"
  }

  /** The FrameElement document row `i` builds. */
  function RowDoc(rows: Rows, i: nat): FrameElementModel.ElementDoc
    requires Keep(rows, i)
  {
    FrameElementModel.NewElement(At(rows.elements, i).value, ParseField(At(rows.xs, i)), ParseField(At(rows.ys, i)),
                                 Some(RowFontSize(rows, i)), Some(RowColor(rows, i)))
  }

  /** The documents the rows below `n` build, in row order. */
  function KeptDocs(rows: Rows, n: nat): (docs: seq<FrameElementModel.ElementDoc>)
    ensures |docs| == KeptCount(rows, n)
    decreases n
  {
    if n == 0 then []
    else KeptDocs(rows, n - 1) + (if Keep(rows, n - 1) then [RowDoc(rows, n - 1)] else [])
  }

  /** The number of rows below `n` that are kept. */
  function KeptCount(rows: Rows, n: nat): nat
    decreases n
  {
    if n == 0 then 0 else KeptCount(rows, n - 1) + (if Keep(rows, n - 1) then 1 else 0)
  }

  /** The documents the handler tries to save: none unless `elements` is truthy. */
  function Documents(elements: FormField, x: FormField, y: FormField, fontSize: FormField, color: FormField)
    : seq<FrameElementModel.ElementDoc>
  {
    var rows := WrapAll(elements, x, y, fontSize, color);
    if FieldTruthy(elements) then KeptDocs(rows, |rows.elements|) else []
  }

  function Hooked(docs: seq<FrameElementModel.ElementDoc>): (r: seq<FrameElementModel.ElementDoc>)
    ensures |r| == |docs| && forall k :: 0 <= k < |docs| ==> r[k] == FrameElementModel.AfterHook(docs[k])
  {
    seq(|docs|, k requires 0 <= k < |docs| => FrameElementModel.AfterHook(docs[k]))
  }

  predicate AllValid(docs: seq<FrameElementModel.ElementDoc>) {
    forall k :: 0 <= k < |docs| ==> FrameElementModel.Valid(docs[k])
  }

  /** `docs[k]` is the first document that fails validation. */
  predicate FirstInvalidAt(docs: seq<FrameElementModel.ElementDoc>, k: int) {
    0 <= k < |docs| && !FrameElementModel.Valid(docs[k]) && AllValid(docs[..k])
  }

  /**
   * The element loop of `createFrameWithElements` (frame.controller.js:187-205):
   * each kept row's document is saved, validation first, and the first one that
   * fails stops the loop.
   */
  method SaveRows(rows: Rows, n: nat) returns (ok: bool, saved: seq<FrameElementModel.ElementDoc>)
    ensures ok <==> AllValid(KeptDocs(rows, n))
    ensures ok ==> saved == Hooked(KeptDocs(rows, n))
    ensures !ok ==> exists k :: FirstInvalidAt(KeptDocs(rows, n), k) && saved == Hooked(KeptDocs(rows, n)[..k])
  {
    saved := [];
    var i := 0;
    while i < n
      invariant 0 <= i <= n
      invariant AllValid(KeptDocs(rows, i))
      invariant saved == Hooked(KeptDocs(rows, i))
    {
      if Keep(rows, i) {
        var doc := RowDoc(rows, i);
        KeptDocsStep(rows, i);
        if !FrameElementModel.Valid(doc) {
          FirstFailure(rows, i, n, doc);
          return false, saved;
        }
        KeepStep(rows, i, saved, doc);
        saved := saved + [FrameElementModel.AfterHook(doc)];
      }
      i := i + 1;
    }
    ok := true;
  }

  /** A kept, valid row extends the saved list by its hooked document. */
  lemma KeepStep(rows: Rows, i: nat, saved: seq<FrameElementModel.ElementDoc>, d: FrameElementModel.ElementDoc)
    requires KeptDocs(rows, i + 1) == KeptDocs(rows, i) + [d] && FrameElementModel.Valid(d)
    requires AllValid(KeptDocs(rows, i)) && saved == Hooked(KeptDocs(rows, i))
    ensures AllValid(KeptDocs(rows, i + 1))
    ensures saved + [FrameElementModel.AfterHook(d)] == Hooked(KeptDocs(rows, i + 1))
  {
  }

  /** A kept row appends its document to those of the rows before it. */
  lemma KeptDocsStep(rows: Rows, i: nat)
    requires Keep(rows, i)
    ensures KeptDocs(rows, i + 1) == KeptDocs(rows, i) + [RowDoc(rows, i)]
  {
  }

  /** A kept row that fails validation is the first failing document of all the rows. */
  lemma FirstFailure(rows: Rows, i: nat, n: nat, d: FrameElementModel.ElementDoc)
    requires i < n && KeptDocs(rows, i + 1) == KeptDocs(rows, i) + [d] && !FrameElementModel.Valid(d)
    requires AllValid(KeptDocs(rows, i))
    ensures FirstInvalidAt(KeptDocs(rows, n), |KeptDocs(rows, i)|)
    ensures KeptDocs(rows, n)[..|KeptDocs(rows, i)|] == KeptDocs(rows, i)
  {
    KeptDocsPrefix(rows, i + 1, n);
    FirstInvalidAfter(KeptDocs(rows, n), KeptDocs(rows, i), d);
  }

  /** A sequence that starts with valid documents and then an invalid one first fails there. */
  lemma FirstInvalidAfter(docs: seq<FrameElementModel.ElementDoc>, pre: seq<FrameElementModel.ElementDoc>,
                          d: FrameElementModel.ElementDoc)
    requires |pre| < |docs| && docs[..|pre| + 1] == pre + [d]
    requires AllValid(pre) && !FrameElementModel.Valid(d)
    ensures FirstInvalidAt(docs, |pre|) && docs[..|pre|] == pre
  {
    var k := |pre|;
    assert docs[..k] == docs[..k + 1][..k];
    assert docs[k] == docs[..k + 1][k];
  }

  /** What the Cloudinary step did: not configured (the file is moved locally), uploaded, or failed. */
  datatype ImageStep = MovedLocally | Uploaded(publicId: string, secureUrl: string) | UploadFailed

  /**
   * `createFrameWithElements` (frame.controller.js:133-226). `saved` are the
   * element documents written, in order; the documents saved before a failing
   * one stay saved.
   */
  method CreateFrameWithElements(hasFile: bool, image: ImageStep, frameSaved: bool,
                                 elements: FormField, x: FormField, y: FormField,
                                 fontSize: FormField, color: FormField)
    returns (status: int, message: string, saved: seq<FrameElementModel.ElementDoc>)
    ensures !hasFile ==> status == 400 && message == "Frame image is required" && saved == []
    ensures hasFile && image.UploadFailed? ==> status == 500 && message == "Image upload failed" && saved == []
    ensures hasFile && !image.UploadFailed? && !frameSaved ==>
      status == 500 && message == "Error creating frame with elements" && saved == []
    ensures hasFile && !image.UploadFailed? && frameSaved ==>
      var docs := Documents(elements, x, y, fontSize, color);
      (status == 201 <==> AllValid(docs))
      && (status == 201 ==> message == "Frame and elements created successfully" && saved == Hooked(docs))
      && (status != 201 ==> (status == 500 && message == "Error creating frame with elements"
          && exists k :: FirstInvalidAt(docs, k) && saved == Hooked(docs[..k])))
  {
    saved := [];
    if !hasFile {
      return 400, "Frame image is required", saved;
    }
    if image.UploadFailed? {
      return 500, "Image upload failed", saved;
    }
    if !frameSaved {
      return 500, "Error creating frame with elements", saved;
    }
    var ok := true;
    ghost var docs := Documents(elements, x, y, fontSize, color);
    if FieldTruthy(elements) {
      var rows := WrapAll(elements, x, y, fontSize, color);
      ok, saved := SaveRows(rows, |rows.elements|);
      assert docs == KeptDocs(rows, |rows.elements|);
    } else {
      assert docs == [] && saved == Hooked(docs);
    }
    if ok {
      status, message := 201, "Frame and elements created successfully";
    } else {
      status, message := 500, "Error creating frame with elements";
    }
  }

  // ---------------------------------------------------------------------------
  // What the rows promise

  /** The documents of fewer rows are a prefix of those of more. */
  lemma {:induction false} KeptDocsPrefix(rows: Rows, i: nat, n: nat)
    requires i <= n
    ensures |KeptDocs(rows, i)| <= |KeptDocs(rows, n)| && KeptDocs(rows, n)[..|KeptDocs(rows, i)|] == KeptDocs(rows, i)
    decreases n - i
  {
    if i < n {
      KeptDocsPrefix(rows, i, n - 1);
    }
  }

  /** At most one document per row. */
  lemma {:induction false} KeptDocsLength(rows: Rows, n: nat)
    ensures |KeptDocs(rows, n)| <= n
  {
    if n > 0 {
      KeptDocsLength(rows, n - 1);
    }
  }

  /** Each document comes from a kept row. */
  lemma {:induction false} KeptDocsFromKeptRows(rows: Rows, n: nat)
    ensures forall d :: d in KeptDocs(rows, n) ==> exists i :: 0 <= i < n && Keep(rows, i) && d == RowDoc(rows, i)
  {
    if n > 0 {
      KeptDocsFromKeptRows(rows, n - 1);
    }
  }

  /** Each kept row yields its document, at its place among the kept rows. */
  lemma {:induction false} KeptRowsYieldDocs(rows: Rows, n: nat, i: nat)
    requires i < n && Keep(rows, i)
    ensures RowDoc(rows, i) in KeptDocs(rows, n)
  {
    KeptDocsPrefix(rows, i + 1, n);
    assert KeptDocs(rows, i + 1)[|KeptDocs(rows, i)|] == RowDoc(rows, i);
    assert KeptDocs(rows, n)[|KeptDocs(rows, i)|] == RowDoc(rows, i);
  }

  /** When every row has a type and both coordinates, every row yields a document. */
  lemma {:induction false} AllRowsKept(rows: Rows, n: nat)
    requires forall i :: 0 <= i < n ==> Keep(rows, i)
    ensures |KeptDocs(rows, n)| == n
  {
    AllRowsCounted(rows, n);
  }

  lemma {:induction false} AllRowsCounted(rows: Rows, n: nat)
    requires forall i :: 0 <= i < n ==> Keep(rows, i)
    ensures KeptCount(rows, n) == n
  {
    if n > 0 {
      AllRowsCounted(rows, n - 1);
    }
  }

  /** A non-logo row with no font size gets 16, the number `parseInt` reads back from `16`. */
  lemma DefaultFontSize(rows: Rows, i: nat)
    requires !IsLogoRow(rows, i) && !TruthyAt(rows.sizes, i)
    ensures RowFontSize(rows, i) == Some(16)
  {
    ParseIntOfNat(16);
  }

  /** A non-logo row with no colour gets `#000000`; a logo row always does. */
  lemma RowColorDefault(rows: Rows, i: nat)
    ensures IsLogoRow(rows, i) || !TruthyAt(rows.colors, i) ==> RowColor(rows, i) == "#000000"
    ensures IsLogoRow(rows, i) ==> RowFontSize(rows, i) == Some(0)
  {
  }

  /**
   * A logo row is built with font size 0, below the schema's minimum of 8, so its
   * save fails validation: a request with a logo row never gets the 201.
   */
  lemma LogoRowIsRejected(elements: FormField, x: FormField, y: FormField, fontSize: FormField, color: FormField, i: nat)
    requires FieldTruthy(elements)
    requires var rows := WrapAll(elements, x, y, fontSize, color); Keep(rows, i) && IsLogoRow(rows, i)
    ensures exists k :: (0 <= k < |Documents(elements, x, y, fontSize, color)|
      && !FrameElementModel.Valid(Documents(elements, x, y, fontSize, color)[k]))
  {
    var rows := WrapAll(elements, x, y, fontSize, color);
    var d := RowDoc(rows, i);
    assert !FrameElementModel.Valid(d);
    KeptRowsYieldDocs(rows, |rows.elements|, i);
    var docs := Documents(elements, x, y, fontSize, color);
    var k :| 0 <= k < |docs| && docs[k] == d;
  }
}
