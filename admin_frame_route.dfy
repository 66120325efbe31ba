/**
 * The frame upload route of the admin server (`routes/frame.js`): its multer
 * file filter and size limit, and `/upload-with-elements`, which saves one
 * element record for every entry of the `elements` field. The records follow
 * the admin server's own FrameElement schema (`models/FrameElement.js`), which
 * knows nine element kinds and no `website`. The frame's save is a call into
 * code outside the model; its outcome is a parameter.
 */
module AdminFrameRoute {
  import opened Wrappers
  import opened Js
  import opened MultipartFields
  import FrameController

  /** The verdict of the route's file filter. */
  datatype FilterVerdict = Accept | Reject(message: string)

  /** `file.mimetype.startsWith('image/')` (frame.js:28-35). */
  function FileFilter(mimetype: string): (v: FilterVerdict)
    ensures v.Accept? <==> StartsWith(mimetype, "image/")
    ensures v.Reject? ==> v.message == "Only image files are allowed!"
  {
    if StartsWith(mimetype, "image/") then Accept else Reject("Only image files are allowed!")
  }

  /** `limits.fileSize`: 10 MB, and no limit on the number of files. */
  const MaxFileSize: nat := 10 * 1024 * 1024

  /** A mimetype is judged by its prefix only: anything under `image/` passes, whatever follows. */
  lemma AnyImageSubtypeAccepted(subtype: string)
    ensures FileFilter("image/" + subtype) == Accept
  {
    assert ("image/" + subtype)[..6] == "image/";
  }

  // ---------------------------------------------------------------------------
  // Element records

  /** An admin FrameElement record; `None` numbers are values Mongoose cannot cast (`NaN`). */
  datatype AdminElement = AdminElement(
    elementType: Option<string>,
    posX: Option<int>,
    posY: Option<int>,
    fontSize: Option<int>,
    fontColor: string)

  const AdminElementTypes: set<string> :=
    {"name", "email", "facebook", "linkedin", "twitter", "instagram", "mobile", "address", "logo"}

  /** The admin schema's checks: a type from the enum, and all three numbers castable. */
  predicate AdminValid(e: AdminElement) {
    e.elementType.Some? && e.elementType.value in AdminElementTypes
    && e.posX.Some? && e.posY.Some? && e.fontSize.Some?
  }

  /** The record of entry `i` (frame.js:113-126): `parseInt(font_size[i] || 0)` is the default 0. */
  function RowRecord(rows: FrameController.Rows, i: nat): AdminElement {
    var element := At(rows.elements, i);
    var isLogo := element == Some("logo");
    AdminElement(
      element,
      FrameController.ParseField(At(rows.xs, i)),
      FrameController.ParseField(At(rows.ys, i)),
      if isLogo then Some(0)
      else if TruthyAt(rows.sizes, i) then ParseInt(At(rows.sizes, i).value)
      else ParseInt(NatToString(0)),
      if isLogo then "#000000"
      else if TruthyAt(rows.colors, i) then At(rows.colors, i).value
      else "#000000")
  }

  /** One record per entry of the wrapped `elements` field, in order. */
  function Records(rows: FrameController.Rows): (r: seq<AdminElement>)
    ensures |r| == |rows.elements|
    ensures forall i :: 0 <= i < |r| ==> r[i] == RowRecord(rows, i)
  {
    seq(|rows.elements|, i requires 0 <= i < |rows.elements| => RowRecord(rows, i))
  }

  predicate AllAdminValid(es: seq<AdminElement>) {
    forall k :: 0 <= k < |es| ==> AdminValid(es[k])
  }

  /**
   * `/upload-with-elements` (frame.js:73-145). `saved` are the records written, in
   * order; the first record the schema refuses ends the request with a 500 and
   * the records before it stay saved.
   */
  method UploadWithElements(hasFile: bool, frameSaved: bool,
                            elements: FormField, x: FormField, y: FormField,
                            fontSize: FormField, color: FormField)
    returns (status: int, message: string, saved: seq<AdminElement>)
    ensures !hasFile ==> status == 400 && message == "No file uploaded" && saved == []
    ensures hasFile && !frameSaved ==> status == 500 && message == "Upload failed" && saved == []
    ensures hasFile && frameSaved ==>
      var all := Records(FrameController.WrapAll(elements, x, y, fontSize, color));
      (status == 200 <==> AllAdminValid(all))
      && (status == 200 ==> message == "Frame and elements uploaded successfully" && saved == all)
      && (status != 200 ==> (status == 500 && message == "Upload failed"
          && exists k :: 0 <= k < |all| && !AdminValid(all[k]) && AllAdminValid(all[..k]) && saved == all[..k]))
  {
    saved := [];
    if !hasFile {
      return 400, "No file uploaded", saved;
    }
    var rows := FrameController.WrapAll(elements, x, y, fontSize, color);
    if !frameSaved {
      return 500, "Upload failed", saved;
    }
    var ok;
    ok, saved := SaveRecords(Records(rows));
    if ok {
      status, message := 200, "Frame and elements uploaded successfully";
    } else {
      status, message := 500, "Upload failed";
    }
  }

  /** The element loop (frame.js:112-130): records are saved in order until the schema refuses one. */
  method SaveRecords(all: seq<AdminElement>) returns (ok: bool, saved: seq<AdminElement>)
    ensures ok <==> AllAdminValid(all)
    ensures ok ==> saved == all
    ensures !ok ==> exists k :: 0 <= k < |all| && !AdminValid(all[k]) && AllAdminValid(all[..k]) && saved == all[..k]
  {
    saved := [];
    var i := 0;
    while i < |all|
      invariant 0 <= i <= |all|
      invariant saved == all[..i]
      invariant AllAdminValid(saved)
    {
      var record := all[i];
      if !AdminValid(record) {
        return false, saved;
      }
      assert all[..i + 1] == all[..i] + [record];
      saved := saved + [record];
      i := i + 1;
    }
    assert all[..i] == all;
    ok := true;
  }

  /** The `No elements data provided` branch (frame.js:98-100) is dead: a wrapped field is never empty. */
  lemma ElementsNeverEmpty(elements: FormField)
    ensures |Wrap(elements)| >= 1
  {
  }

  /** Unlike the user server, a row without coordinates is not skipped: its record is refused by the schema. */
  lemma MissingCoordinateRefused(rows: FrameController.Rows, i: nat)
    requires At(rows.xs, i).None?
    ensures !AdminValid(RowRecord(rows, i))
  {
  }

  /** A non-logo entry without a font size gets 0 here, where the user server uses 16. */
  lemma DefaultFontSizeIsZero(rows: FrameController.Rows, i: nat)
    requires At(rows.elements, i) != Some("logo") && !TruthyAt(rows.sizes, i)
    ensures RowRecord(rows, i).fontSize == Some(0)
    ensures FrameController.IsLogoRow(rows, i) || TruthyAt(rows.sizes, i) || FrameController.RowFontSize(rows, i) == Some(16)
  {
    ParseIntOfNat(0);
    ParseIntOfNat(16);
  }

  /** The admin schema has no `website` kind, so a website entry's record is refused. */
  lemma WebsiteRefused(rows: FrameController.Rows, i: nat)
    requires At(rows.elements, i) == Some("website")
    ensures !AdminValid(RowRecord(rows, i))
  {
  }
}
