/**
 * The FrameElement schema of the user-panel server (`src/models/FrameElement.js`):
 * its defaults, its validators and its pre-save hook. Mongoose runs the
 * validators before the hooks of a `save`, so a document is checked as the
 * caller built it and the hook only rewrites documents that passed.
 */
module FrameElementModel {
  import opened Wrappers
  import opened Js

  /** A number field: `None` is a value Mongoose cannot cast to a number (`NaN`, `undefined`). */
  type Number = Option<int>

  datatype Styling = Styling(fontSize: Number, fontColor: string, fontFamily: string,
                             fontWeight: string, textAlign: string)

  /** The document's paths; `width` and `height` are `None` when not set. */
  datatype ElementDoc = ElementDoc(
    elementType: string,
    x: Number,
    y: Number,
    styling: Styling,
    width: Option<int>,
    height: Option<int>)

  const ElementTypes: set<string> :=
    {"name", "email", "facebook", "linkedin", "twitter", "instagram", "mobile", "address", "logo", "website"}
  const FontWeights: set<string> := {"normal", "bold", "lighter"}
  const TextAligns: set<string> := {"left", "center", "right"}

  /** The styling the hook gives a logo element. */
  const LogoStyling := Styling(Some(0), "#000000", "Arial", "normal", "center")

  /**
   * `new FrameElement({elementType, position: {x, y}, styling: {...}})`: the
   * `lowercase` setter on the type, and the defaults of the styling paths not
   * given (`None`): font size 16, colour `#000000`, Arial, normal, left.
   */
  function NewElement(elementType: string, x: Number, y: Number,
                      fontSize: Option<Number>, fontColor: Option<string>): (d: ElementDoc)
    ensures d.elementType == Lower(elementType) && d.x == x && d.y == y
    ensures d.styling.fontSize == fontSize.GetOr(Some(16)) && d.styling.fontColor == fontColor.GetOr("#000000")
    ensures d.styling.fontFamily == "Arial" && d.styling.fontWeight == "normal" && d.styling.textAlign == "left"
    ensures d.width.None? && d.height.None?
  {
    ElementDoc(Lower(elementType), x, y,
               Styling(fontSize.GetOr(Some(16)), fontColor.GetOr("#000000"), "Arial", "normal", "left"), None, None)
  }

  /** The defaults alone pass the styling checks: an element given only its type and position is valid. */
  lemma DefaultStylingValid(elementType: string, x: int, y: int)
    requires Lower(elementType) in ElementTypes
    ensures Valid(NewElement(elementType, Some(x), Some(y), None, None))
  {
    assert IsHexDigit("#000000"[1]);
  }

  predicate IsHexDigit(c: char) {
    IsDigit(c) || 'a' <= c <= 'f' || 'A' <= c <= 'F'
  }

  /** `/^#([A-Fa-f0-9]{6}|[A-Fa-f0-9]{3})$/`. */
  predicate IsHexColor(s: string) {
    (|s| == 4 || |s| == 7) && s[0] == '#' && forall k :: 1 <= k < |s| ==> IsHexDigit(s[k])
  }

  /** `match` as Mongoose runs it: an empty string passes without the regex. */
  predicate ColorOk(s: string) {
    s == "" || IsHexColor(s)
  }

  /** `min: 8, max: 72` on a number that cast. */
  predicate FontSizeOk(n: Number) {
    n.Some? && 8 <= n.value <= 72
  }

  /** `min: 10` on an optional dimension. */
  predicate DimensionOk(n: Option<int>) {
    n.None? || n.value >= 10
  }

  /**
   * The paths that fail validation, in schema order. `elementType` fails when it
   * is empty (`required`) or outside the enum; `position.x` and `position.y` when
   * they are missing or not numbers.
   */
  function ValidationFailures(d: ElementDoc): (paths: seq<string>)
    ensures paths == [] <==> Valid(d)
    ensures "styling.fontSize" in paths <==> !FontSizeOk(d.styling.fontSize)
    ensures "styling.fontColor" in paths <==> !ColorOk(d.styling.fontColor)
    ensures "elementType" in paths <==> d.elementType !in ElementTypes
  {
    TypeAndPositionFailures(d) + StylingFailures(d.styling) + DimensionFailures(d)
  }

  /** The failing paths among `elementType`, `position.x` and `position.y`. */
  function TypeAndPositionFailures(d: ElementDoc): (paths: seq<string>)
    ensures paths == [] <==> d.elementType in ElementTypes && d.x.Some? && d.y.Some?
    ensures "elementType" in paths <==> d.elementType !in ElementTypes
    ensures "styling.fontSize" !in paths && "styling.fontColor" !in paths
  {
    (if d.elementType in ElementTypes then [] else ["elementType"])
    + (if d.x.Some? then [] else ["position.x"])
    + (if d.y.Some? then [] else ["position.y"])
  }

  /** The failing paths under `styling`. */
  function StylingFailures(st: Styling): (paths: seq<string>)
    ensures paths == [] <==> (FontSizeOk(st.fontSize) && ColorOk(st.fontColor)
                              && st.fontWeight in FontWeights && st.textAlign in TextAligns)
    ensures "styling.fontSize" in paths <==> !FontSizeOk(st.fontSize)
    ensures "styling.fontColor" in paths <==> !ColorOk(st.fontColor)
    ensures "elementType" !in paths
  {
    (if FontSizeOk(st.fontSize) then [] else ["styling.fontSize"])
    + (if ColorOk(st.fontColor) then [] else ["styling.fontColor"])
    + (if st.fontWeight in FontWeights then [] else ["styling.fontWeight"])
    + (if st.textAlign in TextAligns then [] else ["styling.textAlign"])
  }

  /** The failing paths under `dimensions`. */
  function DimensionFailures(d: ElementDoc): (paths: seq<string>)
    ensures paths == [] <==> DimensionOk(d.width) && DimensionOk(d.height)
    ensures "elementType" !in paths && "styling.fontSize" !in paths && "styling.fontColor" !in paths
  {
    (if DimensionOk(d.width) then [] else ["dimensions.width"])
    + (if DimensionOk(d.height) then [] else ["dimensions.height"])
  }

  /** Every schema constraint on the modelled paths holds; `frameId` is not one of them. */
  predicate Valid(d: ElementDoc) {
    d.elementType in ElementTypes && d.x.Some? && d.y.Some?
    && FontSizeOk(d.styling.fontSize) && ColorOk(d.styling.fontColor)
    && d.styling.fontWeight in FontWeights && d.styling.textAlign in TextAligns
    && DimensionOk(d.width) && DimensionOk(d.height)
  }

  /** The document after the pre-save hook. */
  function AfterHook(d: ElementDoc): (r: ElementDoc)
    ensures r.elementType == d.elementType && r.x == d.x && r.y == d.y
    ensures r.width == d.width && r.height == d.height
    ensures d.elementType == "logo" ==> r.styling == LogoStyling
    ensures d.elementType != "logo" ==> r == d
  {
    if d.elementType == "logo" then d.(styling := LogoStyling) else d
  }

  /** A document being saved. */
  class FrameElementDoc {
    var doc: ElementDoc

    constructor (d: ElementDoc)
      ensures doc == d
    {
      doc := d;
    }

    /** The pre-save hook (FrameElement.js:43-55): a logo's styling is replaced, nothing else changes. */
    method PreSave()
      modifies this
      ensures doc == AfterHook(old(doc))
    {
      if doc.elementType == "logo" {
        doc := doc.(styling := LogoStyling);
      }
    }

    /** `save()`: validation first, then the hook; a document that fails is left as it was. */
    method Save() returns (failures: seq<string>)
      modifies this
      ensures failures == ValidationFailures(old(doc))
      ensures doc == (if failures == [] then AfterHook(old(doc)) else old(doc))
    {
      failures := ValidationFailures(doc);
      if failures == [] {
        PreSave();
      }
    }
  }

  /** Running the hook twice is running it once. */
  lemma HookIdempotent(d: ElementDoc)
    ensures AfterHook(AfterHook(d)) == AfterHook(d)
  {
  }

  /**
   * The hook's own logo styling would not pass the schema's range: a logo that
   * reaches the hook did so with a font size of at least 8, and leaves it with 0.
   */
  lemma LogoStylingOutOfRange()
    ensures !FontSizeOk(LogoStyling.fontSize)
    ensures IsHexColor(LogoStyling.fontColor)
  {
  }

  /** A logo document built with font size 0 fails validation, so its save is refused. */
  lemma LogoWithZeroFontSizeRejected(x: Number, y: Number, fontColor: string)
    ensures "styling.fontSize" in ValidationFailures(NewElement("logo", x, y, Some(Some(0)), Some(fontColor)))
  {
  }

  /**
   * An empty colour is not a failure: it stays `""` (the default applies only to a
   * missing value) and `match` does not test it, so an element valid with some
   * colour stays valid with `""`.
   */
  lemma EmptyColorAccepted(t: string, x: Number, y: Number, fontSize: Option<Number>)
    ensures "styling.fontColor" !in ValidationFailures(NewElement(t, x, y, fontSize, Some("")))
    ensures forall c :: Valid(NewElement(t, x, y, fontSize, Some(c))) ==> Valid(NewElement(t, x, y, fontSize, Some("")))
  {
  }
}
