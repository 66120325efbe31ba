/**
 * The design editor of the customizer page (`client/src/pages/CustomizePage.jsx`).
 * The page holds one `design` state, `{backgroundImage, backgroundColor,
 * elements}`, that every handler replaces through `setDesign`; here it is a
 * class whose fields are the design's three parts, with one method per handler.
 * An element is a plain object, a map from property names to values, since
 * the change handler writes any property by name. `Date.now()`, the
 * `FileReader` result and the pointer coordinates are parameters.
 */
module CustomizePage {
  import opened Js

  /** An element of the design: a plain object. */
  type Element = map<string, JsValue>

  /** `element.id`. */
  function IdOf(e: Element): JsValue {
    if "id" in e then e["id"] else Undefined
  }

  /** `element.id === elementId`. */
  predicate Matches(e: Element, id: JsValue) {
    StrictEquals(IdOf(e), id)
  }

  // ---------------------------------------------------------------------------
  // Element updates

  /**
   * The element list after `handleElementChange(id, property, value)`
   * (CustomizePage.jsx:64-71): every element whose id is `id` gets `property`
   * set to `value`; the others, and the order, stay as they are.
   */
  function ChangeElement(es: seq<Element>, id: JsValue, property: string, value: JsValue): (r: seq<Element>)
    ensures |r| == |es|
    ensures forall i :: 0 <= i < |es| && Matches(es[i], id) ==> r[i] == es[i][property := value]
    ensures forall i :: 0 <= i < |es| && !Matches(es[i], id) ==> r[i] == es[i]
  {
    seq(|es|, i requires 0 <= i < |es| => if Matches(es[i], id) then es[i][property := value] else es[i])
  }

  /** A change of a property other than `id` keeps every element's id, so it matches the same elements. */
  lemma ChangeKeepsIds(es: seq<Element>, id: JsValue, property: string, value: JsValue)
    requires property != "id"
    ensures forall i :: 0 <= i < |es| ==> IdOf(ChangeElement(es, id, property, value)[i]) == IdOf(es[i])
  {
  }

  /** Naming an id no element has changes nothing. */
  lemma ChangeUnknownIdIsNoop(es: seq<Element>, id: JsValue, property: string, value: JsValue)
    requires forall i :: 0 <= i < |es| ==> !Matches(es[i], id)
    ensures ChangeElement(es, id, property, value) == es
  {
  }

  /** Of two changes of the same property of the same element, the later one wins. */
  lemma ChangeLastWins(es: seq<Element>, id: JsValue, property: string, v1: JsValue, v2: JsValue)
    requires property != "id"
    ensures ChangeElement(ChangeElement(es, id, property, v1), id, property, v2) == ChangeElement(es, id, property, v2)
  {
    var once := ChangeElement(es, id, property, v1);
    ChangeKeepsIds(es, id, property, v1);
    var twice := ChangeElement(once, id, property, v2);
    forall i | 0 <= i < |es| ensures twice[i] == ChangeElement(es, id, property, v2)[i] {
      if Matches(es[i], id) {
        assert twice[i] == es[i][property := v1][property := v2];
        assert es[i][property := v1][property := v2] == es[i][property := v2];
      }
    }
  }

  /** Changes of two different properties commute. */
  lemma ChangesCommute(es: seq<Element>, id: JsValue, p: string, q: string, v: JsValue, w: JsValue)
    requires p != "id" && q != "id" && p != q
    ensures ChangeElement(ChangeElement(es, id, p, v), id, q, w) == ChangeElement(ChangeElement(es, id, q, w), id, p, v)
  {
    ChangeKeepsIds(es, id, p, v);
    ChangeKeepsIds(es, id, q, w);
    var pq := ChangeElement(ChangeElement(es, id, p, v), id, q, w);
    var qp := ChangeElement(ChangeElement(es, id, q, w), id, p, v);
    forall i | 0 <= i < |es| ensures pq[i] == qp[i] {
      if Matches(es[i], id) {
        assert pq[i] == es[i][p := v][q := w];
        assert qp[i] == es[i][q := w][p := v];
      }
    }
  }

  /** `Math.max(0, n)`. */
  function NonNegative(n: int): (r: int)
    ensures r >= 0 && (r == n || r == 0) && (n >= 0 ==> r == n)
  {
    if n > 0 then n else 0
  }

  /** The list after a drop (CustomizePage.jsx:477-483): `x`, then `y`, each clamped at 0. */
  function Dropped(es: seq<Element>, id: JsValue, clientX: int, clientY: int, left: int, top: int): seq<Element> {
    ChangeElement(ChangeElement(es, id, "x", Num(NonNegative(clientX - left))), id, "y", Num(NonNegative(clientY - top)))
  }

  /** A drop writes non-negative coordinates into exactly the dragged elements and leaves the rest alone. */
  lemma DropIsNonNegative(es: seq<Element>, id: JsValue, clientX: int, clientY: int, left: int, top: int)
    ensures |Dropped(es, id, clientX, clientY, left, top)| == |es|
    ensures forall i :: 0 <= i < |es| && Matches(es[i], id) ==>
      var e := Dropped(es, id, clientX, clientY, left, top)[i];
      "x" in e && "y" in e && e["x"].Num? && e["y"].Num? && e["x"].n >= 0 && e["y"].n >= 0
      && e == es[i]["x" := e["x"]]["y" := e["y"]]
    ensures forall i :: 0 <= i < |es| && !Matches(es[i], id) ==> Dropped(es, id, clientX, clientY, left, top)[i] == es[i]
  {
    ChangeKeepsIds(es, id, "x", Num(NonNegative(clientX - left)));
  }

  // ---------------------------------------------------------------------------
  // New elements

  /** The element `addTextElement` appends (CustomizePage.jsx:73-89). */
  function TextElement(now: int): Element {
    map["id" := Num(now), "type" := Str("text"), "content" := Str("New Text"),
        "x" := Num(100), "y" := Num(200), "fontSize" := Num(16), "fontFamily" := Str("Inter"),
        "color" := Str("#000000"), "fontWeight" := Str("normal")]
  }

  /** The image element a logo upload appends (CustomizePage.jsx:97-105). */
  function LogoElement(now: int, dataUrl: JsValue): Element {
    map["id" := Num(now), "type" := Str("image"), "src" := dataUrl,
        "x" := Num(300), "y" := Num(50), "width" := Num(100), "height" := Num(100)]
  }

  /** The three contact-detail buttons. */
  datatype Contact = Phone | Email | Website

  /** The placeholder text and the height of each contact element. */
  function ContactContent(c: Contact): string {
    match c
    case Phone => "+1 (555) 123-4567"
    case Email => "info@company.com"
    case Website => "www.company.com"
  }

  function ContactY(c: Contact): int {
    match c
    case Phone => 300
    case Email => 320
    case Website => 340
  }

  /** The element a contact button appends (CustomizePage.jsx:236-305). */
  function ContactElement(c: Contact, now: int): Element {
    map["id" := Num(now), "type" := Str("text"), "content" := Str(ContactContent(c)),
        "x" := Num(50), "y" := Num(ContactY(c)), "fontSize" := Num(14), "fontFamily" := Str("Inter"),
        "color" := Str("#666666"), "fontWeight" := Str("normal")]
  }

  /** The contact elements stack at x 50, one below the other, in 14px grey. */
  lemma ContactElementsStack(now: int)
    ensures ContactElement(Phone, now)["y"].n < ContactElement(Email, now)["y"].n < ContactElement(Website, now)["y"].n
    ensures forall c: Contact :: (ContactElement(c, now)["x"] == Num(50) && ContactElement(c, now)["fontSize"] == Num(14)
      && ContactElement(c, now)["color"] == Str("#666666"))
  {
  }

  /** The preset background colours (CustomizePage.jsx:348-357). */
  const PresetColors: seq<string> := ["#f3f4f6", "#dbeafe", "#dcfce7"]

  /** The page's fallback when it is opened without a template in the navigation state. */
  function DefaultTemplate(templateId: JsValue): (t: JsValue)
    ensures Truthy(t) && Get(t, "id") == templateId && Get(t, "name") == Str("Custom Template")
  {
    Obj(map["id" := templateId, "name" := Str("Custom Template"), "thumbnail" := Str(DefaultThumbnail)])
  }

  const DefaultThumbnail: string :=
    "https://images.pexels.com/photos/1029141/pexels-photo-1029141.jpeg?auto=compress&cs=tinysrgb&w=800"

  /** The two text elements a fresh design starts with (CustomizePage.jsx:34-57). */
  const InitialElements: seq<Element> := [
    map["id" := Num(1), "type" := Str("text"), "content" := Str("Your Brand Name"),
        "x" := Num(50), "y" := Num(50), "fontSize" := Num(32), "fontFamily" := Str("Inter"),
        "color" := Str("#000000"), "fontWeight" := Str("bold")],
    map["id" := Num(2), "type" := Str("text"), "content" := Str("Your inspiring quote goes here"),
        "x" := Num(50), "y" := Num(120), "fontSize" := Num(18), "fontFamily" := Str("Inter"),
        "color" := Str("#333333"), "fontWeight" := Str("normal")]
  ]

  /** The design as the plain object the page holds. */
  function DesignObject(backgroundImage: JsValue, backgroundColor: JsValue, elements: seq<Element>): (d: JsValue)
    ensures Get(d, "backgroundImage") == backgroundImage && Get(d, "backgroundColor") == backgroundColor
    ensures Get(d, "elements") == Arr(ElementObjects(elements))
    ensures forall k :: k in Spread(d) <==> k == "backgroundImage" || k == "backgroundColor" || k == "elements"
  {
    Obj(map["backgroundImage" := backgroundImage, "backgroundColor" := backgroundColor,
            "elements" := Arr(ElementObjects(elements))])
  }

  /** The elements as the array of objects the design holds. */
  function ElementObjects(elements: seq<Element>): (items: seq<JsValue>)
    ensures |items| == |elements| && forall i :: 0 <= i < |elements| ==> items[i] == Obj(elements[i])
  {
    seq(|elements|, i requires 0 <= i < |elements| => Obj(elements[i]))
  }

  /** `{...design, name, templateId, thumbnail}` (CustomizePage.jsx:120-129). */
  function SavePayload(design: JsValue, template: JsValue): (p: JsValue)
    ensures p.Obj?
    ensures Get(p, "name") == Str(ToStr(Get(template, "name")) + " - Custom")
    ensures Get(p, "templateId") == Get(template, "id") && Get(p, "thumbnail") == Get(template, "thumbnail")
    ensures forall k :: k != "name" && k != "templateId" && k != "thumbnail" ==> Get(p, k) == Get(design, k)
  {
    Obj(Spread(design) + map["name" := Str(ToStr(Get(template, "name")) + " - Custom"),
                             "templateId" := Get(template, "id"),
                             "thumbnail" := Get(template, "thumbnail")])
  }

  /** The page's state. */
  class DesignEditor {
    /** `location.state?.template || {id: templateId, ...}`. */
    const template: JsValue
    var backgroundImage: JsValue
    var backgroundColor: JsValue
    var elements: seq<Element>
    /** The `logo` state, the data URL of the last logo read. */
    var logo: JsValue

    /** The first render (CustomizePage.jsx:25-62). */
    constructor (locationState: JsValue, templateId: JsValue)
      ensures template == Or(Get(locationState, "template"), DefaultTemplate(templateId))
      ensures backgroundImage == Get(template, "thumbnail") && backgroundColor == Str("#ffffff")
      ensures elements == InitialElements && logo == Null
    {
      template := Or(Get(locationState, "template"), DefaultTemplate(templateId));
      backgroundImage := Get(Or(Get(locationState, "template"), DefaultTemplate(templateId)), "thumbnail");
      backgroundColor := Str("#ffffff");
      elements := InitialElements;
      logo := Null;
    }

    function Design(): JsValue
      reads this
    {
      DesignObject(backgroundImage, backgroundColor, elements)
    }

    /** `handleElementChange` (CustomizePage.jsx:64-71). */
    method HandleElementChange(id: JsValue, property: string, value: JsValue)
      modifies this
      ensures elements == ChangeElement(old(elements), id, property, value)
      ensures backgroundImage == old(backgroundImage) && backgroundColor == old(backgroundColor) && logo == old(logo)
    {
      elements := ChangeElement(elements, id, property, value);
    }

    /** `addTextElement` (CustomizePage.jsx:73-89): one element more, at the end. */
    method AddTextElement(now: int)
      modifies this
      ensures elements == old(elements) + [TextElement(now)]
      ensures backgroundImage == old(backgroundImage) && backgroundColor == old(backgroundColor) && logo == old(logo)
    {
      elements := elements + [TextElement(now)];
    }

    /** `handleLogoUpload` (CustomizePage.jsx:91-113): nothing happens without a file. */
    method HandleLogoUpload(hasFile: bool, now: int, dataUrl: JsValue)
      modifies this
      ensures hasFile ==> elements == old(elements) + [LogoElement(now, dataUrl)] && logo == dataUrl
      ensures !hasFile ==> elements == old(elements) && logo == old(logo)
      ensures backgroundImage == old(backgroundImage) && backgroundColor == old(backgroundColor)
    {
      if hasFile {
        logo := dataUrl;
        elements := elements + [LogoElement(now, dataUrl)];
      }
    }

    /** The Add Phone Number, Add Email and Add Website buttons (CustomizePage.jsx:236-305). */
    method AddContact(c: Contact, now: int)
      modifies this
      ensures elements == old(elements) + [ContactElement(c, now)]
      ensures backgroundImage == old(backgroundImage) && backgroundColor == old(backgroundColor) && logo == old(logo)
    {
      elements := elements + [ContactElement(c, now)];
    }

    /** The colour picker (CustomizePage.jsx:320): only the background colour changes. */
    method SetBackgroundColor(color: JsValue)
      modifies this
      ensures backgroundColor == color
      ensures elements == old(elements) && backgroundImage == old(backgroundImage) && logo == old(logo)
    {
      backgroundColor := color;
    }

    /** A preset swatch (CustomizePage.jsx:348-357). */
    method ApplyPreset(k: nat)
      requires k < |PresetColors|
      modifies this
      ensures backgroundColor == Str(PresetColors[k])
      ensures elements == old(elements) && backgroundImage == old(backgroundImage) && logo == old(logo)
    {
      SetBackgroundColor(Str(PresetColors[k]));
    }

    /** The background image input (CustomizePage.jsx:332-341): nothing happens without a file. */
    method UploadBackgroundImage(hasFile: bool, dataUrl: JsValue)
      modifies this
      ensures backgroundImage == (if hasFile then dataUrl else old(backgroundImage))
      ensures elements == old(elements) && backgroundColor == old(backgroundColor) && logo == old(logo)
    {
      if hasFile {
        backgroundImage := dataUrl;
      }
    }

    /** `onDragEnd` (CustomizePage.jsx:477-483): two changes, `x` then `y`. */
    method DragEnd(id: JsValue, clientX: int, clientY: int, rectLeft: int, rectTop: int)
      modifies this
      ensures elements == Dropped(old(elements), id, clientX, clientY, rectLeft, rectTop)
      ensures backgroundImage == old(backgroundImage) && backgroundColor == old(backgroundColor) && logo == old(logo)
    {
      HandleElementChange(id, "x", Num(NonNegative(clientX - rectLeft)));
      HandleElementChange(id, "y", Num(NonNegative(clientY - rectTop)));
    }

    /** `saveCurrentDesign` (CustomizePage.jsx:120-129): the object handed to `saveDesign`. */
    method SaveCurrentDesign() returns (payload: JsValue)
      ensures payload == SavePayload(Design(), template)
      ensures Get(payload, "backgroundImage") == backgroundImage && Get(payload, "backgroundColor") == backgroundColor
      ensures Get(payload, "templateId") == Get(template, "id")
    {
      payload := SavePayload(Design(), template);
    }
  }

  /** A page opened without navigation state names its design after `Custom Template`, with the route's id. */
  lemma DefaultTemplateNames(templateId: JsValue)
    ensures Get(SavePayload(DesignObject(Null, Null, []), Or(Get(Undefined, "template"), DefaultTemplate(templateId))), "name")
         == Str("Custom Template - Custom")
    ensures Get(SavePayload(DesignObject(Null, Null, []), Or(Get(Undefined, "template"), DefaultTemplate(templateId))), "templateId")
         == templateId
  {
    var t := DefaultTemplate(templateId);
    assert Or(Get(Undefined, "template"), t) == t;
    assert ToStr(Get(t, "name")) + " - Custom" == "Custom Template - Custom";
  }
}
