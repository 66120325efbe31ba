/**
 * The template store of the client (`client/src/contexts/TemplateContext.jsx`):
 * the reducer behind `dispatch`, the initial state, the mapping of the
 * server's templates and categories on mount, the payload `saveDesign` builds
 * for the server, the loading of saved designs, and `getFilteredTemplates`.
 * Server responses, `Date.now()` and the stored token are parameters; a
 * `None` result is a TypeError the handler throws.
 */
module TemplateContext {
  import opened Wrappers
  import opened Js
  import opened Seqs
  import CustomizePage

  /** A template as the store keeps it (TemplateContext.jsx:82-94). */
  datatype Card = Card(id: JsValue, name: string, category: string, thumbnail: string,
                       trending: bool, latest: bool)

  datatype TemplateState = TemplateState(
    templates: seq<Card>,
    categories: seq<JsValue>,
    filters: map<string, JsValue>,
    savedDesigns: seq<JsValue>)

  datatype Action =
    | SetTemplates(cards: seq<Card>)
    | SetCategories(names: seq<JsValue>)
    | SetFilters(filterPayload: JsValue)
    | SaveDesign(design: JsValue)
    | UpdateDesign(updated: JsValue)
    | DeleteDesign(designId: JsValue)
    | UnknownAction(actionType: string)

  /** The state the provider starts from (TemplateContext.jsx:55-64). */
  const Initial := TemplateState([], [Str("All")],
    map["category" := Str("All"), "search" := Str(""), "sortBy" := Str("popularity")], [])

  /** `design.id === payload.id`, as `UPDATE_DESIGN` compares. */
  predicate SameId(design: JsValue, other: JsValue) {
    StrictEquals(Get(design, "id"), Get(other, "id"))
  }

  /** `savedDesigns.map(d => d.id === payload.id ? payload : d)`. */
  function ReplaceById(ds: seq<JsValue>, payload: JsValue): (r: seq<JsValue>)
    ensures |r| == |ds|
    ensures forall i :: 0 <= i < |ds| && SameId(ds[i], payload) ==> r[i] == payload
    ensures forall i :: 0 <= i < |ds| && !SameId(ds[i], payload) ==> r[i] == ds[i]
  {
    seq(|ds|, i requires 0 <= i < |ds| => if SameId(ds[i], payload) then payload else ds[i])
  }

  /** `design.id !== id`, the test `DELETE_DESIGN` keeps a design by. */
  predicate KeepOnDelete(id: JsValue, design: JsValue) {
    !StrictEquals(Get(design, "id"), id)
  }

  /** `savedDesigns.filter((d) => d.id !== id)`. */
  function KeptOnDelete(ds: seq<JsValue>, id: JsValue): seq<JsValue> {
    Filter(ds, d => KeepOnDelete(id, d))
  }

  /** `templateReducer` (TemplateContext.jsx:11-50). */
  function Reduce(s: TemplateState, a: Action): (r: TemplateState)
    ensures a.SetTemplates? ==> r == s.(templates := a.cards)
    ensures a.SetCategories? ==> r == s.(categories := a.names)
    ensures a.SetFilters? ==> (r.(filters := s.filters) == s
      && (forall k :: k in r.filters <==> k in s.filters || k in Spread(a.filterPayload))
      && (forall k :: k in Spread(a.filterPayload) ==> r.filters[k] == Spread(a.filterPayload)[k])
      && (forall k :: k in s.filters && k !in Spread(a.filterPayload) ==> r.filters[k] == s.filters[k]))
    ensures a.SaveDesign? ==> r == s.(savedDesigns := s.savedDesigns + [a.design])
    ensures a.UpdateDesign? ==> r == s.(savedDesigns := ReplaceById(s.savedDesigns, a.updated))
    ensures a.DeleteDesign? ==> (r.(savedDesigns := s.savedDesigns) == s
      && r.savedDesigns == KeptOnDelete(s.savedDesigns, a.designId)
      && IsSubsequence(r.savedDesigns, s.savedDesigns)
      && (forall d :: d in r.savedDesigns <==> d in s.savedDesigns && KeepOnDelete(a.designId, d)))
    ensures a.UnknownAction? ==> r == s
  {
    match a
    case SetTemplates(cards) => s.(templates := cards)
    case SetCategories(names) => s.(categories := names)
    case SetFilters(payload) => s.(filters := s.filters + Spread(payload))
    case SaveDesign(d) => s.(savedDesigns := s.savedDesigns + [a.design])
    case UpdateDesign(d) => s.(savedDesigns := ReplaceById(s.savedDesigns, d))
    case DeleteDesign(id) =>
      var kept := KeptOnDelete(s.savedDesigns, id);
      FilterIsSubsequence(s.savedDesigns, d => KeepOnDelete(id, d));
      DeleteKeepsOthers(s.savedDesigns, id);
      s.(savedDesigns := kept)
    case UnknownAction(_) => s
  }

  lemma DeleteKeepsOthers(ds: seq<JsValue>, id: JsValue)
    ensures forall d :: d in Filter(ds, x => KeepOnDelete(id, x)) <==> d in ds && KeepOnDelete(id, d)
  {
    forall d | d in ds && KeepOnDelete(id, d) ensures d in Filter(ds, x => KeepOnDelete(id, x)) {
      FilterKeeps(ds, x => KeepOnDelete(id, x), d);
    }
  }

  /** Merging an empty object leaves the filters as they are (TemplateContext.jsx:183). */
  lemma EmptyFiltersChangeNothing(s: TemplateState)
    ensures Reduce(s, SetFilters(Obj(map[]))) == s
  {
    assert s.filters + map[] == s.filters;
  }

  /** Deleting an id no design has changes nothing. */
  lemma DeleteUnknownIdIsNoop(s: TemplateState, id: JsValue)
    requires forall i :: 0 <= i < |s.savedDesigns| ==> KeepOnDelete(id, s.savedDesigns[i])
    ensures Reduce(s, DeleteDesign(id)) == s
  {
    FilterAll(s.savedDesigns, d => KeepOnDelete(id, d));
  }

  /**
   * An update whose payload has no `id` replaces every design that has none
   * either: `undefined === undefined`.
   */
  lemma UpdateWithoutIdReplacesIdless(s: TemplateState, payload: JsValue, i: nat)
    requires Get(payload, "id").Undefined? && i < |s.savedDesigns| && Get(s.savedDesigns[i], "id").Undefined?
    ensures Reduce(s, UpdateDesign(payload)).savedDesigns[i] == payload
  {
  }

  /** Dispatching a list of actions one after the other, as `list.forEach(dispatch)` does. */
  function DispatchAll(s: TemplateState, actions: seq<Action>): TemplateState
    decreases |actions|
  {
    if actions == [] then s else DispatchAll(Reduce(s, actions[0]), actions[1..])
  }

  function SaveActions(ds: seq<JsValue>): (r: seq<Action>)
    ensures |r| == |ds| && forall i :: 0 <= i < |ds| ==> r[i] == SaveDesign(ds[i])
  {
    seq(|ds|, i requires 0 <= i < |ds| => SaveDesign(ds[i]))
  }

  /** One `SAVE_DESIGN` per design appends them all, in order, and changes nothing else. */
  lemma {:induction false} SavesAppend(s: TemplateState, ds: seq<JsValue>)
    ensures DispatchAll(s, SaveActions(ds)) == s.(savedDesigns := s.savedDesigns + ds)
    decreases |ds|
  {
    if ds != [] {
      var s1 := Reduce(s, SaveDesign(ds[0]));
      assert SaveActions(ds)[1..] == SaveActions(ds[1..]);
      SavesAppend(s1, ds[1..]);
      assert s.savedDesigns + [ds[0]] + ds[1..] == s.savedDesigns + ds;
    } else {
      assert s.savedDesigns + ds == s.savedDesigns;
    }
  }

  // ---------------------------------------------------------------------------
  // getFilteredTemplates

  /** The search test: the lowercased name or category contains the lowercased term. */
  predicate SearchHit(t: Card, term: string) {
    Contains(Lower(t.name), Lower(term)) || Contains(Lower(t.category), Lower(term))
  }

  predicate CategoryHit(t: Card, category: JsValue) {
    StrictEquals(Str(t.category), category)
  }

  function FilterValue(s: TemplateState, key: string): JsValue {
    if key in s.filters then s.filters[key] else Undefined
  }

  function ByCategory(s: TemplateState): seq<Card> {
    var category := FilterValue(s, "category");
    if StrictEquals(category, Str("All")) then s.templates
    else Filter(s.templates, t => CategoryHit(t, category))
  }

  /**
   * `getFilteredTemplates` (TemplateContext.jsx:189-211). A truthy search that
   * is not a string has no `toLowerCase`: the call throws once a template
   * reaches the search filter.
   */
  function FilteredTemplates(s: TemplateState): (r: Option<seq<Card>>)
    ensures r.None? <==> (Truthy(FilterValue(s, "search")) && !FilterValue(s, "search").Str? && ByCategory(s) != [])
  {
    var byCategory := ByCategory(s);
    var search := FilterValue(s, "search");
    if !Truthy(search) then Some(byCategory)
    else if !search.Str? then (if byCategory == [] then Some([]) else None)
    else Some(Filter(byCategory, t => SearchHit(t, search.s)))
  }

  /** The filters keep templates in their order and never add one. */
  lemma FilteredIsSubsequence(s: TemplateState)
    requires FilteredTemplates(s).Some?
    ensures IsSubsequence(FilteredTemplates(s).value, s.templates)
  {
    var category := FilterValue(s, "category");
    var search := FilterValue(s, "search");
    var cat := (t: Card) => CategoryHit(t, category);
    if StrictEquals(category, Str("All")) {
      if Truthy(search) && search.Str? {
        FilterIsSubsequence(s.templates, t => SearchHit(t, search.s));
      } else {
        IsSubsequenceRefl(s.templates);
      }
    } else {
      if Truthy(search) && search.Str? {
        var hit := (t: Card) => SearchHit(t, search.s);
        var both := (t: Card) => cat(t) && hit(t);
        FilterFilter(s.templates, cat, hit, both);
        FilterIsSubsequence(s.templates, both);
      } else if !Truthy(search) {
        FilterIsSubsequence(s.templates, cat);
      }
    }
  }

  lemma {:induction false} IsSubsequenceRefl<T>(s: seq<T>)
    ensures IsSubsequence(s, s)
    decreases |s|
  {
    if s != [] {
      IsSubsequenceRefl(s[1..]);
    }
  }

  /**
   * With a falsy or string search, a template is shown iff it passes the category
   * test (none under `All`) and, for a truthy term, the search test.
   */
  lemma FilteredMembership(s: TemplateState, t: Card)
    requires Truthy(FilterValue(s, "search")) ==> FilterValue(s, "search").Str?
    ensures FilteredTemplates(s).Some?
    ensures t in FilteredTemplates(s).value <==>
      (t in s.templates
       && (StrictEquals(FilterValue(s, "category"), Str("All")) || CategoryHit(t, FilterValue(s, "category")))
       && (!Truthy(FilterValue(s, "search")) || SearchHit(t, FilterValue(s, "search").s)))
  {
    var category := FilterValue(s, "category");
    var search := FilterValue(s, "search");
    var byCategory := ByCategory(s);
    var cat := (x: Card) => CategoryHit(x, category);
    if !StrictEquals(category, Str("All")) && t in s.templates && CategoryHit(t, category) {
      FilterKeeps(s.templates, cat, t);
    }
    assert t in byCategory <==> t in s.templates && (StrictEquals(category, Str("All")) || CategoryHit(t, category));
    if Truthy(search) && t in byCategory && SearchHit(t, search.s) {
      FilterKeeps(byCategory, x => SearchHit(x, search.s), t);
    }
  }

  /** Under the initial filters every template is shown. */
  lemma InitialFiltersShowAll(templates: seq<Card>)
    ensures FilteredTemplates(Initial.(templates := templates)) == Some(templates)
  {
  }

  // ---------------------------------------------------------------------------
  // Loading templates and categories

  /** `new Date(t.createdAt).getTime()`: absent, a time in milliseconds, or an unparsable date (NaN). */
  datatype CreatedAt = NoDate | Time(ms: int) | InvalidDate

  /** The fields of a server template the mapping reads; `""` stands for an absent or empty string. */
  datatype ServerTemplate = ServerTemplate(
    serverId: JsValue,
    name: string,
    createdAt: CreatedAt,
    categoryName: string,
    legacyCategoryName: string,
    imageUrl: string,
    cloudinaryUrl: string,
    imagePath: string,
    isFeatured: JsValue)

  const FourteenDaysMs: int := 14 * 24 * 60 * 60 * 1000

  /** The card of one server template (TemplateContext.jsx:79-95). */
  function CardOf(t: ServerTemplate, now: int, apiBaseUrl: string): (c: Card)
    ensures c.id == t.serverId && c.name == t.name
    ensures c.latest <==> (t.createdAt.NoDate? || (t.createdAt.Time? && now - t.createdAt.ms <= FourteenDaysMs))
    ensures c.trending <==> Truthy(t.isFeatured)
    ensures c.category == (if t.categoryName != "" then t.categoryName
                           else if t.legacyCategoryName != "" then t.legacyCategoryName else "General")
    ensures t.imageUrl != "" ==> c.thumbnail == t.imageUrl
    ensures t.imageUrl == "" && t.cloudinaryUrl != "" ==> c.thumbnail == t.cloudinaryUrl
    ensures t.imageUrl == "" && t.cloudinaryUrl == "" && t.imagePath != "" ==>
      c.thumbnail == apiBaseUrl + "/Template_images/" + t.imagePath
    ensures t.imageUrl == "" && t.cloudinaryUrl == "" && t.imagePath == "" ==> c.thumbnail == ""
  {
    var createdAt := match t.createdAt
      case NoDate => Num(now)
      case Time(ms) => Num(ms)
      case InvalidDate => NaN;
    var isLatest := createdAt.Num? && now - createdAt.n <= FourteenDaysMs;
    Card(t.serverId, t.name,
         if t.categoryName != "" then t.categoryName
         else if t.legacyCategoryName != "" then t.legacyCategoryName else "General",
         if t.imageUrl != "" then t.imageUrl
         else if t.cloudinaryUrl != "" then t.cloudinaryUrl
         else if t.imagePath != "" then apiBaseUrl + "/Template_images/" + t.imagePath else "",
         Truthy(t.isFeatured), isLatest)
  }

  /** `(tmplRes.templates || []).map(...)`: one card per template, in order. */
  function Cards(ts: Option<seq<ServerTemplate>>, now: int, apiBaseUrl: string): (cs: seq<Card>)
    ensures ts.None? ==> cs == []
    ensures ts.Some? ==> |cs| == |ts.value| && forall i :: 0 <= i < |cs| ==> cs[i] == CardOf(ts.value[i], now, apiBaseUrl)
  {
    if ts.None? then []
    else seq(|ts.value|, i requires 0 <= i < |ts.value| => CardOf(ts.value[i], now, apiBaseUrl))
  }

  /**
   * `["All", ...(catsRes.categories || []).map(c => c.name)]` (TemplateContext.jsx:75):
   * `None` when there is no array to map, or a category is `null` or `undefined`.
   */
  function CategoryList(categories: JsValue): (r: Option<seq<JsValue>>)
    ensures r.Some? ==> (Or(categories, Arr([])).Arr?
      && var list := Or(categories, Arr([])).items;
      |r.value| == |list| + 1 && r.value[0] == Str("All")
      && forall i :: 0 <= i < |list| ==> r.value[i + 1] == Get(list[i], "name"))
    ensures !Truthy(categories) ==> r == Some([Str("All")])
  {
    if !Truthy(categories) then Some([Str("All")])
    else if !categories.Arr? then None
    else
      var items := categories.items;
      if exists i :: 0 <= i < |items| && (items[i].Undefined? || items[i].Null?) then None
      else Some([Str("All")] + seq(|items|, i requires 0 <= i < |items| => Get(items[i], "name")))
  }

  /**
   * The mount effect (TemplateContext.jsx:67-103): categories, then templates;
   * a mapping that throws is caught and the state stays as it was.
   */
  function Load(s: TemplateState, categories: JsValue, templates: Option<seq<ServerTemplate>>,
                now: int, apiBaseUrl: string): (r: TemplateState)
    ensures CategoryList(categories).None? ==> r == s
    ensures CategoryList(categories).Some? ==>
      r == s.(categories := CategoryList(categories).value, templates := Cards(templates, now, apiBaseUrl))
  {
    match CategoryList(categories)
    case None => s
    case Some(names) =>
      Reduce(Reduce(s, SetCategories(names)), SetTemplates(Cards(templates, now, apiBaseUrl)))
  }

  // ---------------------------------------------------------------------------
  // saveDesign: the payload for the server

  /** `el.f || d`. */
  function FieldOr(el: JsValue, key: string, d: JsValue): JsValue {
    Or(Get(el, key), d)
  }

  /** One element of the payload (TemplateContext.jsx:125-141). */
  function NormaliseElement(el: JsValue): (r: JsValue)
    ensures Get(r, "type") == Get(el, "type") && Get(r, "content") == Get(el, "content") && Get(r, "src") == Get(el, "src")
    ensures Get(r, "position") == ElementPosition(el) && Get(r, "dimensions") == ElementDimensions(el)
    ensures Get(r, "styling") == ElementStyling(el)
  {
    ElementObject(Get(el, "type"), Get(el, "content"), Get(el, "src"),
                  ElementPosition(el), ElementDimensions(el), ElementStyling(el))
  }

  /** The object literal of one payload element, given its six parts. */
  function ElementObject(elementType: JsValue, content: JsValue, src: JsValue,
                         position: JsValue, dimensions: JsValue, styling: JsValue): (r: JsValue)
    ensures Get(r, "type") == elementType && Get(r, "content") == content && Get(r, "src") == src
    ensures Get(r, "position") == position && Get(r, "dimensions") == dimensions && Get(r, "styling") == styling
  {
    Obj(map["type" := elementType, "content" := content, "src" := src,
            "position" := position, "dimensions" := dimensions, "styling" := styling])
  }

  /** The element's `position`, each coordinate defaulting to 0. */
  function ElementPosition(el: JsValue): (r: JsValue)
    ensures Get(r, "x") == FieldOr(el, "x", Num(0)) && Get(r, "y") == FieldOr(el, "y", Num(0))
  {
    Obj(map["x" := FieldOr(el, "x", Num(0)), "y" := FieldOr(el, "y", Num(0)), "z" := FieldOr(el, "z", Num(0))])
  }

  /** The element's `dimensions`, 100 by 50 by default. */
  function ElementDimensions(el: JsValue): (r: JsValue)
    ensures Get(r, "width") == FieldOr(el, "width", Num(100)) && Get(r, "height") == FieldOr(el, "height", Num(50))
  {
    Size(FieldOr(el, "width", Num(100)), FieldOr(el, "height", Num(50)))
  }

  /** A `{width, height}` object literal. */
  function Size(width: JsValue, height: JsValue): (r: JsValue)
    ensures Get(r, "width") == width && Get(r, "height") == height
  {
    Obj(map["width" := width, "height" := height])
  }

  /** The element's `styling`; a non-number opacity becomes 1. */
  function ElementStyling(el: JsValue): (r: JsValue)
    ensures Get(r, "fontSize") == FieldOr(el, "fontSize", Num(16))
    ensures Get(r, "fontFamily") == FieldOr(el, "fontFamily", Str("Inter"))
    ensures Get(r, "color") == FieldOr(el, "color", Str("#000000"))
    ensures Get(r, "opacity") == (if IsNumber(Get(el, "opacity")) then Get(el, "opacity") else Num(1))
  {
    Obj(map[
      "fontSize" := FieldOr(el, "fontSize", Num(16)),
      "fontFamily" := FieldOr(el, "fontFamily", Str("Inter")),
      "fontWeight" := FieldOr(el, "fontWeight", Str("normal")),
      "color" := FieldOr(el, "color", Str("#000000")),
      "backgroundColor" := FieldOr(el, "backgroundColor", Str("transparent")),
      "borderRadius" := FieldOr(el, "borderRadius", Num(0)),
      "opacity" := if IsNumber(Get(el, "opacity")) then Get(el, "opacity") else Num(1),
      "rotation" := FieldOr(el, "rotation", Num(0))])
  }

  /** `design.elements || []`, when it is an array none of whose items is `null` or `undefined`. */
  predicate MappableElements(design: JsValue) {
    var els := Or(Get(design, "elements"), Arr([]));
    els.Arr? && forall i :: 0 <= i < |els.items| ==> !els.items[i].Undefined? && !els.items[i].Null?
  }

  /** The background image the payload's canvas gets. */
  function CanvasBackground(design: JsValue): JsValue {
    Or(Or(Get(design, "backgroundImage"), Get(Get(design, "canvas"), "backgroundImage")), Str(""))
  }

  /**
   * The payload `saveDesign` posts (TemplateContext.jsx:112-145); `None` is the
   * TypeError of a `null` design, of elements that are not an array, or of a
   * `null` element.
   */
  function NormaliseDesign(design: JsValue): (r: Option<JsValue>)
    ensures r.Some? <==> !design.Undefined? && !design.Null? && MappableElements(design)
    ensures r.Some? ==>
      var els := Or(Get(design, "elements"), Arr([])).items;
      var out := Get(r.value, "elements");
      out.Arr? && |out.items| == |els|
      && (forall i :: 0 <= i < |els| ==> out.items[i] == NormaliseElement(els[i]))
      && Get(r.value, "name") == Get(design, "name")
      && Get(r.value, "templateId")
         == Str(ToStr(Or(Or(Get(design, "templateId"), Get(design, "template_id")), Str(""))))
      && Get(Get(r.value, "canvas"), "backgroundImage") == CanvasBackground(design)
      && Get(Get(Get(r.value, "canvas"), "dimensions"), "width")
         == Or(Get(Get(Get(design, "canvas"), "dimensions"), "width"), Num(800))
      && Get(r.value, "thumbnailPath") == Or(CanvasBackground(design), Str(""))
  {
    if design.Undefined? || design.Null? || !MappableElements(design) then None
    else
      var els := Or(Get(design, "elements"), Arr([])).items;
      var canvas := Get(design, "canvas");
      var background := CanvasBackground(design);
      var dimensions := Get(canvas, "dimensions");
      Some(PayloadObject(
        Get(design, "name"),
        Str(ToStr(Or(Or(Get(design, "templateId"), Get(design, "template_id")), Str("")))),
        CanvasObject(background, Or(Or(Get(design, "backgroundColor"), Get(canvas, "backgroundColor")), Str("#ffffff")),
                     Size(Or(Get(dimensions, "width"), Num(800)), Or(Get(dimensions, "height"), Num(600)))),
        Arr(seq(|els|, i requires 0 <= i < |els| => NormaliseElement(els[i]))),
        Or(background, Str(""))))
  }

  /** The payload's `canvas` object literal. */
  function CanvasObject(backgroundImage: JsValue, backgroundColor: JsValue, dimensions: JsValue): (r: JsValue)
    ensures Get(r, "backgroundImage") == backgroundImage && Get(r, "backgroundColor") == backgroundColor
    ensures Get(r, "dimensions") == dimensions
  {
    Obj(map["backgroundImage" := backgroundImage, "backgroundColor" := backgroundColor, "dimensions" := dimensions])
  }

  /** The payload's object literal, given its five parts. */
  function PayloadObject(name: JsValue, templateId: JsValue, canvas: JsValue, elements: JsValue,
                         thumbnailPath: JsValue): (r: JsValue)
    ensures Get(r, "name") == name && Get(r, "templateId") == templateId && Get(r, "canvas") == canvas
    ensures Get(r, "elements") == elements && Get(r, "thumbnailPath") == thumbnailPath
  {
    Obj(map["name" := name, "templateId" := templateId, "canvas" := canvas, "elements" := elements,
            "thumbnailPath" := thumbnailPath])
  }

  /** The thumbnail posted is the canvas background, which the payload always carries as a string or a truthy value. */
  lemma ThumbnailIsBackground(design: JsValue)
    requires NormaliseDesign(design).Some?
    ensures Get(NormaliseDesign(design).value, "thumbnailPath")
         == Get(Get(NormaliseDesign(design).value, "canvas"), "backgroundImage")
  {
  }

  /** The design the customizer saves always normalises, element for element, with its background as thumbnail. */
  lemma CustomizerDesignNormalises(backgroundImage: JsValue, backgroundColor: JsValue,
                                   elements: seq<CustomizePage.Element>, template: JsValue)
    ensures var p := NormaliseDesign(CustomizePage.SavePayload(
              CustomizePage.DesignObject(backgroundImage, backgroundColor, elements), template));
      p.Some?
      && Get(p.value, "elements").Arr? && |Get(p.value, "elements").items| == |elements|
      && Get(p.value, "thumbnailPath") == Or(backgroundImage, Str(""))
      && Get(p.value, "templateId") == Str(ToStr(Or(Get(template, "id"), Str(""))))
  {
    var d := CustomizePage.DesignObject(backgroundImage, backgroundColor, elements);
    var design := CustomizePage.SavePayload(d, template);
    assert "canvas" !in Spread(d) && "template_id" !in Spread(d);
    PlainDesignNormalises(design, CustomizePage.ElementObjects(elements));
  }

  /**
   * A design object without `canvas` or `template_id` whose elements are all
   * objects normalises, with its background image (or `''`) as thumbnail.
   */
  lemma PlainDesignNormalises(design: JsValue, items: seq<JsValue>)
    requires design.Obj? && Get(design, "elements") == Arr(items) && forall i :: 0 <= i < |items| ==> items[i].Obj?
    requires Get(design, "canvas") == Undefined && Get(design, "template_id") == Undefined
    ensures var p := NormaliseDesign(design);
      p.Some?
      && Get(p.value, "elements").Arr? && |Get(p.value, "elements").items| == |items|
      && Get(p.value, "thumbnailPath") == Or(Get(design, "backgroundImage"), Str(""))
      && Get(p.value, "templateId") == Str(ToStr(Or(Get(design, "templateId"), Str(""))))
  {
    assert MappableElements(design);
  }

  /**
   * The rest of `saveDesign` (TemplateContext.jsx:147-158): the server's
   * `design` is stored with its `_id` as `id` and a thumbnail. `None` is a
   * TypeError, in the payload or on a response without `design`.
   */
  function SaveDesignEffect(s: TemplateState, design: JsValue, response: JsValue): (r: Option<TemplateState>)
    ensures r.Some? <==> NormaliseDesign(design).Some? && !Get(response, "design").Undefined?
                         && !Get(response, "design").Null?
    ensures r.Some? ==>
      var rd := Get(response, "design");
      r.value.(savedDesigns := s.savedDesigns) == s
      && |r.value.savedDesigns| == |s.savedDesigns| + 1
      && r.value.savedDesigns[..|s.savedDesigns|] == s.savedDesigns
      && Get(r.value.savedDesigns[|s.savedDesigns|], "id") == Get(rd, "_id")
    ensures r.Some? ==>
      var rd := Get(response, "design");
      r.value == s.(savedDesigns := s.savedDesigns + [SavedEntry(rd, SavedThumbnail(rd, NormaliseDesign(design).value))])
  {
    match NormaliseDesign(design)
    case None => None
    case Some(payload) => StoreSaved(s, payload, response)
  }

  /** The dispatch once the payload is built: `None` when the response carries no `design`. */
  function StoreSaved(s: TemplateState, payload: JsValue, response: JsValue): (r: Option<TemplateState>)
    ensures r.Some? <==> !Get(response, "design").Undefined? && !Get(response, "design").Null?
    ensures r.Some? ==>
      var rd := Get(response, "design");
      r.value.(savedDesigns := s.savedDesigns) == s
      && |r.value.savedDesigns| == |s.savedDesigns| + 1
      && r.value.savedDesigns[..|s.savedDesigns|] == s.savedDesigns
      && Get(r.value.savedDesigns[|s.savedDesigns|], "id") == Get(rd, "_id")
    ensures r.Some? ==>
      var rd := Get(response, "design");
      r.value == s.(savedDesigns := s.savedDesigns + [SavedEntry(rd, SavedThumbnail(rd, payload))])
  {
    var rd := Get(response, "design");
    if rd.Undefined? || rd.Null? then None
    else
      var saved := SavedEntry(rd, SavedThumbnail(rd, payload));
      var r := Reduce(s, SaveDesign(saved));
      assert r.savedDesigns[..|s.savedDesigns|] == s.savedDesigns;
      Some(r)
  }

  /** The thumbnail of a saved design: the server's `thumbnailPath`, else the payload's, else `''`. */
  function SavedThumbnail(rd: JsValue, payload: JsValue): (r: JsValue)
    ensures Truthy(Get(rd, "thumbnailPath")) ==> r == Get(rd, "thumbnailPath")
    ensures !Truthy(Get(rd, "thumbnailPath")) && Truthy(Get(payload, "thumbnailPath")) ==> r == Get(payload, "thumbnailPath")
    ensures !Truthy(Get(rd, "thumbnailPath")) && !Truthy(Get(payload, "thumbnailPath")) ==> r == Str("")
  {
    Or(Or(Get(rd, "thumbnailPath"), Get(payload, "thumbnailPath")), Str(""))
  }

  /** The server's design as the store keeps it: its fields, its `_id` as `id`, and a thumbnail. */
  function SavedEntry(rd: JsValue, thumbnail: JsValue): (r: JsValue)
    ensures Get(r, "id") == Get(rd, "_id") && Get(r, "thumbnail") == thumbnail
    ensures Get(r, "createdAt") == Get(rd, "createdAt")
    ensures forall k :: k !in {"id", "createdAt", "thumbnail"} ==> Get(r, k) == Get(rd, k)
  {
    Obj(Spread(rd) + map["id" := Get(rd, "_id"), "createdAt" := Get(rd, "createdAt"), "thumbnail" := thumbnail])
  }

  /** `deleteDesign` (TemplateContext.jsx:165-169): the store changes only once the request has succeeded. */
  function DeleteDesignEffect(s: TemplateState, designId: JsValue, requestSucceeded: bool): (r: TemplateState)
    ensures !requestSucceeded ==> r == s
    ensures requestSucceeded ==> r == s.(savedDesigns := KeptOnDelete(s.savedDesigns, designId))
    ensures requestSucceeded ==> forall d :: d in r.savedDesigns <==> d in s.savedDesigns && KeepOnDelete(designId, d)
  {
    if requestSucceeded then Reduce(s, DeleteDesign(designId)) else s
  }

  /** One entry of the saved-design list loaded on mount (TemplateContext.jsx:178-182). */
  function ListedDesign(d: JsValue): (r: JsValue)
    ensures Get(r, "id") == Get(d, "_id")
    ensures Get(r, "thumbnail") == Or(Or(Get(d, "thumbnailPath"), Get(Get(d, "canvas"), "backgroundImage")), Str(""))
    ensures forall k :: k in Spread(d) && k != "id" && k != "thumbnail" ==> Get(r, k) == Get(d, k)
  {
    Obj(Spread(d) + map["id" := Get(d, "_id"),
                        "thumbnail" := Or(Or(Get(d, "thumbnailPath"), Get(Get(d, "canvas"), "backgroundImage")), Str(""))])
  }

  /**
   * The saved-designs effect (TemplateContext.jsx:172-187): nothing without a
   * token; otherwise an empty filter merge and one `SAVE_DESIGN` per design.
   * `None` for `designs` is a response whose `designs` cannot be mapped, and
   * the error is caught.
   */
  function LoadSaved(s: TemplateState, token: JsValue, designs: Option<seq<JsValue>>): (r: TemplateState)
    ensures !Truthy(token) || designs.None? ==> r == s
    ensures Truthy(token) && designs.Some? && (forall i :: 0 <= i < |designs.value| ==> !designs.value[i].Undefined? && !designs.value[i].Null?) ==>
      r == s.(savedDesigns := s.savedDesigns
                + seq(|designs.value|, i requires 0 <= i < |designs.value| => ListedDesign(designs.value[i])))
  {
    if !Truthy(token) || designs.None? then s
    else if exists i :: 0 <= i < |designs.value| && (designs.value[i].Undefined? || designs.value[i].Null?) then s
    else
      var list := seq(|designs.value|, i requires 0 <= i < |designs.value| => ListedDesign(designs.value[i]));
      var s1 := Reduce(s, SetFilters(Obj(map[])));
      EmptyFiltersChangeNothing(s);
      SavesAppend(s1, list);
      DispatchAll(s1, SaveActions(list))
  }
}
