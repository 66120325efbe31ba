/**
 * The Category schema of the user-panel server (`src/models/Category.js`): the
 * `trim` setter and defaults, the validators, the slug pre-save hook and the
 * unique index over (name, masterId). A collection of categories is modelled
 * as the sequence of stored documents; `Save` runs validation, then the hook,
 * then the unique index, as Mongoose and MongoDB do.
 */
module CategoryModel {
  import opened Wrappers
  import opened Js
  import SchemaSlug
  import Mongoose
  import ErrorMiddleware

  datatype CategoryFields = CategoryFields(
    name: string,
    slug: Option<string>,
    masterId: Option<string>,
    description: Option<string>,
    isActive: bool,
    sortOrder: int)

  /** `new Category({...})`: `name` is trimmed, `isActive` defaults to true and `sortOrder` to 0. */
  function NewCategory(name: string, masterId: Option<string>, description: Option<string>,
                       isActive: Option<bool>, sortOrder: Option<int>): (c: CategoryFields)
    ensures c.name == Trim(name) && c.slug.None?
    ensures isActive.None? ==> c.isActive
    ensures sortOrder.None? ==> c.sortOrder == 0
  {
    CategoryFields(Trim(name), None, masterId, description, isActive.GetOr(true), sortOrder.GetOr(0))
  }

  /** The messages of the validators that fail, in schema order (Category.js:4-22). */
  function ValidationMessages(c: CategoryFields): (ms: seq<string>)
    ensures ms == [] <==> (c.name != "" && |c.name| <= 50 && c.masterId.Some?
      && (c.description.None? || |c.description.value| <= 200))
  {
    (if c.name == "" then ["Category name is required"]
     else if |c.name| > 50 then ["Category name cannot exceed 50 characters"] else [])
    + (if c.masterId.None? then ["Master category is required"] else [])
    + (if c.description.Some? && |c.description.value| > 200 then ["Description cannot exceed 200 characters"] else [])
  }

  /** A name that is only white space is missing once the setter has trimmed it. */
  lemma BlankNameRequired(name: string, masterId: Option<string>)
    requires forall k :: 0 <= k < |name| ==> IsSpace(name[k])
    ensures "Category name is required" in ValidationMessages(NewCategory(name, masterId, None, None, None))
  {
    TrimEmptyIffBlank(name);
  }

  /** The document after the slug hook (Category.js:41-46). */
  function AfterHook(c: CategoryFields, nameModified: bool): (r: CategoryFields)
    ensures r.(slug := c.slug) == c
    ensures nameModified ==> r.slug == Some(SchemaSlug.Slug(c.name))
    ensures !nameModified ==> r == c
  {
    if nameModified then c.(slug := Some(SchemaSlug.Slug(c.name))) else c
  }

  /** A category document being saved. */
  class CategoryDoc {
    var doc: CategoryFields

    constructor (c: CategoryFields)
      ensures doc == c
    {
      doc := c;
    }

    /** The pre-save hook: the slug is recomputed from the name only when the name changed. */
    method PreSave(nameModified: bool)
      modifies this
      ensures doc == AfterHook(old(doc), nameModified)
    {
      if nameModified {
        doc := doc.(slug := Some(SchemaSlug.Slug(doc.name)));
      }
    }
  }

  /** The key of the unique index. */
  function Key(c: CategoryFields): (string, Option<string>) {
    (c.name, c.masterId)
  }

  /** The stored categories. */
  class CategoryCollection {
    var docs: seq<CategoryFields>

    /** No two stored categories share a (name, masterId) pair (Category.js:36). */
    ghost predicate Unique()
      reads this
    {
      forall i, j :: 0 <= i < j < |docs| ==> Key(docs[i]) != Key(docs[j])
    }

    constructor ()
      ensures docs == [] && Unique()
    {
      docs := [];
    }

    predicate Taken(key: (string, Option<string>))
      reads this
    {
      exists i :: 0 <= i < |docs| && Key(docs[i]) == key
    }

    /** `new Category(c).save()`: validate, run the hook, then insert unless the key is taken. */
    method Save(c: CategoryFields, nameModified: bool) returns (r: Mongoose.SaveOutcome<CategoryFields>)
      requires Unique()
      modifies this
      ensures Unique()
      ensures ValidationMessages(c) != [] ==>
        r == Mongoose.Rejected(Mongoose.ValidationError(ValidationMessages(c))) && docs == old(docs)
      ensures ValidationMessages(c) == [] && old(Taken(Key(c))) ==>
        r == Mongoose.Rejected(Mongoose.DuplicateKey(["name", "masterId"])) && docs == old(docs)
      ensures ValidationMessages(c) == [] && !old(Taken(Key(c))) ==>
        r == Mongoose.Saved(AfterHook(c, nameModified)) && docs == old(docs) + [AfterHook(c, nameModified)]
    {
      var messages := ValidationMessages(c);
      if messages != [] {
        return Mongoose.Rejected(Mongoose.ValidationError(messages));
      }
      var d := new CategoryDoc(c);
      d.PreSave(nameModified);
      var stored := d.doc;
      if Taken(Key(stored)) {
        return Mongoose.Rejected(Mongoose.DuplicateKey(["name", "masterId"]));
      }
      docs := docs + [stored];
      r := Mongoose.Saved(stored);
    }
  }

  /** A second category with the same name under the same master is answered `Name already exists`. */
  lemma DuplicateAnsweredByName(nodeEnv: string)
    ensures ErrorMiddleware.ErrorHandler(Mongoose.DuplicateKey(["name", "masterId"]), nodeEnv)
         == ErrorMiddleware.Json(400, "Name already exists", None, None)
  {
    var e := Mongoose.DuplicateKey(["name", "masterId"]);
    assert e.name != "ValidationError" && e.keyValueKeys == ["name"] + ["masterId"];
    ErrorMiddleware.DuplicateKeyMessage(e, nodeEnv, "name", ["masterId"]);
    CapitalizedName();
  }

  lemma CapitalizedName()
    ensures ErrorMiddleware.Capitalize("name") + " already exists" == "Name already exists"
  {
    assert UpperChar('n') == 'N';
    assert ErrorMiddleware.Capitalize("name") == ['N'] + "ame" == "Name";
  }
}
