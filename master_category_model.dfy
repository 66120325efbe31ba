/**
 * The MasterCategory schema of the user-panel server
 * (`src/models/MasterCategory.js`): the `trim` setter and defaults, the
 * validators, the slug pre-save hook, and the two unique indexes, on `name` and
 * on `slug`. `Save` runs validation, then the hook, then the indexes in the
 * order the schema declares them.
 */
module MasterCategoryModel {
  import opened Wrappers
  import opened Js
  import SchemaSlug
  import Mongoose

  datatype MasterFields = MasterFields(
    name: string,
    slug: Option<string>,
    description: Option<string>,
    isActive: bool,
    sortOrder: int)

  /** `new MasterCategory({...})`: `name` is trimmed, `isActive` defaults to true and `sortOrder` to 0. */
  function NewMaster(name: string, description: Option<string>, isActive: Option<bool>, sortOrder: Option<int>)
    : (m: MasterFields)
    ensures m.name == Trim(name) && m.slug.None?
    ensures isActive.None? ==> m.isActive
    ensures sortOrder.None? ==> m.sortOrder == 0
  {
    MasterFields(Trim(name), None, description, isActive.GetOr(true), sortOrder.GetOr(0))
  }

  /** The messages of the validators that fail, in schema order (MasterCategory.js:4-19). */
  function ValidationMessages(m: MasterFields): (ms: seq<string>)
    ensures ms == [] <==> (m.name != "" && |m.name| <= 50 && (m.description.None? || |m.description.value| <= 200))
  {
    (if m.name == "" then ["Master category name is required"]
     else if |m.name| > 50 then ["Master category name cannot exceed 50 characters"] else [])
    + (if m.description.Some? && |m.description.value| > 200 then ["Description cannot exceed 200 characters"] else [])
  }

  /** The document after the slug hook (MasterCategory.js:38-43). */
  function AfterHook(m: MasterFields, nameModified: bool): (r: MasterFields)
    ensures r.(slug := m.slug) == m
    ensures nameModified ==> r.slug == Some(SchemaSlug.Slug(m.name))
    ensures !nameModified ==> r == m
  {
    if nameModified then m.(slug := Some(SchemaSlug.Slug(m.name))) else m
  }

  /** A master category document being saved. */
  class MasterDoc {
    var doc: MasterFields

    constructor (m: MasterFields)
      ensures doc == m
    {
      doc := m;
    }

    /** The pre-save hook: the slug is recomputed from the name only when the name changed. */
    method PreSave(nameModified: bool)
      modifies this
      ensures doc == AfterHook(old(doc), nameModified)
    {
      if nameModified {
        doc := doc.(slug := Some(SchemaSlug.Slug(doc.name)));
      }
    }
  }

  /** The stored master categories. */
  class MasterCollection {
    var docs: seq<MasterFields>

    /** No two stored documents share a name, and none share a slug (MasterCategory.js:7, 13). */
    ghost predicate Unique()
      reads this
    {
      forall i, j :: 0 <= i < j < |docs| ==> docs[i].name != docs[j].name && docs[i].slug != docs[j].slug
    }

    constructor ()
      ensures docs == [] && Unique()
    {
      docs := [];
    }

    predicate NameTaken(name: string)
      reads this
    {
      exists i :: 0 <= i < |docs| && docs[i].name == name
    }

    predicate SlugTaken(slug: Option<string>)
      reads this
    {
      exists i :: 0 <= i < |docs| && docs[i].slug == slug
    }

    /** `new MasterCategory(m).save()`: validate, run the hook, then check the name and the slug indexes. */
    method Save(m: MasterFields, nameModified: bool) returns (r: Mongoose.SaveOutcome<MasterFields>)
      requires Unique()
      modifies this
      ensures Unique()
      ensures ValidationMessages(m) != [] ==>
        r == Mongoose.Rejected(Mongoose.ValidationError(ValidationMessages(m))) && docs == old(docs)
      ensures ValidationMessages(m) == [] && old(NameTaken(m.name)) ==>
        r == Mongoose.Rejected(Mongoose.DuplicateKey(["name"])) && docs == old(docs)
      ensures ValidationMessages(m) == [] && !old(NameTaken(m.name)) && old(SlugTaken(AfterHook(m, nameModified).slug)) ==>
        r == Mongoose.Rejected(Mongoose.DuplicateKey(["slug"])) && docs == old(docs)
      ensures ValidationMessages(m) == [] && !old(NameTaken(m.name)) && !old(SlugTaken(AfterHook(m, nameModified).slug)) ==>
        r == Mongoose.Saved(AfterHook(m, nameModified)) && docs == old(docs) + [AfterHook(m, nameModified)]
    {
      var messages := ValidationMessages(m);
      if messages != [] {
        return Mongoose.Rejected(Mongoose.ValidationError(messages));
      }
      var d := new MasterDoc(m);
      d.PreSave(nameModified);
      var stored := d.doc;
      if NameTaken(stored.name) {
        return Mongoose.Rejected(Mongoose.DuplicateKey(["name"]));
      }
      if SlugTaken(stored.slug) {
        return Mongoose.Rejected(Mongoose.DuplicateKey(["slug"]));
      }
      docs := docs + [stored];
      r := Mongoose.Saved(stored);
    }
  }
}
