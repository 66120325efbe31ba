/**
 * The Template schema of the user-panel server (`src/models/Template.js`): the
 * setters and defaults, the validators, the slug pre-save hook, the unique
 * index on `slug`, and the two URL virtuals. `Save` runs validation, then the
 * hook, then the index, as Mongoose and MongoDB do.
 */
module TemplateModel {
  import opened Wrappers
  import opened Js
  import SchemaSlug
  import Mongoose

  /** The paths the model follows; the counters and flags it leaves out only carry defaults. */
  datatype TemplateFields = TemplateFields(
    name: string,
    slug: Option<string>,
    categoryId: Option<string>,
    imagePath: Option<string>,
    thumbnailPath: Option<string>,
    description: Option<string>,
    tags: seq<string>,
    width: int,
    height: int,
    fileFormat: string,
    isActive: bool,
    ratingAverage: int)

  const FileFormats: set<string> := {"jpg", "jpeg", "png", "webp"}

  /** A tag after its `trim` and `lowercase` setters; the order of the two does not matter (`TagSettersCommute`). */
  function Tag(t: string): (r: string)
    ensures |r| <= |t|
  {
    Lower(Trim(t))
  }

  /** Lower-casing a prefix of a string lower-cases that prefix of the lower-cased string. */
  lemma LowerSlices(s: string, i: nat, j: nat)
    requires i <= j <= |s|
    ensures Lower(s[i..j]) == Lower(s)[i..j]
  {
  }

  /** Lower-casing neither makes nor unmakes white space. */
  lemma LowerCharKeepsSpace(c: char)
    ensures IsSpace(LowerChar(c)) <==> IsSpace(c)
  {
  }

  lemma {:induction false} LowerTrimStart(s: string)
    ensures Lower(TrimStart(s)) == TrimStart(Lower(s))
    decreases |s|
  {
    if s != [] {
      LowerCharKeepsSpace(s[0]);
      assert Lower(s)[0] == LowerChar(s[0]);
    }
    if s != [] && IsSpace(s[0]) {
      LowerSlices(s, 1, |s|);
      assert Lower(s[1..]) == Lower(s)[1..];
      LowerTrimStart(s[1..]);
    }
  }

  lemma {:induction false} LowerTrimEnd(s: string)
    ensures Lower(TrimEnd(s)) == TrimEnd(Lower(s))
    decreases |s|
  {
    if s != [] {
      LowerCharKeepsSpace(s[|s| - 1]);
      assert Lower(s)[|s| - 1] == LowerChar(s[|s| - 1]);
    }
    if s != [] && IsSpace(s[|s| - 1]) {
      LowerSlices(s, 0, |s| - 1);
      LowerTrimEnd(s[..|s| - 1]);
    }
  }

  /** Trimming and lower-casing commute. */
  lemma TagSettersCommute(t: string)
    ensures Tag(t) == Trim(Lower(t))
  {
    LowerTrimStart(t);
    LowerTrimEnd(TrimStart(t));
  }

  /**
   * `new Template({...})`: `name` is trimmed, each tag trimmed and lowercased,
   * and the defaults apply: 800 x 600, `jpg`, active, a rating of 0.
   */
  function NewTemplate(name: string, categoryId: Option<string>, imagePath: Option<string>,
                       thumbnailPath: Option<string>, description: Option<string>,
                       tags: seq<string>, fileFormat: Option<string>): (t: TemplateFields)
    ensures t.name == Trim(name) && t.slug.None?
    ensures |t.tags| == |tags| && forall k :: 0 <= k < |tags| ==> t.tags[k] == Tag(tags[k])
    ensures t.width == 800 && t.height == 600 && t.isActive && t.ratingAverage == 0
    ensures fileFormat.None? ==> t.fileFormat == "jpg"
  {
    TemplateFields(Trim(name), None, categoryId, imagePath, thumbnailPath, description,
                   seq(|tags|, k requires 0 <= k < |tags| => Tag(tags[k])),
                   800, 600, fileFormat.GetOr("jpg"), true, 0)
  }

  /** A string path passes `required` when it is set and not empty. */
  predicate Present(s: Option<string>) {
    s.Some? && s.value != ""
  }

  /** The messages of the validators that fail, in schema order (Template.js:4-71). */
  function ValidationMessages(t: TemplateFields): (ms: seq<string>)
    ensures ms == [] <==> (t.name != "" && |t.name| <= 100 && t.categoryId.Some? && Present(t.imagePath)
      && (t.description.None? || |t.description.value| <= 500)
      && t.fileFormat in FileFormats && 0 <= t.ratingAverage <= 5)
    ensures !Present(t.imagePath) ==> "Template image is required" in ms
  {
    NameMessages(t.name)
    + (if t.categoryId.None? then ["Category is required"] else [])
    + (if Present(t.imagePath) then [] else ["Template image is required"])
    + (if t.description.Some? && |t.description.value| > 500 then ["Description cannot exceed 500 characters"] else [])
    + FormatMessages(t.fileFormat)
    + RatingMessages(t.ratingAverage)
  }

  /** `required` and `maxlength: 100` on the trimmed name. */
  function NameMessages(name: string): (ms: seq<string>)
    ensures ms == [] <==> name != "" && |name| <= 100
  {
    if name == "" then ["Template name is required"]
    else if |name| > 100 then ["Template name cannot exceed 100 characters"] else []
  }

  /** The `enum` validator on `fileFormat`. */
  function FormatMessages(fileFormat: string): (ms: seq<string>)
    ensures ms == [] <==> fileFormat in FileFormats
  {
    if fileFormat in FileFormats then []
    else ["`" + fileFormat + "` is not a valid enum value for path `fileFormat`."]
  }

  /** `min: 0, max: 5` on `rating.average`. */
  function RatingMessages(average: int): (ms: seq<string>)
    ensures ms == [] <==> 0 <= average <= 5
  {
    if average < 0
    then ["Path `rating.average` (" + IntToString(average) + ") is less than minimum allowed value (0)."]
    else if average > 5
    then ["Path `rating.average` (" + IntToString(average) + ") is more than maximum allowed value (5)."]
    else []
  }

  /** The document after the slug hook (Template.js:92-97). */
  function AfterHook(t: TemplateFields, nameModified: bool): (r: TemplateFields)
    ensures r.(slug := t.slug) == t
    ensures nameModified ==> r.slug == Some(SchemaSlug.Slug(t.name))
    ensures !nameModified ==> r == t
  {
    if nameModified then t.(slug := Some(SchemaSlug.Slug(t.name))) else t
  }

  /** A template document being saved. */
  class TemplateDoc {
    var doc: TemplateFields

    constructor (t: TemplateFields)
      ensures doc == t
    {
      doc := t;
    }

    /** The pre-save hook: the slug is recomputed from the name only when the name changed. */
    method PreSave(nameModified: bool)
      modifies this
      ensures doc == AfterHook(old(doc), nameModified)
    {
      if nameModified {
        doc := doc.(slug := Some(SchemaSlug.Slug(doc.name)));
      }
    }
  }

  /** The stored templates. */
  class TemplateCollection {
    var docs: seq<TemplateFields>

    /**
     * No two stored templates share a slug (Template.js:12). The index is not
     * sparse, so a missing slug is a value too: at most one template lacks one.
     */
    ghost predicate Unique()
      reads this
    {
      forall i, j :: 0 <= i < j < |docs| ==> docs[i].slug != docs[j].slug
    }

    constructor ()
      ensures docs == [] && Unique()
    {
      docs := [];
    }

    predicate SlugTaken(slug: Option<string>)
      reads this
    {
      exists i :: 0 <= i < |docs| && docs[i].slug == slug
    }

    /** `new Template(t).save()`: validate, run the hook, then insert unless the slug is taken. */
    method Save(t: TemplateFields, nameModified: bool) returns (r: Mongoose.SaveOutcome<TemplateFields>)
      requires Unique()
      modifies this
      ensures Unique()
      ensures ValidationMessages(t) != [] ==>
        r == Mongoose.Rejected(Mongoose.ValidationError(ValidationMessages(t))) && docs == old(docs)
      ensures ValidationMessages(t) == [] && old(SlugTaken(AfterHook(t, nameModified).slug)) ==>
        r == Mongoose.Rejected(Mongoose.DuplicateKey(["slug"])) && docs == old(docs)
      ensures ValidationMessages(t) == [] && !old(SlugTaken(AfterHook(t, nameModified).slug)) ==>
        r == Mongoose.Saved(AfterHook(t, nameModified)) && docs == old(docs) + [AfterHook(t, nameModified)]
    {
      var messages := ValidationMessages(t);
      if messages != [] {
        return Mongoose.Rejected(Mongoose.ValidationError(messages));
      }
      var d := new TemplateDoc(t);
      d.PreSave(nameModified);
      var stored := d.doc;
      if SlugTaken(stored.slug) {
        return Mongoose.Rejected(Mongoose.DuplicateKey(["slug"]));
      }
      docs := docs + [stored];
      r := Mongoose.Saved(stored);
    }
  }

  // ---------------------------------------------------------------------------
  // Virtuals

  /** `imageUrl` (Template.js:100-105): `None` is `null`. */
  function ImageUrl(t: TemplateFields): (u: Option<string>)
    ensures u.Some? <==> Present(t.imagePath)
    ensures u.Some? ==> u.value == "/Template_images/" + t.imagePath.value
  {
    if Present(t.imagePath) then Some("/Template_images/" + t.imagePath.value) else None
  }

  /** `thumbnailUrl` (Template.js:108-113). */
  function ThumbnailUrl(t: TemplateFields): (u: Option<string>)
    ensures Present(t.thumbnailPath) ==> u == Some("/Template_images/" + t.thumbnailPath.value)
    ensures !Present(t.thumbnailPath) ==> u == ImageUrl(t)
  {
    if Present(t.thumbnailPath) then Some("/Template_images/" + t.thumbnailPath.value) else ImageUrl(t)
  }

  /** A template that passed validation always has a thumbnail URL, under the images directory. */
  lemma SavedTemplateHasThumbnail(t: TemplateFields)
    requires ValidationMessages(t) == []
    ensures ThumbnailUrl(t).Some?
    ensures StartsWith(ThumbnailUrl(t).value, "/Template_images/")
  {
    var u := ThumbnailUrl(t).value;
    assert u[..17] == "/Template_images/";
  }

  /** Saved documents keep their virtual URLs: the hook changes only the slug. */
  lemma HookKeepsUrls(t: TemplateFields, nameModified: bool)
    ensures ImageUrl(AfterHook(t, nameModified)) == ImageUrl(t)
    ensures ThumbnailUrl(AfterHook(t, nameModified)) == ThumbnailUrl(t)
  {
  }
}
