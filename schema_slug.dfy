/**
 * The slug expression shared by the pre-save hooks of the Template, Category and
 * MasterCategory schemas:
 *   name.toLowerCase().replace(/[^a-zA-Z0-9]/g, '-').replace(/-+/g, '-').trim('-')
 * `String.prototype.trim` takes no argument, so the last step removes white
 * space only; after the first replacement there is none left, and the step
 * changes nothing. Leading and trailing dashes therefore survive.
 */
module SchemaSlug {
  import opened Js
  import Helpers

  /** `.replace(/[^a-zA-Z0-9]/g, '-')`: every character outside the class becomes one `-`. */
  function DashNonAlnum(s: string): (r: string)
    ensures |r| == |s|
  {
    seq(|s|, i requires 0 <= i < |s| => if IsAsciiAlnum(s[i]) then s[i] else '-')
  }

  /** The slug the hooks assign (Template.js:94, Category.js:43, MasterCategory.js:40). */
  function Slug(name: string): string {
    Trim(Helpers.CollapseRuns(DashNonAlnum(Lower(name)), Helpers.IsDash, false))
  }

  /** The characters a schema slug may contain: `[a-z0-9-]`. */
  predicate SlugChar(c: char) {
    IsAsciiLower(c) || IsDigit(c) || c == '-'
  }

  /** The collapsed string before the final `trim`. */
  function Collapsed(name: string): string {
    Helpers.CollapseRuns(DashNonAlnum(Lower(name)), Helpers.IsDash, false)
  }

  lemma CollapsedCharset(name: string)
    ensures forall i :: 0 <= i < |Collapsed(name)| ==> SlugChar(Collapsed(name)[i])
  {
    var lowered := Lower(name);
    var dashed := DashNonAlnum(lowered);
    Helpers.CollapseRunsChars(dashed, Helpers.IsDash, false);
    forall i | 0 <= i < |Collapsed(name)| ensures SlugChar(Collapsed(name)[i]) {
      var c := Collapsed(name)[i];
      assert c in Collapsed(name);
      if c != '-' {
        var k :| 0 <= k < |dashed| && dashed[k] == c;
        assert lowered[k] == LowerChar(name[k]);
      }
    }
  }

  /** `.trim('-')` removes nothing: there is no white space left to remove. */
  lemma {:induction false} TrimChangesNothing(name: string)
    ensures Slug(name) == Collapsed(name)
  {
    var t := Collapsed(name);
    CollapsedCharset(name);
    if t != [] {
      assert !IsSpace(t[0]);
      assert TrimStart(t) == t;
      assert !IsSpace(t[|t| - 1]);
    }
  }

  /** A schema slug contains only `[a-z0-9-]`. */
  lemma SlugCharset(name: string)
    ensures forall i :: 0 <= i < |Slug(name)| ==> SlugChar(Slug(name)[i])
  {
    TrimChangesNothing(name);
    CollapsedCharset(name);
  }

  /** A schema slug never contains `--`. */
  lemma SlugNoDoubleDash(name: string)
    ensures Helpers.NoDoubleDash(Slug(name))
  {
    TrimChangesNothing(name);
    Helpers.CollapseDashesNoDouble(DashNonAlnum(Lower(name)), false);
  }

  /** A name that starts with a character outside `[a-zA-Z0-9]` gives a slug that starts with `-`. */
  lemma SlugKeepsLeadingDash(name: string)
    requires name != [] && !IsAsciiAlnum(name[0])
    ensures Slug(name) != [] && Slug(name)[0] == '-'
  {
    TrimChangesNothing(name);
    var d := DashNonAlnum(Lower(name));
    assert d[0] == '-';
    assert d == [d[0]] + d[1..];
  }

  /** A name that ends with a character outside `[a-zA-Z0-9]` gives a slug that ends with `-`. */
  lemma SlugKeepsTrailingDash(name: string)
    requires name != [] && !IsAsciiAlnum(name[|name| - 1])
    ensures Slug(name) != [] && Slug(name)[|Slug(name)| - 1] == '-'
  {
    TrimChangesNothing(name);
    var d := DashNonAlnum(Lower(name));
    var front := d[..|d| - 1];
    assert d == front + "-";
    Helpers.CollapseRunsAppend(front, "-", Helpers.IsDash, false);
    var st := if front == [] then false else front[|front| - 1] == '-';
    var tail := Helpers.CollapseRuns("-", Helpers.IsDash, st);
    assert tail == (if st then [] else "-");
    if st {
      LastDashSurvives(front);
    }
  }

  /** Collapsing the dash runs of a string that ends with `-` leaves a trailing `-`. */
  lemma LastDashSurvives(s: string)
    requires s != [] && s[|s| - 1] == '-'
    ensures var r := Helpers.CollapseRuns(s, Helpers.IsDash, false); r != [] && r[|r| - 1] == '-'
  {
    var front := s[..|s| - 1];
    assert s == front + "-";
    Helpers.CollapseRunsAppend(front, "-", Helpers.IsDash, false);
    if front != [] && front[|front| - 1] == '-' {
      LastDashSurvives(front);
    }
  }

  /** A name of letters and digits only gives its lower-case form. */
  lemma SlugOfAlnumName(name: string)
    requires forall i :: 0 <= i < |name| ==> IsAsciiAlnum(name[i])
    ensures Slug(name) == Lower(name)
  {
    TrimChangesNothing(name);
    var l := Lower(name);
    assert DashNonAlnum(l) == l;
    Helpers.CollapseRunsAbsent(l, Helpers.IsDash, false);
  }
}
