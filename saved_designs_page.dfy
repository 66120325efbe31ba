/**
 * The saved-designs list (`client/src/pages/SavedDesignsPage.jsx`): the search
 * filter, the sort by the chosen key, and the confirmation before a delete.
 * A design is seen through its name and its creation time, in milliseconds;
 * the rest of the entry is carried along unchanged. `Array.prototype.sort` is
 * stable, so it is modelled as an insertion sort that places an element after
 * the ones it compares equal to.
 */
module SavedDesignsPage {
  import opened Js
  import Seqs
  import TemplateContext

  datatype Design = Design(name: string, createdAt: int, entry: JsValue)

  /** `design.name.toLowerCase().includes(searchTerm.toLowerCase())`. */
  predicate Matches(d: Design, term: string) {
    Contains(Lower(d.name), Lower(term))
  }

  /** The search filter (SavedDesignsPage.jsx:14-17). */
  function Search(designs: seq<Design>, term: string): seq<Design> {
    Seqs.Filter(designs, d => Matches(d, term))
  }

  /** The designs kept are exactly those whose name contains the term, ignoring case, in their order. */
  lemma SearchKeepsMatches(designs: seq<Design>, term: string)
    ensures forall d :: d in Search(designs, term) <==> d in designs && Matches(d, term)
    ensures Seqs.IsSubsequence(Search(designs, term), designs)
  {
    forall d | d in designs && Matches(d, term)
      ensures d in Search(designs, term)
    {
      Seqs.FilterKeeps(designs, x => Matches(x, term), d);
    }
    Seqs.FilterIsSubsequence(designs, x => Matches(x, term));
  }

  lemma {:induction false} EmptyOccursEverywhere(s: string)
    ensures Contains(s, "")
  {
    assert IsPrefix("", s);
  }

  /** An empty search keeps every design. */
  lemma EmptySearchKeepsAll(designs: seq<Design>)
    ensures Search(designs, "") == designs
  {
    forall k | 0 <= k < |designs|
      ensures Matches(designs[k], "")
    {
      EmptyOccursEverywhere(Lower(designs[k].name));
    }
    Seqs.FilterAll(designs, d => Matches(d, ""));
  }

  // ---------------------------------------------------------------------------
  // The comparator

  /** `a.localeCompare(b)`, read as the code-point order of the two strings. */
  function LocaleCompare(a: string, b: string): (r: int)
    ensures -1 <= r <= 1
    decreases |a|
  {
    if a == [] && b == [] then 0
    else if a == [] then -1
    else if b == [] then 1
    else if a[0] < b[0] then -1
    else if a[0] > b[0] then 1
    else LocaleCompare(a[1..], b[1..])
  }

  lemma {:induction false} LocaleCompareAntisymmetric(a: string, b: string)
    ensures LocaleCompare(a, b) == -LocaleCompare(b, a)
    ensures LocaleCompare(a, b) == 0 <==> a == b
    decreases |a|
  {
    if a != [] && b != [] && a[0] == b[0] {
      LocaleCompareAntisymmetric(a[1..], b[1..]);
      if a[1..] == b[1..] {
        assert a == [a[0]] + a[1..] && b == [b[0]] + b[1..];
      }
    }
  }

  lemma {:induction false} LocaleCompareTransitive(a: string, b: string, c: string)
    requires LocaleCompare(a, b) <= 0 && LocaleCompare(b, c) <= 0
    ensures LocaleCompare(a, c) <= 0
    decreases |a|
  {
    if a != [] && b != [] && c != [] && a[0] == b[0] && b[0] == c[0] {
      LocaleCompareTransitive(a[1..], b[1..], c[1..]);
    }
  }

  /** The comparator of SavedDesignsPage.jsx:18-27; an unknown key compares everything equal. */
  function Compare(sortBy: string, a: Design, b: Design): int {
    if sortBy == "newest" then b.createdAt - a.createdAt
    else if sortBy == "oldest" then a.createdAt - b.createdAt
    else if sortBy == "name" then LocaleCompare(a.name, b.name)
    else 0
  }

  /** For every key the comparator is a total preorder: any two designs are ordered, and not-after chains. */
  lemma CompareIsTotalPreorder(sortBy: string, a: Design, b: Design, c: Design)
    ensures Compare(sortBy, a, b) > 0 ==> Compare(sortBy, b, a) < 0
    ensures Compare(sortBy, a, b) <= 0 && Compare(sortBy, b, c) <= 0 ==> Compare(sortBy, a, c) <= 0
  {
    if sortBy == "name" {
      LocaleCompareAntisymmetric(a.name, b.name);
      if Compare(sortBy, a, b) <= 0 && Compare(sortBy, b, c) <= 0 {
        LocaleCompareTransitive(a.name, b.name, c.name);
      }
    }
  }

  // ---------------------------------------------------------------------------
  // The sort

  /** `x` inserted after every element that does not compare after it. */
  function Insert(sortBy: string, x: Design, t: seq<Design>): (r: seq<Design>)
    ensures multiset(r) == multiset(t) + multiset{x}
    ensures |r| == |t| + 1
    decreases |t|
  {
    if t == [] then [x]
    else if Compare(sortBy, t[0], x) > 0 then [x] + t
    else
      assert t == [t[0]] + t[1..];
      [t[0]] + Insert(sortBy, x, t[1..])
  }

  /** `.sort(comparator)`: a stable sort. */
  function Sort(sortBy: string, s: seq<Design>): (r: seq<Design>)
    decreases |s|
  {
    if s == [] then [] else Insert(sortBy, s[|s| - 1], Sort(sortBy, s[..|s| - 1]))
  }

  predicate SortedBy(sortBy: string, r: seq<Design>) {
    forall i, j :: 0 <= i < j < |r| ==> Compare(sortBy, r[i], r[j]) <= 0
  }

  lemma {:induction false} InsertKeepsSorted(sortBy: string, x: Design, t: seq<Design>)
    requires SortedBy(sortBy, t)
    ensures SortedBy(sortBy, Insert(sortBy, x, t))
    decreases |t|
  {
    if t != [] {
      if Compare(sortBy, t[0], x) > 0 {
        InsertInFront(sortBy, x, t);
      } else {
        assert SortedBy(sortBy, t[1..]);
        InsertKeepsSorted(sortBy, x, t[1..]);
        InsertMembers(sortBy, x, t[1..]);
        InsertAfterHead(sortBy, x, t, Insert(sortBy, x, t[1..]));
      }
    }
  }

  /** `x` placed before a sorted list whose head compares after it leaves it sorted. */
  lemma InsertInFront(sortBy: string, x: Design, t: seq<Design>)
    requires t != [] && SortedBy(sortBy, t) && Compare(sortBy, t[0], x) > 0
    ensures SortedBy(sortBy, [x] + t)
  {
    var h, r := t[0], [x] + t;
    forall i, j | 0 <= i < j < |r| ensures Compare(sortBy, r[i], r[j]) <= 0 {
      if i == 0 {
        CompareIsTotalPreorder(sortBy, h, x, h);
        if j > 1 {
          CompareIsTotalPreorder(sortBy, x, h, t[j - 1]);
        }
      }
    }
  }

  /** Every element of `Insert(x, t)` is `x` or an element of `t`. */
  lemma InsertMembers(sortBy: string, x: Design, t: seq<Design>)
    ensures forall y :: y in Insert(sortBy, x, t) ==> y == x || y in t
  {
    var u := Insert(sortBy, x, t);
    forall y | y in u ensures y == x || y in t {
      assert y in multiset(u);
    }
  }

  /** The head of a sorted list, kept in front of a sorted list of `x` and its other elements, leaves it sorted. */
  lemma InsertAfterHead(sortBy: string, x: Design, t: seq<Design>, u: seq<Design>)
    requires t != [] && SortedBy(sortBy, t) && Compare(sortBy, t[0], x) <= 0
    requires SortedBy(sortBy, u) && forall y :: y in u ==> y == x || y in t[1..]
    ensures SortedBy(sortBy, [t[0]] + u)
  {
    var h := t[0];
    var r := [h] + u;
    forall j | 0 <= j < |u| ensures Compare(sortBy, h, u[j]) <= 0 {
      assert u[j] in u;
      if u[j] != x {
        var k :| 0 <= k < |t[1..]| && t[1..][k] == u[j];
        assert t[k + 1] == u[j];
      }
    }
    forall i, j | 0 <= i < j < |r| ensures Compare(sortBy, r[i], r[j]) <= 0 {
      if i > 0 {
        assert r[i] == u[i - 1] && r[j] == u[j - 1];
      } else {
        assert r[j] == u[j - 1];
      }
    }
  }

  /** The sort orders the designs by the comparator and keeps each of them, no more and no fewer. */
  lemma {:induction false} SortIsOrderedPermutation(sortBy: string, s: seq<Design>)
    ensures SortedBy(sortBy, Sort(sortBy, s))
    ensures multiset(Sort(sortBy, s)) == multiset(s)
    decreases |s|
  {
    if s != [] {
      var init := s[..|s| - 1];
      SortIsOrderedPermutation(sortBy, init);
      InsertKeepsSorted(sortBy, s[|s| - 1], Sort(sortBy, init));
      assert s == init + [s[|s| - 1]];
    }
  }

  /** With an unknown key every comparison is 0 and the stable sort keeps the order. */
  lemma {:induction false} UnknownKeyKeepsOrder(sortBy: string, s: seq<Design>)
    requires sortBy != "newest" && sortBy != "oldest" && sortBy != "name"
    ensures Sort(sortBy, s) == s
    decreases |s|
  {
    if s != [] {
      var init := s[..|s| - 1];
      UnknownKeyKeepsOrder(sortBy, init);
      InsertAtEnd(sortBy, s[|s| - 1], init);
      assert s == init + [s[|s| - 1]];
    }
  }

  lemma {:induction false} InsertAtEnd(sortBy: string, x: Design, t: seq<Design>)
    requires sortBy != "newest" && sortBy != "oldest" && sortBy != "name"
    ensures Insert(sortBy, x, t) == t + [x]
    decreases |t|
  {
    if t != [] {
      InsertAtEnd(sortBy, x, t[1..]);
      assert t == [t[0]] + t[1..];
    }
  }

  /** `filteredDesigns` (SavedDesignsPage.jsx:14-27). */
  function FilteredDesigns(designs: seq<Design>, term: string, sortBy: string): seq<Design> {
    Sort(sortBy, Search(designs, term))
  }

  /**
   * The list shown: the matching designs, each once, newest first for
   * `newest`, oldest first for `oldest`, by name for `name`, and in their
   * stored order for any other key.
   */
  lemma FilteredDesignsShown(designs: seq<Design>, term: string, sortBy: string)
    ensures multiset(FilteredDesigns(designs, term, sortBy)) == multiset(Search(designs, term))
    ensures forall d :: d in FilteredDesigns(designs, term, sortBy) <==> d in designs && Matches(d, term)
    ensures sortBy == "newest" ==> var r := FilteredDesigns(designs, term, sortBy);
      forall i, j :: 0 <= i < j < |r| ==> r[i].createdAt >= r[j].createdAt
    ensures sortBy == "oldest" ==> var r := FilteredDesigns(designs, term, sortBy);
      forall i, j :: 0 <= i < j < |r| ==> r[i].createdAt <= r[j].createdAt
    ensures sortBy == "name" ==> var r := FilteredDesigns(designs, term, sortBy);
      forall i, j :: 0 <= i < j < |r| ==> LocaleCompare(r[i].name, r[j].name) <= 0
    ensures sortBy != "newest" && sortBy != "oldest" && sortBy != "name" ==>
      FilteredDesigns(designs, term, sortBy) == Search(designs, term)
  {
    var found := Search(designs, term);
    SortIsOrderedPermutation(sortBy, found);
    SearchKeepsMatches(designs, term);
    var r := Sort(sortBy, found);
    forall d ensures d in r <==> d in found {
      assert d in r <==> d in multiset(r);
      assert d in found <==> d in multiset(found);
    }
    if sortBy != "newest" && sortBy != "oldest" && sortBy != "name" {
      UnknownKeyKeepsOrder(sortBy, found);
    }
  }

  /**
   * `handleDelete` (SavedDesignsPage.jsx:42-46): the design is deleted only when
   * the confirmation is accepted. The first component says whether `deleteDesign`
   * was called.
   */
  function HandleDelete(s: TemplateContext.TemplateState, designId: JsValue, confirmed: bool,
                        requestSucceeded: bool): (r: (bool, TemplateContext.TemplateState))
    ensures r.0 <==> confirmed
    ensures !confirmed ==> r.1 == s
    ensures confirmed ==> r.1 == TemplateContext.DeleteDesignEffect(s, designId, requestSucceeded)
  {
    if confirmed then (true, TemplateContext.DeleteDesignEffect(s, designId, requestSucceeded)) else (false, s)
  }
}
