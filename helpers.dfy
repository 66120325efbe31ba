/**
 * The pure helpers of the user-panel server (`src/utils/helpers.js`): `slugify`,
 * `isValidEmail` and the skip arithmetic of `paginate`. `slugify` is a chain of
 * five regular-expression replacements after `toLowerCase`; each replacement is
 * one function here, in the order the chain applies them.
 */
module Helpers {
  import opened Wrappers
  import opened Js
  import Seqs
  import Patterns

  // ---------------------------------------------------------------------------
  // The replacement stages

  /**
   * `s.replace(/P+/g, '-')` for a character class `P`: every maximal run of
   * characters satisfying `p` becomes a single `-`. `inRun` says whether the
   * character before `s` was part of such a run.
   */
  function CollapseRuns(s: string, p: char -> bool, inRun: bool): string
    decreases |s|
  {
    if s == [] then []
    else if p(s[0]) then (if inRun then [] else "-") + CollapseRuns(s[1..], p, true)
    else [s[0]] + CollapseRuns(s[1..], p, false)
  }

  predicate IsDash(c: char) { c == '-' }

  /** `s.replace(/[^\w-]+/g, '')`. */
  function KeepWordAndDash(s: string): string {
    Seqs.Filter(s, (c: char) => IsWordChar(c) || c == '-')
  }

  /** `s.replace(/^-+/, '')`. */
  function TrimLeadingDashes(s: string): (r: string)
    decreases |s|
  {
    if s != [] && s[0] == '-' then TrimLeadingDashes(s[1..]) else s
  }

  /** `s.replace(/-+$/, '')`. */
  function TrimTrailingDashes(s: string): (r: string)
    decreases |s|
  {
    if s != [] && s[|s| - 1] == '-' then TrimTrailingDashes(s[..|s| - 1]) else s
  }

  /** `slugify(text)`: helpers.js:34-43. */
  function Slugify(text: string): string {
    var lowered := Lower(text);
    var dashed := CollapseRuns(lowered, IsSpace, false);
    var cleaned := KeepWordAndDash(dashed);
    var single := CollapseRuns(cleaned, IsDash, false);
    TrimTrailingDashes(TrimLeadingDashes(single))
  }

  // ---------------------------------------------------------------------------
  // The shape of a slug

  /** A character a slug may contain: a lower-case letter, a digit, `_` or `-`. */
  predicate SlugChar(c: char) {
    IsAsciiLower(c) || IsDigit(c) || c == '_' || c == '-'
  }

  predicate AllSlugChars(s: string) {
    forall i :: 0 <= i < |s| ==> SlugChar(s[i])
  }

  predicate NoDoubleDash(s: string) {
    forall i :: 0 <= i < |s| - 1 ==> !(s[i] == '-' && s[i + 1] == '-')
  }

  predicate NoEdgeDash(s: string) {
    s != [] ==> s[0] != '-' && s[|s| - 1] != '-'
  }

  /** What `slugify` promises of its output. */
  predicate IsSlug(s: string) {
    AllSlugChars(s) && NoDoubleDash(s) && NoEdgeDash(s)
  }

  // ---------------------------------------------------------------------------
  // Stage lemmas

  /** Every character `CollapseRuns` emits is a `-` or a character of the input outside the class. */
  lemma {:induction false} CollapseRunsChars(s: string, p: char -> bool, inRun: bool)
    ensures forall c :: c in CollapseRuns(s, p, inRun) ==> c == '-' || (c in s && !p(c))
    decreases |s|
  {
    if s != [] {
      CollapseRunsChars(s[1..], p, p(s[0]));
    }
  }

  /** After collapsing the runs of `-`, no two dashes are adjacent, and none leads after a run. */
  lemma {:induction false} CollapseDashesNoDouble(s: string, inRun: bool)
    ensures NoDoubleDash(CollapseRuns(s, IsDash, inRun))
    ensures inRun && CollapseRuns(s, IsDash, inRun) != [] ==> CollapseRuns(s, IsDash, inRun)[0] != '-'
    decreases |s|
  {
    if s != [] {
      var rest := CollapseRuns(s[1..], IsDash, IsDash(s[0]));
      CollapseDashesNoDouble(s[1..], IsDash(s[0]));
      if IsDash(s[0]) {
        if inRun {
          assert CollapseRuns(s, IsDash, inRun) == rest;
        } else {
          assert CollapseRuns(s, IsDash, inRun) == "-" + rest;
        }
      } else {
        assert CollapseRuns(s, IsDash, inRun) == [s[0]] + rest;
      }
    }
  }

  /** Collapsing runs of a class absent from the input changes nothing. */
  lemma {:induction false} CollapseRunsAbsent(s: string, p: char -> bool, inRun: bool)
    requires forall i :: 0 <= i < |s| ==> !p(s[i])
    ensures CollapseRuns(s, p, inRun) == s
    decreases |s|
  {
    if s != [] {
      CollapseRunsAbsent(s[1..], p, false);
    }
  }

  /** Collapsing the runs of `-` in a string without adjacent dashes changes nothing. */
  lemma {:induction false} CollapseDashesIdentity(s: string, inRun: bool)
    requires NoDoubleDash(s)
    requires inRun ==> s == [] || s[0] != '-'
    ensures CollapseRuns(s, IsDash, inRun) == s
    decreases |s|
  {
    if s != [] {
      CollapseDashesIdentity(s[1..], IsDash(s[0]));
    }
  }

  /** Collapsing runs distributes over concatenation, carrying the run state across. */
  lemma {:induction false} CollapseRunsAppend(x: string, y: string, p: char -> bool, inRun: bool)
    ensures CollapseRuns(x + y, p, inRun)
         == CollapseRuns(x, p, inRun) + CollapseRuns(y, p, if x == [] then inRun else p(x[|x| - 1]))
    decreases |x|
  {
    if x == [] {
      assert x + y == y;
    } else {
      var head := if p(x[0]) then (if inRun then [] else "-") else [x[0]];
      assert (x + y)[0] == x[0];
      assert (x + y)[1..] == x[1..] + y;
      CollapseRunsAppend(x[1..], y, p, p(x[0]));
      if |x| > 1 {
        assert x[1..][|x[1..]| - 1] == x[|x| - 1];
      }
      var a, b := CollapseRuns(x[1..], p, p(x[0])), CollapseRuns(y, p, p(x[|x| - 1]));
      assert CollapseRuns(x + y, p, inRun) == head + (a + b);
      assert CollapseRuns(x, p, inRun) == head + a;
      Seqs.AppendAssoc3(head, a, b);
    }
  }

  /** A non-empty run of the class becomes exactly one `-`. */
  lemma {:induction false} CollapseRunsOfRun(w: string, p: char -> bool)
    requires w != [] && forall i :: 0 <= i < |w| ==> p(w[i])
    ensures CollapseRuns(w, p, false) == "-"
  {
    CollapseRunsInsideRun(w[1..], p);
  }

  lemma {:induction false} CollapseRunsInsideRun(w: string, p: char -> bool)
    requires forall i :: 0 <= i < |w| ==> p(w[i])
    ensures CollapseRuns(w, p, true) == []
    decreases |w|
  {
    if w != [] {
      CollapseRunsInsideRun(w[1..], p);
    }
  }

  lemma {:induction false} TrimLeadingDashesShape(s: string)
    ensures var r := TrimLeadingDashes(s);
      |r| <= |s| && r == s[|s| - |r|..] && (r != [] ==> r[0] != '-')
    decreases |s|
  {
    if s != [] && s[0] == '-' {
      TrimLeadingDashesShape(s[1..]);
    }
  }

  lemma {:induction false} TrimTrailingDashesShape(s: string)
    ensures var r := TrimTrailingDashes(s);
      |r| <= |s| && r == s[..|r|] && (r != [] ==> r[|r| - 1] != '-')
    decreases |s|
  {
    if s != [] && s[|s| - 1] == '-' {
      TrimTrailingDashesShape(s[..|s| - 1]);
    }
  }

  /** A contiguous piece of a string keeps its character set and its lack of adjacent dashes. */
  lemma SliceKeepsShape(s: string, lo: int, hi: int)
    requires 0 <= lo <= hi <= |s|
    ensures AllSlugChars(s) ==> AllSlugChars(s[lo..hi])
    ensures NoDoubleDash(s) ==> NoDoubleDash(s[lo..hi])
  {
    var t := s[lo..hi];
    if NoDoubleDash(s) {
      forall i | 0 <= i < |t| - 1 ensures !(t[i] == '-' && t[i + 1] == '-') {
        assert t[i] == s[lo + i] && t[i + 1] == s[lo + i + 1];
      }
    }
    if AllSlugChars(s) {
      forall i | 0 <= i < |t| ensures SlugChar(t[i]) {
        assert t[i] == s[lo + i];
      }
    }
  }

  // ---------------------------------------------------------------------------
  // What slugify promises

  /** The characters of a slug: lower-case letters, digits, `_` and `-` only. */
  lemma SlugifyCharset(text: string)
    ensures AllSlugChars(Slugify(text))
  {
    var lowered := Lower(text);
    var dashed := CollapseRuns(lowered, IsSpace, false);
    var cleaned := KeepWordAndDash(dashed);
    var single := CollapseRuns(cleaned, IsDash, false);
    CollapseRunsChars(lowered, IsSpace, false);
    forall c | c in cleaned ensures SlugChar(c) {
      assert c in dashed && (IsWordChar(c) || c == '-');
      if c != '-' {
        assert c in lowered;
        var k :| 0 <= k < |lowered| && lowered[k] == c;
        assert lowered[k] == LowerChar(text[k]);
      }
    }
    CollapseRunsChars(cleaned, IsDash, false);
    assert AllSlugChars(single) by {
      forall i | 0 <= i < |single| ensures SlugChar(single[i]) {
        assert single[i] in single;
      }
    }
    var lead := TrimLeadingDashes(single);
    TrimLeadingDashesShape(single);
    SliceKeepsShape(single, |single| - |lead|, |single|);
    TrimTrailingDashesShape(lead);
    SliceKeepsShape(lead, 0, |TrimTrailingDashes(lead)|);
  }

  /** A slug never contains `--` and never starts or ends with `-`. */
  lemma SlugifyDashes(text: string)
    ensures NoDoubleDash(Slugify(text)) && NoEdgeDash(Slugify(text))
  {
    var cleaned := KeepWordAndDash(CollapseRuns(Lower(text), IsSpace, false));
    var single := CollapseRuns(cleaned, IsDash, false);
    CollapseDashesNoDouble(cleaned, false);
    var lead := TrimLeadingDashes(single);
    TrimLeadingDashesShape(single);
    SliceKeepsShape(single, |single| - |lead|, |single|);
    var r := TrimTrailingDashes(lead);
    TrimTrailingDashesShape(lead);
    SliceKeepsShape(lead, 0, |r|);
    if r != [] {
      assert r[0] == lead[0];
    }
  }

  lemma SlugifyIsSlug(text: string)
    ensures IsSlug(Slugify(text))
  {
    SlugifyCharset(text);
    SlugifyDashes(text);
  }

  /** Every stage leaves a slug as it is, so `slugify` does too. */
  lemma SlugifyFixesSlugs(t: string)
    requires IsSlug(t)
    ensures Slugify(t) == t
  {
    assert Lower(t) == t;
    CollapseRunsAbsent(t, IsSpace, false);
    Seqs.FilterAll(t, (c: char) => IsWordChar(c) || c == '-');
    CollapseDashesIdentity(t, false);
  }

  /** `slugify(slugify(s)) == slugify(s)`. */
  lemma SlugifyIdempotent(text: string)
    ensures Slugify(Slugify(text)) == Slugify(text)
  {
    SlugifyIsSlug(text);
    SlugifyFixesSlugs(Slugify(text));
  }

  /** A word: a non-empty run of lower-case letters and digits. */
  predicate PlainWord(a: string) {
    a != [] && forall i :: 0 <= i < |a| ==> IsAsciiLower(a[i]) || IsDigit(a[i])
  }

  /**
   * White space is turned into dashes before anything is removed: two words
   * separated by any non-empty run of white space come out joined by one `-`.
   */
  /** The white-space stage turns `a + w + b` into `a + "-" + b`. */
  lemma DashJoinsWords(a: string, w: string, b: string)
    requires PlainWord(a) && PlainWord(b)
    requires w != [] && forall i :: 0 <= i < |w| ==> IsSpace(w[i])
    ensures CollapseRuns(a + w + b, IsSpace, false) == a + "-" + b
  {
    CollapseRunsAppend(a + w, b, IsSpace, false);
    CollapseRunsAppend(a, w, IsSpace, false);
    CollapseRunsAbsent(a, IsSpace, false);
    CollapseRunsOfRun(w, IsSpace);
    CollapseRunsAbsent(b, IsSpace, true);
    assert (a + w)[|a + w| - 1] == w[|w| - 1];
  }

  lemma JoinedWordsAreSlug(a: string, b: string)
    requires PlainWord(a) && PlainWord(b)
    ensures IsSlug(a + "-" + b)
  {
    var t := a + "-" + b;
    forall i | 0 <= i < |t| - 1 ensures !(t[i] == '-' && t[i + 1] == '-') {
      if i < |a| { assert t[i] == a[i]; }
      else if i == |a| { assert t[i + 1] == b[0]; }
      else { assert t[i] == b[i - |a| - 1]; }
    }
    forall i | 0 <= i < |t| ensures SlugChar(t[i]) {
      if i < |a| { assert t[i] == a[i]; }
      else if i > |a| { assert t[i] == b[i - |a| - 1]; }
    }
    assert t[0] == a[0] && t[|t| - 1] == b[|b| - 1];
  }

  /**
   * White space is turned into dashes before anything is removed: two words
   * separated by any non-empty run of white space come out joined by one `-`.
   */
  lemma SlugifyJoinsWords(a: string, w: string, b: string)
    requires PlainWord(a) && PlainWord(b)
    requires w != [] && forall i :: 0 <= i < |w| ==> IsSpace(w[i])
    ensures Slugify(a + w + b) == a + "-" + b
  {
    var s := a + w + b;
    assert Lower(s) == s by {
      forall i | 0 <= i < |s| ensures LowerChar(s[i]) == s[i] {
        if i < |a| { assert s[i] == a[i]; }
        else if i < |a| + |w| { assert s[i] == w[i - |a|]; }
        else { assert s[i] == b[i - |a| - |w|]; }
      }
    }
    DashJoinsWords(a, w, b);
    var t := a + "-" + b;
    JoinedWordsAreSlug(a, b);
    Seqs.FilterAll(t, (c: char) => IsWordChar(c) || c == '-');
    CollapseDashesIdentity(t, false);
    assert TrimLeadingDashes(t) == t;
    assert TrimTrailingDashes(t) == t;
  }

  // ---------------------------------------------------------------------------
  // isValidEmail and paginate

  /** `isValidEmail(email)`: helpers.js:48-51, the shared email expression. */
  function IsValidEmail(email: string): (ok: bool)
    ensures ok <==> Patterns.EmailRegexMatches(email)
  {
    Patterns.EmailScanIsRegex(email);
    Patterns.MatchesEmail(email)
  }

  /** The `skip` and `limit` `paginate(query, page = 1, limit = 10)` applies to the query. */
  function Paginate(page: Option<int>, limit: Option<int>): (r: (int, int))
    ensures r.1 == limit.GetOr(10)
    ensures page.None? || page == Some(1) ==> r.0 == 0
  {
    var p := page.GetOr(1);
    var l := limit.GetOr(10);
    ((p - 1) * l, l)
  }

  /** Consecutive pages are adjacent windows: page `p + 1` starts where page `p` ends. */
  lemma PagesAbut(p: int, limit: int)
    ensures Paginate(Some(p + 1), Some(limit)).0 == Paginate(Some(p), Some(limit)).0 + limit
  {
  }
}
