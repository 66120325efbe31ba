/**
 * The regular expressions the client and the server test strings against,
 * each read as a predicate over characters. The email expression
 * `^[^\s@]+@[^\s@]+\.[^\s@]+$` is written out identically in the signup page,
 * the profile page and the server helpers; it is defined once here.
 */
module Patterns {
  import opened Wrappers
  import opened Js
  import Seqs

  /** A character `[^\s@]` matches. */
  predicate Plain(c: char) {
    !IsSpace(c) && c != '@'
  }

  /**
   * The reading of the email expression: `s` is `A@B.C` with `A`, `B`, `C`
   * non-empty runs of `[^\s@]`, the `@` at index `i` and the `.` at index `j`.
   */
  ghost predicate EmailSplitAt(s: string, i: int, j: int) {
    1 <= i && i + 2 <= j && j + 2 <= |s| && s[i] == '@' && s[j] == '.'
    && forall k :: 0 <= k < |s| && k != i ==> Plain(s[k])
  }

  ghost predicate EmailRegexMatches(s: string) {
    exists i, j :: EmailSplitAt(s, i, j)
  }

  /** The index of the first occurrence of `c` in `s`. */
  function IndexOf(s: string, c: char): (r: Option<nat>)
    ensures r.Some? ==> r.value < |s| && s[r.value] == c && forall k :: 0 <= k < r.value ==> s[k] != c
    ensures r.None? ==> forall k :: 0 <= k < |s| ==> s[k] != c
  {
    if s == [] then None
    else if s[0] == c then Some(0)
    else match IndexOf(s[1..], c)
      case None => None
      case Some(k) => Some(k + 1)
  }

  /** `b` has a `.` that is neither its first nor its last character. */
  predicate HasInnerDot(b: string) {
    exists k :: 1 <= k < |b| - 1 && b[k] == '.'
  }

  /**
   * The email test as a scan: one `@` that is not the first character, no white
   * space and no second `@`, and a `.` strictly inside the part after the `@`.
   */
  predicate MatchesEmail(s: string) {
    match IndexOf(s, '@')
    case None => false
    case Some(i) =>
      i >= 1 && (forall k :: 0 <= k < |s| && k != i ==> Plain(s[k])) && HasInnerDot(s[i + 1..])
  }

  /** The scan accepts exactly the strings the regular expression matches. */
  lemma EmailScanIsRegex(s: string)
    ensures MatchesEmail(s) <==> EmailRegexMatches(s)
  {
    if MatchesEmail(s) {
      var i := IndexOf(s, '@').value;
      var b := s[i + 1..];
      var k :| 1 <= k < |b| - 1 && b[k] == '.';
      assert EmailSplitAt(s, i, i + 1 + k);
    }
    if EmailRegexMatches(s) {
      var i, j :| EmailSplitAt(s, i, j);
      assert !Plain(s[i]);
      assert forall k :: 0 <= k < i ==> s[k] != '@' by {
        forall k | 0 <= k < i ensures s[k] != '@' { assert Plain(s[k]); }
      }
      var found := IndexOf(s, '@');
      assert found == Some(i);
      var b := s[i + 1..];
      assert b[j - i - 1] == '.';
    }
  }

  /** The regular expression never accepts a string containing white space. */
  lemma EmailHasNoSpace(s: string, k: int)
    requires EmailRegexMatches(s) && 0 <= k < |s|
    ensures !IsSpace(s[k])
  {
    var i, j :| EmailSplitAt(s, i, j);
    if k != i { assert Plain(s[k]); }
  }

  /** `s.replace(/\s/g, '')`. */
  function RemoveSpaces(s: string): string {
    Seqs.Filter(s, (c: char) => !IsSpace(c))
  }

  /** `s.replace(/\s|-/g, '')`. */
  function RemoveSpacesAndHyphens(s: string): string {
    Seqs.Filter(s, (c: char) => !IsSpace(c) && c != '-')
  }

  predicate AllDigits(s: string) {
    forall k :: 0 <= k < |s| ==> IsDigit(s[k])
  }

  /** `^[0-9]{10}$`. */
  predicate TenDigits(t: string) {
    |t| == 10 && AllDigits(t)
  }

  /** `^[\+]?[1-9][\d]{0,15}$`: an optional `+`, a non-zero digit, then at most fifteen digits. */
  predicate InternationalNumber(t: string) {
    var d := if t != [] && t[0] == '+' then t[1..] else t;
    1 <= |d| <= 16 && '1' <= d[0] <= '9' && AllDigits(d)
  }
}
