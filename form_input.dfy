/**
 * What the signup and profile forms share in their `handleInputChange`: the
 * input name `social.k` addresses `socialLinks.k`, and typing into an input
 * clears the error shown under that input's name.
 */
module FormInput {
  import opened Js

  /** The text before the first `.`. */
  function Segment(s: string): (r: string)
    ensures IsPrefix(r, s) && '.' !in r
    decreases |s|
  {
    if s == [] || s[0] == '.' then "" else [s[0]] + Segment(s[1..])
  }

  /** `name.split('.')[1]` for a name that starts with `social.`. */
  function SocialKey(name: string): string
    requires StartsWith(name, "social.")
  {
    Segment(name[7..])
  }

  lemma {:induction false} SegmentWithoutDot(s: string)
    requires '.' !in s
    ensures Segment(s) == s
    decreases |s|
  {
    if s != [] {
      SegmentWithoutDot(s[1..]);
    }
  }

  /** `social.k`, for a key without a dot, addresses `socialLinks.k`. */
  lemma SocialKeyOfPlainKey(k: string)
    requires '.' !in k
    ensures StartsWith("social." + k, "social.") && SocialKey("social." + k) == k
  {
    assert ("social." + k)[..7] == "social.";
    assert ("social." + k)[7..] == k;
    SegmentWithoutDot(k);
  }

  /** A deeper name `social.k.rest` addresses `socialLinks.k`: the rest is ignored. */
  lemma SocialKeyIgnoresRest(k: string, rest: string)
    requires '.' !in k
    ensures StartsWith("social." + k + "." + rest, "social.") && SocialKey("social." + k + "." + rest) == k
  {
    var name := "social." + k + "." + rest;
    assert name[..7] == "social.";
    assert name[7..] == k + ("." + rest);
    SegmentStopsAtDot(k, rest);
  }

  lemma {:induction false} SegmentStopsAtDot(k: string, rest: string)
    requires '.' !in k
    ensures Segment(k + ("." + rest)) == k
    decreases |k|
  {
    if k != [] {
      assert (k + ("." + rest))[1..] == k[1..] + ("." + rest);
      SegmentStopsAtDot(k[1..], rest);
    }
  }

  /**
   * One field's checks in a `validateForm`: the message of the first check that
   * fails is recorded under `key`; the other fields' errors are untouched.
   */
  function Rule(e: map<string, string>, key: string, missing: bool, missingMsg: string,
                invalid: bool, invalidMsg: string): map<string, string>
  {
    if missing then e[key := missingMsg] else if invalid then e[key := invalidMsg] else e
  }

  /**
   * One field's `if (...) newErrors.key = ...; else if (...) newErrors.key = ...`
   * in a `validateForm`, on the errors found so far.
   */
  method CheckField(e: map<string, string>, key: string, missing: bool, missingMsg: string,
                    invalid: bool, invalidMsg: string) returns (r: map<string, string>)
    ensures r == Rule(e, key, missing, missingMsg, invalid, invalidMsg)
  {
    r := e;
    if missing {
      r := r[key := missingMsg];
    } else if invalid {
      r := r[key := invalidMsg];
    }
  }

  /** `if (errors[name]) errors[name] = ''`: only a truthy (non-empty) error is reset. */
  function ClearError(errors: map<string, string>, name: string): (r: map<string, string>)
    ensures r.Keys == errors.Keys
    ensures name in errors ==> r[name] == ""
    ensures forall n :: n in errors && n != name ==> r[n] == errors[n]
  {
    if name in errors && errors[name] != "" then errors[name := ""] else errors
  }
}
