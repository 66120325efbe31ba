/**
 * The form fields both frame-upload handlers read from a multipart body. A
 * field sent once arrives as a string, a field sent several times as an array
 * of strings, and a field not sent is `undefined`. Both handlers then apply
 * `Array.isArray(f) ? f : [f]`.
 */
module MultipartFields {
  import opened Wrappers

  /** One body field: absent, a single value, or an array of at least one value. */
  datatype FormField = Absent | One(value: string) | Many(first: string, rest: seq<string>)

  /** `if (f)`: an absent field and an empty string are falsy. */
  predicate FieldTruthy(f: FormField) {
    match f
    case Absent => false
    case One(v) => v != ""
    case Many(_, _) => true
  }

  /** `Array.isArray(f) ? f : [f]`, where `None` is `undefined`. */
  function Wrap(f: FormField): (a: seq<Option<string>>)
    ensures |a| >= 1
    ensures f.Absent? ==> a == [None]
    ensures f.One? ==> a == [Some(f.value)]
    ensures f.Many? ==> (|a| == 1 + |f.rest| && a[0] == Some(f.first)
      && forall k :: 0 <= k < |f.rest| ==> a[k + 1] == Some(f.rest[k]))
  {
    match f
    case Absent => [None]
    case One(v) => [Some(v)]
    case Many(v, vs) => [Some(v)] + seq(|vs|, k requires 0 <= k < |vs| => Some(vs[k]))
  }

  /** `a[i]` on a wrapped field: `undefined` past its end. */
  function At(a: seq<Option<string>>, i: nat): (v: Option<string>)
    ensures i < |a| ==> v == a[i]
    ensures i >= |a| ==> v.None?
  {
    if i < |a| then a[i] else None
  }

  /** `a[i]` is truthy: present and non-empty. */
  predicate TruthyAt(a: seq<Option<string>>, i: nat) {
    At(a, i).Some? && At(a, i).value != ""
  }
}
