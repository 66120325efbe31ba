/**
 * The slice of JavaScript semantics the core relies on: values and their
 * truthiness (what `||`, `&&` and `if (x)` test), property access and object
 * spread, and the string built-ins the handlers call (`toLowerCase`, `trim`,
 * `includes`, `startsWith`, `parseInt`, number-to-string conversion).
 *
 * Strings are sequences of code points. Case mapping is ASCII case mapping.
 */
module Js {
  import opened Wrappers

  /** A JavaScript value: primitives, arrays and plain objects. Numbers are integral. */
  datatype JsValue =
    | Undefined
    | Null
    | Bool(b: bool)
    | Num(n: int)
    | NaN
    | Str(s: string)
    | Arr(items: seq<JsValue>)
    | Obj(fields: map<string, JsValue>)

  /** The truthiness test of `if (v)`, `v || d` and `!v`. */
  predicate Truthy(v: JsValue) {
    match v
    case Undefined => false
    case Null => false
    case Bool(b) => b
    case Num(n) => n != 0
    case NaN => false
    case Str(s) => s != ""
    case Arr(_) => true
    case Obj(_) => true
  }

  /** `a || b`: the first operand when it is truthy, otherwise the second. */
  function Or(a: JsValue, b: JsValue): JsValue {
    if Truthy(a) then a else b
  }

  /** `v?.key`: the property of an object, `undefined` when it is absent or `v` is not an object. */
  function Get(v: JsValue, key: string): JsValue {
    if v.Obj? && key in v.fields then v.fields[key] else Undefined
  }

  /** `v.key`: `None` is the TypeError reading a property of `null` or `undefined` throws. */
  function Member(v: JsValue, key: string): (r: Option<JsValue>)
    ensures r.None? <==> (v.Undefined? || v.Null?)
    ensures r.Some? ==> r.value == Get(v, key)
  {
    if v.Undefined? || v.Null? then None else Some(Get(v, key))
  }

  /** The own properties `{...v}` contributes to an object literal (none for `null`/`undefined`). */
  function Spread(v: JsValue): map<string, JsValue> {
    if v.Obj? then v.fields else map[]
  }

  /**
   * `a === b`. Primitives compare by value and NaN equals nothing; arrays and
   * objects are compared by their contents, since the model has no references.
   */
  predicate StrictEquals(a: JsValue, b: JsValue) {
    a == b && !a.NaN?
  }

  /** `String(v)`, as a template literal `${v}` or `+` with a string converts it. */
  function ToStr(v: JsValue): string
    decreases v, 1
  {
    match v
    case Undefined => "undefined"
    case Null => "null"
    case Bool(b) => if b then "true" else "false"
    case Num(n) => IntToString(n)
    case NaN => "NaN"
    case Str(s) => s
    case Arr(items) => JoinItems(items, v)
    case Obj(_) => "[object Object]"
  }

  /** `items.join(',')`, where `null` and `undefined` items contribute nothing. */
  function JoinItems(items: seq<JsValue>, ghost whole: JsValue): string
    requires forall k :: 0 <= k < |items| ==> items[k] < whole
    decreases whole, 0, |items|
  {
    if items == [] then ""
    else
      var last := items[|items| - 1];
      var prefix := JoinItems(items[..|items| - 1], whole);
      var text := if last.Undefined? || last.Null? then "" else ToStr(last);
      if |items| == 1 then text else prefix + "," + text
  }

  /** `typeof v === "number"` (true of NaN as well). */
  predicate IsNumber(v: JsValue) {
    v.Num? || v.NaN?
  }

  // ---------------------------------------------------------------------------
  // Characters

  /** The characters `\s` matches and `trim` removes: WhiteSpace and LineTerminator. */
  predicate IsSpace(c: char) {
    c == '\t' || c == '\n' || c == '\U{000B}' || c == '\U{000C}' || c == '\r' || c == ' '
    || c == '\U{00A0}' || c == '\U{1680}' || ('\U{2000}' <= c <= '\U{200A}')
    || c == '\U{2028}' || c == '\U{2029}' || c == '\U{202F}' || c == '\U{205F}'
    || c == '\U{3000}' || c == '\U{FEFF}'
  }

  predicate IsAsciiLower(c: char) { 'a' <= c <= 'z' }
  predicate IsAsciiUpper(c: char) { 'A' <= c <= 'Z' }
  predicate IsDigit(c: char) { '0' <= c <= '9' }
  predicate IsAsciiAlnum(c: char) { IsAsciiLower(c) || IsAsciiUpper(c) || IsDigit(c) }
  /** The characters `\w` matches. */
  predicate IsWordChar(c: char) { IsAsciiAlnum(c) || c == '_' }

  function LowerChar(c: char): char {
    if IsAsciiUpper(c) then (c as int + 32) as char else c
  }

  function UpperChar(c: char): char {
    if IsAsciiLower(c) then (c as int - 32) as char else c
  }

  // ---------------------------------------------------------------------------
  // Strings

  /** `s.toLowerCase()`. */
  function Lower(s: string): (r: string)
    ensures |r| == |s|
  {
    seq(|s|, i requires 0 <= i < |s| => LowerChar(s[i]))
  }

  predicate IsPrefix(p: string, s: string) {
    |p| <= |s| && s[..|p|] == p
  }

  /** `s.startsWith(p)`. */
  predicate StartsWith(s: string, p: string) {
    IsPrefix(p, s)
  }

  /** `s.includes(sub)`: `sub` occurs somewhere in `s` (the empty string occurs everywhere). */
  predicate Contains(s: string, sub: string)
    decreases |s|
  {
    IsPrefix(sub, s) || (s != [] && Contains(s[1..], sub))
  }

  function TrimStart(s: string): (r: string)
    ensures |r| <= |s|
    decreases |s|
  {
    if s != [] && IsSpace(s[0]) then TrimStart(s[1..]) else s
  }

  function TrimEnd(s: string): (r: string)
    ensures |r| <= |s|
    decreases |s|
  {
    if s != [] && IsSpace(s[|s| - 1]) then TrimEnd(s[..|s| - 1]) else s
  }

  /** `s.trim()`. */
  function Trim(s: string): string {
    TrimEnd(TrimStart(s))
  }

  predicate Blank(s: string) {
    forall k :: 0 <= k < |s| ==> IsSpace(s[k])
  }

  lemma {:induction false} TrimStartOfBlank(s: string)
    ensures TrimStart(s) == "" <==> Blank(s)
    ensures TrimStart(s) != "" ==> !IsSpace(TrimStart(s)[0])
    decreases |s|
  {
    if s != [] {
      TrimStartOfBlank(s[1..]);
      if IsSpace(s[0]) {
        assert Blank(s) <==> Blank(s[1..]) by {
          if Blank(s[1..]) {
            forall k | 0 <= k < |s| ensures IsSpace(s[k]) { if k > 0 { assert s[k] == s[1..][k - 1]; } }
          }
        }
      }
    }
  }

  lemma {:induction false} TrimEndOfBlank(s: string)
    ensures TrimEnd(s) == "" ==> Blank(s)
    decreases |s|
  {
    if s != [] && IsSpace(s[|s| - 1]) {
      var t := s[..|s| - 1];
      TrimEndOfBlank(t);
      if TrimEnd(s) == "" {
        forall k | 0 <= k < |s| ensures IsSpace(s[k]) { if k < |s| - 1 { assert s[k] == t[k]; } }
      }
    }
  }

  /** `s.trim()` is empty exactly when `s` is all white space. */
  lemma TrimEmptyIffBlank(s: string)
    ensures Trim(s) == "" <==> Blank(s)
  {
    TrimStartOfBlank(s);
    TrimEndOfBlank(TrimStart(s));
  }

  /** `String(n)` for a non-negative integer: its decimal digits. */
  function NatToString(n: nat): (r: string)
    ensures |r| >= 1
    decreases n
  {
    if n < 10 then [('0' as int + n) as char]
    else NatToString(n / 10) + [('0' as int + n % 10) as char]
  }

  /** `String(n)` for an integer. */
  function IntToString(n: int): string {
    if n < 0 then "-" + NatToString(-n) else NatToString(n)
  }

  // ---------------------------------------------------------------------------
  // parseInt with no radix argument

  function DigitValue(c: char, radix: nat): Option<nat> {
    if IsDigit(c) && (c as int - '0' as int) < radix then Some(c as int - '0' as int)
    else if radix == 16 && 'a' <= c <= 'f' then Some(c as int - 'a' as int + 10)
    else if radix == 16 && 'A' <= c <= 'F' then Some(c as int - 'A' as int + 10)
    else None
  }

  /** The longest prefix of `s` made of digits of the radix. */
  function LeadingDigits(s: string, radix: nat): (r: string)
    ensures IsPrefix(r, s)
    decreases |s|
  {
    if s != [] && DigitValue(s[0], radix).Some? then [s[0]] + LeadingDigits(s[1..], radix) else []
  }

  /** The value of a string of digits in the radix, most significant digit first. */
  function DigitsValue(ds: string, radix: nat): nat
    decreases |ds|
  {
    if ds == [] then 0
    else DigitsValue(ds[..|ds| - 1], radix) * radix + DigitValue(ds[|ds| - 1], radix).GetOr(0)
  }

  /**
   * `parseInt(s)`: leading white space is skipped, one sign is accepted, a `0x`/`0X`
   * prefix selects radix 16, and the longest run of digits that follows is the value;
   * `None` stands for NaN (no digits).
   */
  function ParseInt(s: string): Option<int> {
    var (body, radix) := UnsignedBody(s);
    var ds := LeadingDigits(body, radix);
    if ds == [] then None
    else Some(SignOf(s) * DigitsValue(ds, radix))
  }

  /** The sign `parseInt` reads after the leading white space. */
  function SignOf(s: string): int {
    var t := TrimStart(s);
    if t != [] && t[0] == '-' then -1 else 1
  }

  /** What `parseInt` reads digits from, and in which radix. */
  function UnsignedBody(s: string): (string, nat) {
    var t := TrimStart(s);
    var u := if t != [] && (t[0] == '-' || t[0] == '+') then t[1..] else t;
    if |u| >= 2 && u[0] == '0' && (u[1] == 'x' || u[1] == 'X') then (u[2..], 16) else (u, 10)
  }

  /** `parseInt(String(n))` for the numbers the handlers pass to it as defaults. */
  lemma {:induction false} ParseIntOfNat(n: nat)
    ensures ParseInt(NatToString(n)) == Some(n)
  {
    var s := NatToString(n);
    NatToStringDigits(n);
    assert s[0] != '-' && s[0] != '+' && !IsSpace(s[0]);
    assert TrimStart(s) == s;
    if |s| >= 2 {
      assert s[1] != 'x' && s[1] != 'X';
    }
    assert UnsignedBody(s) == (s, 10);
    AllDigitsLeading(s);
    DigitsValueOfNat(n);
  }

  lemma {:induction false} NatToStringDigits(n: nat)
    ensures forall i :: 0 <= i < |NatToString(n)| ==> IsDigit(NatToString(n)[i])
    decreases n
  {
    if n >= 10 {
      NatToStringDigits(n / 10);
    }
  }

  lemma {:induction false} AllDigitsLeading(s: string)
    requires forall i :: 0 <= i < |s| ==> IsDigit(s[i])
    ensures LeadingDigits(s, 10) == s
    decreases |s|
  {
    if s != [] {
      AllDigitsLeading(s[1..]);
    }
  }

  lemma {:induction false} DigitsValueOfNat(n: nat)
    ensures DigitsValue(NatToString(n), 10) == n
    decreases n
  {
    var s := NatToString(n);
    if n >= 10 {
      DigitsValueOfNat(n / 10);
      assert s[..|s| - 1] == NatToString(n / 10);
    }
  }
}
