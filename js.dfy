/**
 * The slice of JavaScript value semantics the application relies on:
 * JSON values as `JSON.parse` produces them, truthiness, property reads,
 * `typeof`, `a || b`, and decimal rendering of a non-negative integer.
 */
module Js {
  import opened Wrappers

  /** A JSON value. Numbers are reals: JSON text has no NaN or Infinity. */
  datatype Json =
    | JNull
    | JBool(b: bool)
    | JNum(n: real)
    | JStr(s: string)
    | JArr(items: seq<Json>)
    | JObj(members: map<string, Json>)

  /** ToBoolean: null, false, 0 and "" are falsy; every array and object is truthy. */
  predicate Truthy(v: Json)
  {
    match v
    case JNull => false
    case JBool(b) => b
    case JNum(n) => n != 0.0
    case JStr(s) => s != ""
    case _ => true
  }

  /** Truthiness of a property read, where None is `undefined`. */
  predicate TruthyRead(v: Option<Json>)
  {
    v.Some? && Truthy(v.value)
  }

  /**
   * `v[key]`: only an object has the application's keys as own properties;
   * reading them from any other value gives `undefined`.
   */
  function Get(v: Json, key: string): Option<Json>
  {
    if v.JObj? && key in v.members then Some(v.members[key]) else None
  }

  /** `v || fallback` where `v` may be `undefined`. */
  function OrElse(v: Option<Json>, fallback: Json): Json
  {
    if TruthyRead(v) then v.value else fallback
  }

  /** The `typeof` operator on a JSON value (`typeof null` is "object"). */
  function TypeOf(v: Json): string
  {
    match v
    case JNull => "object"
    case JBool(_) => "boolean"
    case JNum(_) => "number"
    case JStr(_) => "string"
    case JArr(_) => "object"
    case JObj(_) => "object"
  }

  /** A property of a request body: absent, explicitly null, or present. */
  datatype Field<+T> = Undefined | Null | Present(value: T)

  /** Truthiness of a string-valued property. */
  predicate TruthyText(f: Field<string>)
  {
    f.Present? && f.value != ""
  }

  /** `f || fallback` for a string-valued property. */
  function TextOr(f: Field<string>, fallback: string): string
  {
    if TruthyText(f) then f.value else fallback
  }

  function DigitChar(d: nat): char
    requires d < 10
  {
    ('0' as int + d) as char
  }

  /** `String(n)` for a non-negative integer, as in `${Date.now()}` or an array index key. */
  function NatToString(n: nat): (s: string)
    ensures |s| >= 1
    ensures forall i :: 0 <= i < |s| ==> '0' <= s[i] <= '9'
    ensures |s| > 1 ==> s[0] != '0'
    decreases n
  {
    if n < 10 then [DigitChar(n)] else NatToString(n / 10) + [DigitChar(n % 10)]
  }

  /** The value of a string of decimal digits. */
  function DecimalValue(s: string): nat
    requires forall i :: 0 <= i < |s| ==> '0' <= s[i] <= '9'
  {
    if |s| == 0 then 0 else 10 * DecimalValue(s[..|s| - 1]) + (s[|s| - 1] as int - '0' as int)
  }

  /** Reading back the decimal rendering gives the number again. */
  lemma {:induction false} DecimalRoundTrip(n: nat)
    ensures DecimalValue(NatToString(n)) == n
    decreases n
  {
    var s := NatToString(n);
    if n >= 10 {
      var q, d := n / 10, n % 10;
      DecimalRoundTrip(q);
      assert s == NatToString(q) + [DigitChar(d)];
      assert s[..|s| - 1] == NatToString(q);
      assert DecimalValue(s) == 10 * q + d;
    }
  }

  /** Distinct numbers render to distinct strings. */
  lemma NatToStringInjective(m: nat, n: nat)
    ensures NatToString(m) == NatToString(n) ==> m == n
  {
    DecimalRoundTrip(m);
    DecimalRoundTrip(n);
  }
}
