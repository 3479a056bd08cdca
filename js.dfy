/**
 * The slice of JavaScript value semantics that the Mackerel client relies on:
 * truthiness (`if (x)`, `x || fallback`), what `JSON.stringify` returns at the
 * top level, how a template literal renders `undefined`, and how an integer is
 * written in decimal.  JSON encoding itself is an external library, so it is
 * passed in as an `Encoder`.
 */
module Js {

  datatype Option<+T> = None | Some(value: T)

  datatype Result<+R, +E> = Success(value: R) | Failure(error: E)

  /** A JavaScript value as far as the client inspects it; numbers are integers here. */
  datatype Value =
    | Undefined
    | Null
    | Bool(b: bool)
    | Num(n: int)
    | Str(s: string)
    | Arr(items: seq<Value>)
    | Obj(fields: seq<(string, Value)>)
    | Fn

  /** JavaScript truthiness: `undefined`, `null`, `false`, `0` and `""` are falsy. */
  predicate Truthy(v: Value) {
    match v
    case Undefined => false
    case Null => false
    case Bool(b) => b
    case Num(n) => n != 0
    case Str(s) => s != ""
    case Arr(_) => true
    case Obj(_) => true
    case Fn => true
  }

  /** Truthiness of an optional string: absent and `""` are falsy. */
  predicate Filled(s: Option<string>) {
    s.Some? && s.value != ""
  }

  /** `s || fallback` on an optional string. */
  function StringOr(s: Option<string>, fallback: string): (r: string)
    ensures Filled(s) ==> r == s.value
    ensures !Filled(s) ==> r == fallback
    ensures fallback != "" ==> r != ""
  {
    if Filled(s) then s.value else fallback
  }

  /** The empty object literal `{}`. */
  const EmptyObject: Value := Obj([])

  /** `v || {}` */
  function OrEmptyObject(v: Value): (r: Value)
    ensures Truthy(r)
    ensures Truthy(v) ==> r == v
    ensures !Truthy(v) ==> r == EmptyObject
  {
    if Truthy(v) then v else EmptyObject
  }

  /** JSON text of a value that JSON can represent; supplied by the JSON library. */
  type Encoder = Value -> string

  /**
   * `JSON.stringify(v)`: `undefined` for `undefined` and for a function,
   * otherwise the library's JSON text.
   */
  function Stringify(enc: Encoder, v: Value): (r: Option<string>)
    ensures r.None? <==> v.Undefined? || v.Fn?
    ensures r.Some? ==> r.value == enc(v)
  {
    if v.Undefined? || v.Fn? then None else Some(enc(v))
  }

  /** A string-or-undefined as a JavaScript value. */
  function TextValue(t: Option<string>): (r: Value)
    ensures r.Undefined? <==> t.None?
    ensures t.Some? ==> r == Str(t.value)
  {
    match t
    case None => Undefined
    case Some(s) => Str(s)
  }

  /** `${t}` in a template literal, for a string-or-undefined. */
  function Interpolate(t: Option<string>): (r: string)
    ensures t.Some? ==> r == t.value
    ensures t.None? ==> r == "undefined"
  {
    match t
    case None => "undefined"
    case Some(s) => s
  }

  /** The string-valued property `key` of `v` (`v.key`), if `v` is an object holding one. */
  function StringProperty(v: Value, key: string): (r: Option<string>)
    ensures !v.Obj? ==> r.None?
    ensures r.Some? ==> v.Obj? && (key, Str(r.value)) in v.fields
  {
    if v.Obj? then FieldString(v.fields, key) else None
  }

  function FieldString(fields: seq<(string, Value)>, key: string): (r: Option<string>)
    ensures r.Some? ==> (key, Str(r.value)) in fields
  {
    if fields == [] then None
    else if fields[0].0 == key then (if fields[0].1.Str? then Some(fields[0].1.s) else None)
    else FieldString(fields[1..], key)
  }

  // ---------------------------------------------------------------------------
  // Decimal rendering of integers, as `${n}` does it.

  predicate IsDigit(ch: char) {
    '0' <= ch <= '9'
  }

  function DigitChar(d: nat): (ch: char)
    requires d < 10
    ensures IsDigit(ch)
  {
    "0123456789"[d]
  }

  function DigitOf(ch: char): (d: nat)
    requires IsDigit(ch)
    ensures d < 10
  {
    (ch - '0') as nat
  }

  /** The decimal digits of `n`, most significant first, without leading zeros. */
  function Digits(n: nat): (s: string)
    ensures |s| > 0
    ensures forall i :: 0 <= i < |s| ==> IsDigit(s[i])
    ensures s[0] == '0' ==> n == 0
    decreases n
  {
    if n < 10 then [DigitChar(n)] else Digits(n / 10) + [DigitChar(n % 10)]
  }

  /** The number a string of decimal digits denotes. */
  function DigitsValue(s: string): (n: nat)
    requires forall i :: 0 <= i < |s| ==> IsDigit(s[i])
  {
    if s == [] then 0 else 10 * DigitsValue(s[..|s| - 1]) + DigitOf(s[|s| - 1])
  }

  /** Reading back the digits of `n` yields `n`: distinct numbers render differently. */
  lemma {:induction false} DigitsRoundTrip(n: nat)
    ensures DigitsValue(Digits(n)) == n
    decreases n
  {
    if n >= 10 {
      var s := Digits(n);
      DigitsRoundTrip(n / 10);
      assert s[..|s| - 1] == Digits(n / 10);
      assert DigitOf(DigitChar(n % 10)) == n % 10;
    } else {
      assert DigitOf(DigitChar(n)) == n;
    }
  }

  /** `${n}` for an integer `n`. */
  function DecimalString(n: int): (s: string)
    ensures n >= 0 ==> s == Digits(n)
    ensures n < 0 ==> s == "-" + Digits(-n)
  {
    if n >= 0 then Digits(n) else "-" + Digits(-n)
  }

  /** A rendering starts with a minus sign exactly when the number is negative; the digits follow it. */
  lemma SignOf(n: int)
    ensures |DecimalString(n)| > 0
    ensures DecimalString(n)[0] == '-' <==> n < 0
    ensures n < 0 ==> DecimalString(n)[1..] == Digits(-n)
  {
    if n >= 0 {
      assert IsDigit(Digits(n)[0]);
    }
  }

  /** Distinct non-negative numbers have distinct digit strings. */
  lemma DigitsInjective(m: nat, n: nat)
    requires Digits(m) == Digits(n)
    ensures m == n
  {
    DigitsRoundTrip(m);
    DigitsRoundTrip(n);
  }

  /** Decimal rendering is injective, so a query parameter identifies its number. */
  lemma DecimalStringInjective(m: int, n: int)
    requires DecimalString(m) == DecimalString(n)
    ensures m == n
  {
    SignOf(m);
    SignOf(n);
    if m >= 0 {
      DigitsInjective(m, n);
    } else {
      DigitsInjective(-m, -n);
    }
  }
}
