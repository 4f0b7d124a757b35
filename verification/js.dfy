/** The small slice of JavaScript value semantics that both scripts rely on:
    optional values, thrown-or-returned outcomes, truthiness, optional-chained
    property access and the decimal rendering of a number in a template literal. */
module Js {

  /** `T | undefined`. */
  datatype Option<+T> = None | Some(value: T)

  /** The outcome of an awaited call: the value it returned or the value it threw. */
  datatype Result<+T, +E> = Success(value: T) | Failure(error: E)

  /** A JavaScript value, as far as these scripts inspect one. Numbers are integers
      here; an object is the map of the properties reachable on it (own or inherited). */
  datatype JsValue =
    | Undefined
    | Null
    | Bool(b: bool)
    | Num(n: int)
    | Str(s: string)
    | Object(props: map<string, JsValue>)

  /** `!!v`: the falsy values are undefined, null, false, 0 and "". */
  predicate Truthy(v: JsValue)
  {
    match v
    case Undefined => false
    case Null => false
    case Bool(b) => b
    case Num(n) => n != 0
    case Str(s) => s != ""
    case Object(_) => true
  }

  /** A `string | undefined` (an environment variable, an argv slot) as a JavaScript value. */
  function FromOptional(o: Option<string>): (v: JsValue)
    ensures v.Undefined? <==> o.None?
    ensures o.Some? ==> v == Str(o.value)
  {
    match o
    case None => Undefined
    case Some(s) => Str(s)
  }

  /** Truthiness of a `string | undefined`. */
  predicate Present(o: Option<string>)
  {
    Truthy(FromOptional(o))
  }

  lemma PresentMeans(o: Option<string>)
    ensures Present(o) <==> o.Some? && o.value != ""
  {
  }

  /** `v?.key`: never throws; any value other than an object has none of the
      properties these scripts look up. */
  function Prop(v: JsValue, key: string): (r: JsValue)
    ensures !v.Object? ==> r == Undefined
    ensures v.Object? && key !in v.props ==> r == Undefined
    ensures v.Object? && key in v.props ==> r == v.props[key]
  {
    match v
    case Object(props) => if key in props then props[key] else Undefined
    case _ => Undefined
  }

  /** `v == null`: the two values whose properties cannot be read. */
  predicate Nullish(v: JsValue)
  {
    v.Undefined? || v.Null?
  }

  /** `new TypeError(message)`, as far as these scripts look at it. */
  function TypeError(message: string): JsValue
  {
    Object(map["name" := Str("TypeError"), "message" := Str(message)])
  }

  /** How V8 spells undefined and null in its messages. */
  function NullishName(v: JsValue): string
    requires Nullish(v)
  {
    if v.Null? then "null" else "undefined"
  }

  const ReadPrefix: string := "Cannot read properties of "
  const DestructurePrefix: string := "Cannot destructure property '"

  /** What `v.key` throws when `v` is undefined or null: a TypeError whose message, in
      V8's wording, names the property and the value read from. */
  function PropertyReadError(key: string, v: JsValue): JsValue
    requires Nullish(v)
  {
    TypeError(ReadPrefix + NullishName(v) + " (reading '" + key + "')")
  }

  /** What `const { key, ... } = v` throws when `v` is undefined or null, in V8's
      wording for a destructured `await` result. */
  function DestructureError(key: string, v: JsValue): JsValue
    requires Nullish(v)
  {
    TypeError(DestructurePrefix + key + "' of '(intermediate value)' as it is " + NullishName(v) + ".")
  }

  /** Both errors are TypeErrors with a message, so whoever reports them has text to
      show. */
  lemma TypeErrorsCarryMessages(key: string, v: JsValue)
    requires Nullish(v)
    ensures Prop(PropertyReadError(key, v), "name") == Str("TypeError") && Truthy(Prop(PropertyReadError(key, v), "message"))
    ensures Prop(DestructureError(key, v), "name") == Str("TypeError") && Truthy(Prop(DestructureError(key, v), "message"))
  {
  }

  /** Decimal digits of a non-negative integer, as `${n}` writes it. */
  function Decimal(n: nat): (s: string)
    ensures |s| >= 1
    ensures forall i :: 0 <= i < |s| ==> IsDigit(s[i])
    ensures s[0] == '0' ==> n == 0
  {
    if n < 10 then [DigitChar(n)] else Decimal(n / 10) + [DigitChar(n % 10)]
  }

  predicate IsDigit(c: char)
  {
    '0' <= c <= '9'
  }

  function DigitChar(d: nat): (c: char)
    requires d < 10
    ensures IsDigit(c) && (c as int) - ('0' as int) == d
  {
    (('0' as int) + d) as char
  }

  /** The number a string of decimal digits denotes (the reading side of `Decimal`). */
  function DecimalValue(s: string): nat
    requires forall i :: 0 <= i < |s| ==> IsDigit(s[i])
  {
    if s == [] then 0
    else
      var last := s[|s| - 1];
      assert IsDigit(last);
      10 * DecimalValue(s[..|s| - 1]) + ((last as int) - ('0' as int))
  }

  /** Rendering a number and reading it back gives the number again. */
  lemma {:induction false} DecimalRoundTrip(n: nat)
    ensures DecimalValue(Decimal(n)) == n
  {
    if n >= 10 {
      var s := Decimal(n);
      assert s[..|s| - 1] == Decimal(n / 10);
      DecimalRoundTrip(n / 10);
    }
  }

  /** Distinct numbers render as distinct strings. */
  lemma DecimalInjective(a: nat, b: nat)
    requires Decimal(a) == Decimal(b)
    ensures a == b
  {
    DecimalRoundTrip(a);
    DecimalRoundTrip(b);
  }

  /** `${n}` for any integer, with a leading minus sign when negative. */
  function IntToString(n: int): (s: string)
    ensures |s| >= 1 && (s[0] == '-' <==> n < 0)
    ensures var digits := if n < 0 then s[1..] else s;
      && |digits| >= 1
      && (forall i :: 0 <= i < |digits| ==> IsDigit(digits[i]))
      && DecimalValue(digits) == if n < 0 then -n else n
  {
    if n >= 0 then
      DecimalRoundTrip(n);
      Decimal(n)
    else
      DecimalRoundTrip(-n);
      assert ("-" + Decimal(-n))[1..] == Decimal(-n);
      "-" + Decimal(-n)
  }
}
