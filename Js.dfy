/**
 * The slice of JavaScript value semantics the SDK relies on: dynamically
 * typed values, truthiness, property access (which throws on null and
 * undefined), object spread, and conversion to a string as a template
 * literal or `toString()` performs it.
 */
module Js {

  datatype Option<+T> = None | Some(value: T)

  datatype Result<+R, +E> = Success(value: R) | Failure(error: E)

  /** The outcome of a check that returns nothing or throws. */
  datatype Outcome<+E> = Pass | Fail(error: E)

  /** The largest integer a JavaScript number holds exactly (`Number.MAX_SAFE_INTEGER`, 2^53 - 1). */
  const MaxSafeInteger: int := 9007199254740991

  /** The integral numbers JavaScript represents exactly; all of them print without an exponent. */
  type SafeInteger = n: int | -MaxSafeInteger <= n <= MaxSafeInteger

  /**
   * A JavaScript value as it travels through the SDK: parsed SOAP replies,
   * request parameters and caller arguments. Numbers are the safe integers.
   */
  datatype Value =
    | Undefined
    | Null
    | Bool(b: bool)
    | Num(n: SafeInteger)
    | Str(s: string)
    | List(items: seq<Value>)
    | Record(fields: map<string, Value>)

  /** What a `throw` carries: `new Error(message)`, or the runtime's TypeError. */
  datatype Exception = Error(message: string) | TypeError

  /** `null` or `undefined`: the two values whose properties cannot be read. */
  predicate Nullish(v: Value) {
    v.Undefined? || v.Null?
  }

  /** JavaScript truthiness (`!!v`). */
  predicate Truthy(v: Value) {
    match v
    case Undefined => false
    case Null => false
    case Bool(b) => b
    case Num(n) => n != 0
    case Str(s) => s != ""
    case List(_) => true
    case Record(_) => true
  }

  /** The own property `key` of a record; `undefined` when it is absent or `v` is not a record. */
  function Prop(v: Value, key: string): (r: Value)
    ensures r != Undefined ==> v.Record? && key in v.fields && v.fields[key] == r
    ensures v.Record? && key in v.fields ==> r == v.fields[key]
  {
    if v.Record? && key in v.fields then v.fields[key] else Undefined
  }

  /**
   * `v[key]` for a non-index key: a TypeError on null and undefined, and the
   * property (or `undefined`) for everything else.
   */
  function Get(v: Value, key: string): (r: Result<Value, Exception>)
    ensures r.Failure? <==> Nullish(v)
    ensures r.Failure? ==> r.error == TypeError
    ensures r.Success? ==> r.value == Prop(v, key)
  {
    if Nullish(v) then Failure(TypeError) else Success(Prop(v, key))
  }

  /** `{ ...v }`: the own properties a non-array value contributes to an object literal. */
  function Spread(v: Value): (r: map<string, Value>)
    requires !v.List? && !v.Str?
    ensures v.Record? ==> r == v.fields
    ensures !v.Record? ==> r == map[]
  {
    if v.Record? then v.fields else map[]
  }

  predicate IsDigit(c: char) {
    '0' <= c <= '9'
  }

  predicate AllDigits(s: string) {
    forall i :: 0 <= i < |s| ==> IsDigit(s[i])
  }

  /** The value of a decimal digit character. */
  function DigitValue(c: char): int {
    c as int - '0' as int
  }

  /** The character of a decimal digit. */
  function DigitChar(d: nat): (c: char)
    requires d < 10
    ensures IsDigit(c) && DigitValue(c) == d
  {
    ('0' as int + d) as char
  }

  /** The number a string of decimal digits denotes, most significant digit first. */
  function DigitsValue(s: string): int {
    if |s| == 0 then 0 else 10 * DigitsValue(s[..|s| - 1]) + DigitValue(s[|s| - 1])
  }

  function Pow10(k: nat): (r: nat)
    ensures r >= 1
  {
    if k == 0 then 1 else 10 * Pow10(k - 1)
  }

  /** The decimal numeral of a natural number, without leading zeros. */
  function NatToString(n: nat): (r: string)
    ensures |r| >= 1 && AllDigits(r)
    ensures r[0] == '0' ==> n == 0
  {
    if n < 10 then [DigitChar(n)] else NatToString(n / 10) + [DigitChar(n % 10)]
  }

  /** The numeral denotes the number: reading its digits back gives `n`. */
  lemma {:induction false} NatToStringValue(n: nat)
    ensures DigitsValue(NatToString(n)) == n
  {
    if n >= 10 {
      NatToStringValue(n / 10);
      var prefix := NatToString(n / 10);
      assert (prefix + [DigitChar(n % 10)])[..|prefix|] == prefix;
    }
  }

  /** A number in [10^(k-1), 10^k) (or below 10 when k is 1) has exactly k decimal digits. */
  lemma {:induction false} NatToStringLength(n: nat, k: nat)
    requires 1 <= k && n < Pow10(k) && (k == 1 || Pow10(k - 1) <= n)
    ensures |NatToString(n)| == k
  {
    if n >= 10 {
      NatToStringLength(n / 10, k - 1);
    }
  }

  /** `String(n)` for an integral number (negative numbers carry a minus sign). */
  function IntToString(n: int): (r: string)
    ensures n >= 0 ==> r == NatToString(n)
    ensures n < 0 ==> |r| >= 2 && r[0] == '-' && r[1..] == NatToString(-n)
  {
    if n < 0 then "-" + NatToString(-n) else NatToString(n)
  }

  /**
   * `String(v)`, which is also what `${v}` and `v.toString()` produce. Array
   * elements are joined with commas, with null and undefined shown as empty.
   */
  function ToString(v: Value): (r: string)
    ensures v.Str? ==> r == v.s
    ensures v.Num? ==> r == IntToString(v.n)
  {
    match v
    case Undefined => "undefined"
    case Null => "null"
    case Bool(b) => if b then "true" else "false"
    case Num(n) => IntToString(n)
    case Str(s) => s
    case Record(_) => "[object Object]"
    case List(items) => Join(seq(|items|, i requires 0 <= i < |items| =>
                                      if Nullish(items[i]) then "" else ToString(items[i])), ",")
  }

  /** `parts.join(sep)`: the parts in order, with `sep` between neighbours. */
  function Join(parts: seq<string>, sep: string): (r: string)
    ensures |parts| == 0 ==> r == ""
    ensures |parts| == 1 ==> r == parts[0]
    ensures |parts| > 1 ==> |r| >= |parts[0]| + |sep| && r[..|parts[0]| + |sep|] == parts[0] + sep
  {
    if |parts| == 0 then "" else if |parts| == 1 then parts[0] else parts[0] + sep + Join(parts[1..], sep)
  }
}
