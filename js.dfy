/**
 * The slice of JavaScript's value model that the payment scripts depend on:
 * `undefined` and `null` are distinct from every other value, a property read
 * on either of them throws a TypeError, a property read on a primitive yields
 * `undefined` for every key these scripts read (none of them is a property of
 * strings, numbers or booleans), and an object is a map from property names
 * to values.
 * Numbers are integral here (floating point is not modelled).
 */
module Js {
  import opened Wrappers

  datatype JsValue =
    | Undefined
    | Null
    | Bool(b: bool)
    | Num(n: int)
    | Str(s: string)
    | Obj(props: map<string, JsValue>)

  /** What a statement can throw: a TypeError from a property read on
      undefined/null, the string `getPaymentTransactionData` throws on an HTTP
      error status, or an error raised by an external call (wallet, network). */
  datatype Failure =
    | TypeError
    | DetailsUnavailable
    | Rejected(reason: string)

  /** The outcome of an expression or an awaited call: a value, or a throw. */
  datatype Completion<+T> = Normal(value: T) | Throw(error: Failure)

  predicate Nullish(v: JsValue) {
    v.Undefined? || v.Null?
  }

  /** JavaScript truthiness: `undefined`, `null`, `false`, `0` and the empty
      string are falsy; every object is truthy. */
  predicate Truthy(v: JsValue) {
    match v
    case Undefined => false
    case Null => false
    case Bool(b) => b
    case Num(n) => n != 0
    case Str(s) => s != ""
    case Obj(_) => true
  }

  /** `a === b`: primitives compare by value; objects compare by identity,
      and the model never compares an object with itself, since every object
      a comparison here sees comes fresh from a separate source. */
  predicate StrictEquals(a: JsValue, b: JsValue) {
    !a.Obj? && !b.Obj? && a == b
  }

  /** `props[key]` on a plain object: `undefined` for a missing key. */
  function Lookup(props: map<string, JsValue>, key: string): JsValue {
    if key in props then props[key] else Undefined
  }

  /** `v[key]` where `v` is known not to be undefined or null, for the keys
      the scripts read: a primitive has none of them. */
  function Prop(v: JsValue, key: string): JsValue
    requires !Nullish(v)
  {
    if v.Obj? then Lookup(v.props, key) else Undefined
  }

  /** `v[key]` for any value: reading a property of undefined or null throws. */
  function Get(v: JsValue, key: string): Completion<JsValue> {
    if Nullish(v) then Throw(TypeError) else Normal(Prop(v, key))
  }

  /** The value of a hexadecimal digit of either case, as both
      `decodeURIComponent` and the reading of a hexadecimal quantity accept
      it. */
  function HexDigitValue(c: char): (r: Option<nat>)
    ensures r.Some? ==> r.value < 16
  {
    if '0' <= c && c <= '9' then Some(c as int - '0' as int)
    else if 'a' <= c && c <= 'f' then Some(c as int - 'a' as int + 10)
    else if 'A' <= c && c <= 'F' then Some(c as int - 'A' as int + 10)
    else None
  }

  function DecimalDigit(d: nat): char
    requires d < 10
  {
    ('0' as int + d) as char
  }

  /** Decimal rendering of a natural number, most significant digit first. */
  function DecimalDigits(n: nat): (s: string)
    ensures |s| >= 1
    decreases n
  {
    if n < 10 then [DecimalDigit(n)] else DecimalDigits(n / 10) + [DecimalDigit(n % 10)]
  }

  /** `String(v)`, the conversion a template literal and `encodeURIComponent`
      apply to their argument (a plain object renders as `[object Object]`). */
  function ToString(v: JsValue): string {
    match v
    case Undefined => "undefined"
    case Null => "null"
    case Bool(b) => if b then "true" else "false"
    case Num(n) => if n < 0 then "-" + DecimalDigits(-n) else DecimalDigits(n)
    case Str(s) => s
    case Obj(_) => "[object Object]"
  }
}
