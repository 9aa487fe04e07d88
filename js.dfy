/**
 * The slice of JavaScript's value semantics that the fetch helpers rely on:
 * dynamically typed values, truthiness (`if (x)`, `!x`, `||`), reading a
 * property off a value, and the string conversion used by template literals.
 */
module Js {

  datatype Option<+T> = None | Some(value: T)

  /** The two exceptions the helpers can raise. */
  datatype Exception =
    | Error(message: string)      // `throw new Error(...)`
    | TypeError(message: string)  // reading a property of undefined or null

  datatype Result<+T> = Ok(value: T) | Err(exception: Exception)

  /**
   * A JavaScript value. Numbers are integers; a function value is opaque and
   * carries only its source text; a plain object is a map from its own keys
   * to their values (a key that is present with value `undefined` is
   * different from a missing key).
   */
  datatype Value =
    | Undefined
    | Null
    | Bool(b: bool)
    | Num(n: int)
    | Str(s: string)
    | Closure(source: string)
    | Obj(fields: map<string, Value>)

  /** `Boolean(v)`: everything is truthy except undefined, null, false, 0 and "". */
  predicate Truthy(v: Value) {
    match v
    case Undefined => false
    case Null => false
    case Bool(b) => b
    case Num(n) => n != 0
    case Str(s) => s != ""
    case Closure(_) => true
    case Obj(_) => true
  }

  /** Values whose properties can be read without a TypeError. */
  predicate Dereferenceable(v: Value) {
    !v.Undefined? && !v.Null?
  }

  /** `obj[key]` on a plain object: a missing key reads as undefined. */
  function Lookup(fields: map<string, Value>, key: string): (r: Value)
    ensures key in fields ==> r == fields[key]
    ensures key !in fields ==> r == Undefined
  {
    if key in fields then fields[key] else Undefined
  }

  /**
   * `v.key` for a value that is neither undefined nor null. Primitives and
   * function values have none of the keys the helpers read, so they yield
   * undefined.
   */
  function Prop(v: Value, key: string): (r: Value)
    requires Dereferenceable(v)
    ensures !v.Obj? ==> r == Undefined
    ensures v.Obj? && key !in v.fields ==> r == Undefined
  {
    if v.Obj? then Lookup(v.fields, key) else Undefined
  }

  function Digit(d: nat): (c: char)
    requires d < 10
    ensures '0' <= c <= '9' && c as int - '0' as int == d
  {
    ('0' as int + d) as char
  }

  /** The number a string of decimal digits denotes, most significant digit first. */
  function DigitsValue(s: string): nat
    requires forall i | 0 <= i < |s| :: '0' <= s[i] <= '9'
  {
    if s == [] then 0 else DigitsValue(s[..|s| - 1]) * 10 + (s[|s| - 1] as int - '0' as int)
  }

  /** The decimal numeral of a natural number, as `String(n)` writes it. */
  function Decimal(n: nat): (r: string)
    ensures |r| > 0
    ensures forall i | 0 <= i < |r| :: '0' <= r[i] <= '9'
    ensures DigitsValue(r) == n
    ensures |r| > 1 ==> r[0] != '0'
    decreases n
  {
    if n < 10 then [Digit(n)] else Decimal(n / 10) + [Digit(n % 10)]
  }

  /** `String(v)`, the conversion a template literal applies to `${v}`. */
  function ToString(v: Value): (r: string)
    ensures v.Str? ==> r == v.s
    ensures v.Num? && v.n >= 0 ==> r == Decimal(v.n)
    ensures v.Num? && v.n < 0 ==> r == "-" + Decimal(-v.n)
  {
    match v
    case Undefined => "undefined"
    case Null => "null"
    case Bool(b) => if b then "true" else "false"
    case Num(n) => if n < 0 then "-" + Decimal(-n) else Decimal(n)
    case Str(s) => s
    case Closure(source) => source
    case Obj(_) => "[object Object]"
  }
}
