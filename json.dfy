/**
 * The part of serde_json's dynamic `Value` that the balance decoder reads:
 * indexing by key and the `as_str`, `as_u64` and `as_f64` accessors.
 */
module Json {
  import opened Wrappers

  const U64_LIMIT: int := 0x1_0000_0000_0000_0000

  type U64 = x: int | 0 <= x < U64_LIMIT

  /** A negative 64-bit signed integer: the only values serde_json keeps as `NegInt`. */
  type NegI64 = x: int | -0x8000_0000_0000_0000 <= x < 0 witness -1

  /** serde_json keeps a number as an unsigned, a negative or a floating value. */
  datatype Number = PosInt(u: U64) | NegInt(i: NegI64) | Float(f: real)

  datatype Value =
    | Null
    | Bool(b: bool)
    | Num(n: Number)
    | Str(s: string)
    | Array(items: seq<Value>)
    | Object(fields: map<string, Value>)

  /** `v[key]`: the member named `key` of an object, and `Null` for anything else. */
  function Get(v: Value, key: string): Value {
    if v.Object? && key in v.fields then v.fields[key] else Null
  }

  /** `as_str`: the text of a string value. */
  function AsStr(v: Value): Option<string> {
    if v.Str? then Some(v.s) else None
  }

  /** `as_u64`: only a non-negative integer is read as an unsigned number. */
  function AsU64(v: Value): Option<U64> {
    if v.Num? && v.n.PosInt? then Some(v.n.u) else None
  }

  /** `as_f64`: every number is read as a floating value (rounding is not modelled). */
  function AsF64(v: Value): Option<real> {
    match v
    case Num(PosInt(u)) => Some(u as real)
    case Num(NegInt(i)) => Some(i as real)
    case Num(Float(f)) => Some(f)
    case _ => None
  }
}
