/**
 * JavaScript values as they reach the location stream: the fields of a
 * parsed payload, of a transport error object, or of the options object.
 * A record is a plain object; a key that is absent is `undefined`.
 */
module Json {

  datatype Option<+T> = None | Some(value: T)

  /** A field value. `NaN` and `Infinity` never come out of a JSON parse;
      they only arise from the per-second divisions of the delta rule. */
  datatype Value =
    | Null
    | Bool(b: bool)
    | Num(n: real)
    | Str(s: string)
    | NaN
    | Infinity(negative: bool)

  type Record = map<string, Value>

  /** JavaScript truthiness of a present value. */
  predicate Truthy(v: Value)
  {
    match v
    case Null => false
    case Bool(b) => b
    case Num(n) => n != 0.0
    case Str(s) => s != ""
    case NaN => false
    case Infinity(_) => true
  }

  /** `o[key]` read as a condition: an absent key is `undefined`, which is falsy. */
  predicate TruthyAt(o: Record, key: string)
  {
    key in o && Truthy(o[key])
  }

  function Get(o: Record, key: string): Option<Value>
  {
    if key in o then Some(o[key]) else None
  }

  /** JavaScript `a || b` where `a` may be `undefined`. */
  function Or(a: Option<Value>, b: Value): Value
  {
    if a.Some? && Truthy(a.value) then a.value else b
  }

  /** `o[key]` used as a finite number; `None` stands for an operand that
      makes the arithmetic NaN. */
  function NumberAt(o: Record, key: string): Option<real>
  {
    if key in o && o[key].Num? then Some(o[key].n) else None
  }
}
