/**
 * The JavaScript values the front end's untyped records hold, with the two
 * coercions the components rely on: truthiness and `Number(...)`.
 *
 * Parsing the text of a numeric string is a parameter; Infinity, BigInt and
 * the `valueOf` of objects are not part of this model.
 */
module JsValues {
  import opened Wrappers
  import opened Text

  datatype JsValue =
    | Undefined
    | Null
    | Bool(b: bool)
    | Num(n: real)
    | NaN
    | Str(s: string)
    | Obj(tag: nat)

  /** A record: a missing key reads as `undefined`. */
  type Record = map<string, JsValue>

  function Get(r: Record, key: string): (v: JsValue)
    ensures key !in r ==> v == Undefined
  {
    if key in r then r[key] else Undefined
  }

  /** `!!v`. */
  predicate Truthy(v: JsValue)
  {
    match v
    case Undefined => false
    case Null => false
    case Bool(b) => b
    case Num(n) => n != 0.0
    case NaN => false
    case Str(s) => s != ""
    case Obj(_) => true
  }

  /**
   * `Number(v)`, with `None` for NaN. A blank string is 0; any other string
   * is read by `parse` after trimming.
   */
  function ToNumber(v: JsValue, parse: string -> Option<real>): (r: Option<real>)
    ensures v.Null? || (v.Bool? && !v.b) ==> r == Some(0.0)
    ensures v.Undefined? || v.NaN? || v.Obj? ==> r == None
  {
    match v
    case Undefined => None
    case Null => Some(0.0)
    case Bool(b) => Some(if b then 1.0 else 0.0)
    case Num(n) => Some(n)
    case NaN => None
    case Str(s) => if Strip(s) == "" then Some(0.0) else parse(Strip(s))
    case Obj(_) => None
  }

  /** `Number(v) || 0`: NaN becomes 0, every other number is kept. */
  function NumberOrZero(v: JsValue, parse: string -> Option<real>): (r: real)
    ensures ToNumber(v, parse).Some? ==> r == ToNumber(v, parse).value
    ensures ToNumber(v, parse).None? ==> r == 0.0
  {
    match ToNumber(v, parse)
    case None => 0.0
    case Some(n) => n
  }
}
