/**
 * The slice of JavaScript value semantics the helpers rely on: the values a
 * parsed JSON object can hold, truthiness, and the `a || b` defaulting idiom.
 */
module Js {

  /** A value read off a parsed JSON object; arrays and nested objects are only ever tested for truthiness. */
  datatype JsValue =
    | Undefined
    | Null
    | Bool(b: bool)
    | Num(n: real)
    | Str(s: string)
    | Composite

  /** JavaScript truthiness (NaN is not modelled). */
  predicate Truthy(v: JsValue) {
    match v
    case Undefined => false
    case Null => false
    case Bool(b) => b
    case Num(n) => n != 0.0
    case Str(s) => s != ""
    case Composite => true
  }

  /** `a || b`. */
  function Or(a: JsValue, b: JsValue): (r: JsValue)
    ensures Truthy(a) ==> r == a
    ensures !Truthy(a) ==> r == b
    ensures Truthy(r) <==> Truthy(a) || Truthy(b)
  {
    if Truthy(a) then a else b
  }

  /** `obj.key` on a parsed object: a missing key reads as undefined. */
  function Field(obj: map<string, JsValue>, key: string): (v: JsValue)
    ensures key !in obj ==> v == Undefined
  {
    if key in obj then obj[key] else Undefined
  }

  /** `a || b` on strings, with a missing (null or undefined) string as `None`. */
  function OrString(a: string, b: string): (r: string)
    ensures a != "" ==> r == a
    ensures a == "" ==> r == b
  {
    if a != "" then a else b
  }
}
