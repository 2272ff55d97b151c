/** The JavaScript values a request body can take, and JavaScript truthiness. */
module Js {

  /** A parsed body. Numbers are reals; `NaN` is kept apart because it is falsy. */
  datatype JsValue =
    | Undefined
    | Null
    | Bool(b: bool)
    | Number(n: real)
    | NaN
    | Str(s: string)
    | Array(items: seq<JsValue>)
    | Object(fields: map<string, JsValue>)

  /** JavaScript truthiness: everything except `undefined`, `null`, `false`, `0`,
      `NaN` and the empty string. Arrays and objects are truthy even when empty. */
  predicate Truthy(v: JsValue) {
    match v
    case Undefined => false
    case Null => false
    case Bool(b) => b
    case Number(n) => n != 0.0
    case NaN => false
    case Str(s) => s != ""
    case Array(_) => true
    case Object(_) => true
  }
}
