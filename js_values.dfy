/**
 * The primitive JavaScript values that reach the chart engine through the
 * settings bag, dataset rows and axis formatters.
 */
module JsValues {

  /** A JavaScript primitive; `Num` holds a finite number. */
  datatype JsValue = Undefined | Null | Bool(b: bool) | Num(n: real) | NaN | Str(s: string)

  /** JavaScript truthiness: `undefined`, `null`, `false`, `0`, `NaN` and `""` are falsy. */
  predicate Truthy(v: JsValue) {
    match v
    case Undefined => false
    case Null => false
    case Bool(b) => b
    case Num(n) => n != 0.0
    case NaN => false
    case Str(s) => s != ""
  }
}
