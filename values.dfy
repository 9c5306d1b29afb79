/**
 * The primitive values a signal can hold (`Primitive` in src/index.ts) and
 * the two notions of JavaScript the engine relies on: strict equality `===`
 * and truthiness.
 */
module Values {

  datatype Option<+T> = None | Some(value: T)

  /** number | string | boolean | null | undefined. Numbers are integers here. */
  datatype Value =
    | Num(n: int)
    | Str(s: string)
    | Bool(b: bool)
    | Null
    | Undef

  /**
   * JavaScript truthiness of a primitive: 0, "", false, null and undefined
   * are falsy, everything else is truthy.
   */
  predicate Truthy(v: Value)
  {
    match v
    case Num(n) => n != 0
    case Str(s) => s != ""
    case Bool(b) => b
    case Null => false
    case Undef => false
  }
}
