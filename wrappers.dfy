/** Optional values: `undefined` or an absent key on the JavaScript side. */
module Wrappers {

  datatype Option<+T> = None | Some(value: T) {

    /** The value, or `default` when absent: JavaScript's `x ?? default` and a destructuring default. */
    function GetOr(default: T): T {
      match this
      case Some(v) => v
      case None => default
    }
  }
}
