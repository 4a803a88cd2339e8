/** Optional values: JavaScript's `undefined`/`null` next to a present value. */
module Wrappers {

  datatype Option<+T> = None | Some(value: T) {

    /** The value, or `default` when absent (JavaScript's `x || default` for a truthy `x`). */
    function GetOr(default: T): T {
      match this
      case Some(v) => v
      case None => default
    }
  }
}
