/** Optional values: the browser storage slot is either absent or holds a value. */
module Wrappers {

  datatype Option<+T> = None | Some(value: T) {

    /** The held value, or `default` when absent (JavaScript's `x || default` on a missing slot). */
    function GetOr(default: T): T
    {
      match this
      case Some(v) => v
      case None => default
    }
  }
}
