/** Optional values: Kotlin's nullable types (`T?`) and the `?.`/`?:` operators. */
module Wrappers {

  datatype Option<+T> = None | Some(value: T) {

    /** The wrapped value, or `default` when absent (Kotlin's elvis operator `?:`). */
    function GetOr(default: T): T {
      match this
      case Some(v) => v
      case None => default
    }
  }
}
