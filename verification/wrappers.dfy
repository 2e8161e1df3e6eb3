/** Option and Result, used for absent keys and for raised exceptions. */
module Wrappers {

  datatype Option<+T> = None | Some(value: T) {
    /** The value, or `default` when absent (Python's `dict.get(key, default)` shape). */
    function GetOr(default: T): T {
      match this
      case Some(v) => v
      case None => default
    }
  }

  /** A computation that returns `value` or raises an exception whose text is `error`. */
  datatype Result<+R, +E> = Success(value: R) | Failure(error: E)
}
