/** Optional values (a JavaScript `null`/`undefined` or a Python `None`) and error returns. */
module Wrappers {

  datatype Option<+T> = None | Some(value: T) {
    /** The value, or `default` when there is none (JavaScript's `x || default` on a list). */
    function GetOr(default: T): T {
      match this
      case Some(v) => v
      case None => default
    }
  }

  /** A value, or the message of the exception the source raises instead. */
  datatype Result<+T, +E> = Success(value: T) | Failure(error: E)
}
