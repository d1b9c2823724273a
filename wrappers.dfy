/** Failure-compatible wrappers used by the whole model. */
module Wrappers {

  /** A value that may be absent (JavaScript `undefined`). */
  datatype Option<+T> = None | Some(value: T) {
    function GetOr(default: T): T {
      match this
      case Some(v) => v
      case None => default
    }
  }

  /** Either a value or the error a JavaScript `throw` would raise. */
  datatype Result<+R, +E> = Success(value: R) | Failure(error: E)
}
