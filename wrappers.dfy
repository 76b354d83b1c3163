/** Option and Result values used across the model. */
module Wrappers {

  /** A value that may be absent (JavaScript `undefined` or an empty query result). */
  datatype Option<+T> = None | Some(value: T) {
    function GetOr(default: T): T {
      match this
      case Some(v) => v
      case None => default
    }
  }

  /** The outcome of an operation that can throw. */
  datatype Result<+R, +E> = Success(value: R) | Failure(error: E)
}
