/** Failure-carrying values used across the model: a JavaScript value that may be
    `undefined`/`null` is an Option, an operation that may throw returns a Result. */
module Wrappers {

  datatype Option<+T> = None | Some(value: T) {
    function GetOr(default: T): T {
      match this
      case Some(v) => v
      case None => default
    }
  }

  datatype Result<+R, +E> = Success(value: R) | Failure(error: E)
}
