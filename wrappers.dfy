/** Option, Result and Outcome, shared by the other modules. */
module Wrappers {

  /** A value that may be absent (a nil pointer, a failed lookup). */
  datatype Option<+T> = None | Some(value: T) {
    function GetOr(default: T): T {
      match this
      case Some(v) => v
      case None => default
    }
  }

  /** A value or an error, as Go's `(value, error)` pairs. */
  datatype Result<+R, +E> = Success(value: R) | Failure(error: E)

  /** Success without a value, or an error: a Go function returning only `error`. */
  datatype Outcome<+E> = Pass | Fail(error: E)
}
