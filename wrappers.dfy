/** Failure-carrying values used in place of Swift optionals and thrown errors. */
module Wrappers {

  /** A Swift optional: `nil` or a value. */
  datatype Option<+T> = None | Some(value: T) {
    /** `self ?? default` */
    function GetOr(default: T): T {
      match this
      case Some(v) => v
      case None => default
    }
  }

  /** The value returned by a throwing call, or the error it threw. */
  datatype Result<+T, +E> = Success(value: T) | Failure(error: E)

  /** The outcome of a throwing call that returns nothing. */
  datatype Outcome<+E> = Pass | Fail(error: E)
}
