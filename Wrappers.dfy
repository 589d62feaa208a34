/** Option, result and outcome types used for the driver's thrown errors. */
module Wrappers {

  datatype Option<+T> = None | Some(value: T) {

    /** The value, or `default` if there is none. */
    function GetOr(default: T): T {
      match this
      case Some(v) => v
      case None => default
    }
  }

  datatype Result<+R, +E> = Success(value: R) | Failure(error: E)

  /** An operation that returns nothing on success, or fails with an error. */
  datatype Outcome<+E> = Pass | Fail(error: E)
}
