/** Option, Result and Outcome: the failure-carrying values used across the model. */
module Wrappers {

  datatype Option<+T> = None | Some(value: T) {
    function GetOr(default: T): T {
      match this
      case Some(v) => v
      case None => default
    }
  }

  /** A computation that yields a value or an error (a thrown exception). */
  datatype Result<+T, +E> = Ok(value: T) | Err(error: E)

  /** A computation that yields nothing or an error. */
  datatype Outcome<+E> = Pass | Fail(error: E)
}
