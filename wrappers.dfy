/** Option, Result and Outcome: the model's stand-ins for Ruby's `nil` and for raised exceptions. */
module Wrappers {

  /** A value that may be absent (Ruby `nil`). */
  datatype Option<+T> = None | Some(value: T) {
    function GetOr(default: T): T {
      match this
      case Some(v) => v
      case None => default
    }
  }

  /** The value of a call that either returns normally or raises. */
  datatype Result<+T, +E> = Ok(value: T) | Err(error: E)

  /** A call that returns nothing of interest, or raises. */
  datatype Outcome<+E> = Pass | Fail(error: E)
}
