/** Failure-carrying values used for the source's thrown errors and
    `undefined` results. */
module Wrappers {

  datatype Option<+T> = None | Some(value: T) {
    function GetOr(default: T): T {
      match this
      case Some(v) => v
      case None => default
    }
  }

  /** A value, or the message of the Error the source throws. */
  datatype Result<+T> = Ok(value: T) | Err(message: string)

  /** An operation that completes or throws with a message. */
  datatype Outcome = Pass | Fail(message: string)
}
