/** Failure-compatible wrappers shared by the modules of the podcast client model. */
module Wrappers {

  /** A value that may be absent: JavaScript's `undefined` / `null`. */
  datatype Option<+T> = None | Some(value: T) {
    function GetOr(default: T): T {
      match this
      case Some(v) => v
      case None => default
    }
  }

  /** The outcome of an operation that can throw: a value or the error message. */
  datatype Result<+T> = Success(value: T) | Failure(error: string)
}
