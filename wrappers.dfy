/** Failure-compatible wrappers shared by the modules of this model:
    Java's nullable references become Option, and code that either returns
    a value or throws becomes Result (or Outcome when nothing is returned). */
module Wrappers {

  datatype Option<+T> = None | Some(value: T) {
    /** The stored value, or the given default when nothing is stored. */
    function GetOr(default: T): T {
      match this
      case Some(v) => v
      case None => default
    }
  }

  datatype Result<+R, +E> = Success(value: R) | Failure(error: E)

  datatype Outcome<+E> = Pass | Fail(error: E)
}
