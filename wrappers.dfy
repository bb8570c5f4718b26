/** Small failure-compatible wrappers shared by every module of the model. */
module Wrappers {

  /** A value that may be absent: Java's null, Swift's nil. */
  datatype Option<+T> = None | Some(value: T) {
    /** The value, or `default` when absent. */
    function GetOr(default: T): T {
      match this
      case Some(v) => v
      case None => default
    }
  }

  /** The outcome of an operation that can fail with an error value. */
  datatype Result<+R, +E> = Success(value: R) | Failure(error: E)

  /** The outcome of a blocking wait observed over a finite stretch of future
      events: either the wait has returned a value, or it is still blocked
      when those events run out. */
  datatype Awaited<+T> = Resolved(value: T) | StillWaiting
}
