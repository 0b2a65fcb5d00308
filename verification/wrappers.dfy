/** Optional values and success/failure results, standing in for Python's `None` and exceptions. */
module Wrappers {

  /** `None` plays the part of Python's `None` (or of a key missing from a JSON object). */
  datatype Option<+T> = None | Some(value: T) {

    /** The wrapped value, or `default` when there is none. */
    function GetOr(default: T): T {
      match this
      case Some(v) => v
      case None => default
    }
  }

  /** The outcome of a call that either returns a value or raises an exception with a message. */
  datatype Result<+T> = Success(value: T) | Failure(error: string)
}
