/** Option and Result: Python's None, and a value or the exception that was raised instead. */
module Wrappers {

  datatype Option<+T> = None | Some(value: T) {

    /** The value, or the given default for None (dict.get with a default). */
    function GetOr(default: T): T {
      match this
      case Some(v) => v
      case None => default
    }
  }

  datatype Result<+T, +E> = Success(value: T) | Failure(error: E)
}
