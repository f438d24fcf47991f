/** Option and Result datatypes used throughout the model for Python's `None`
    returns and raised exceptions. */
module Wrappers {

  /** A value that may be absent, as Python's `Optional[T]`. */
  datatype Option<+T> = None | Some(value: T) {

    /** The wrapped value, or `default` when absent. */
    function GetOr(default: T): T {
      match this
      case Some(v) => v
      case None => default
    }
  }

  /** Either a computed value or the exception the source would raise. */
  datatype Result<+R, +E> = Success(value: R) | Failure(error: E)
}
