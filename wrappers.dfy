/** Option and Result, the two failure-carrying wrappers used throughout the model. */
module Wrappers {

  /** A value that may be absent: Python's `Optional[T]`, with `None` for a missing argument. */
  datatype Option<+T> = None | Some(value: T) {

    /** The wrapped value, or `default` when absent. */
    function GetOr(default: T): (r: T)
      ensures Some? ==> r == value
      ensures None? ==> r == default
    {
      match this
      case Some(v) => v
      case None => default
    }
  }

  /** Either a value or the error an operation raised instead of returning. */
  datatype Result<+R, +E> = Success(value: R) | Failure(error: E)
}
