/** Optional values and results with an error, shared by every module. */
module Wrappers {

  /** Python's `None` or a present value. */
  datatype Option<+T> = None | Some(value: T) {
    function GetOr(default: T): T {
      match this
      case Some(v) => v
      case None => default
    }
  }

  /** A computed value, or the exception the Python code raises instead. */
  datatype Result<+R, +E> = Success(value: R) | Failure(error: E)
}
