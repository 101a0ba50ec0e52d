/** Optional values and error-carrying results, used for Python's `None` and for exceptions. */
module Wrappers {

  /** `None` stands for Python's `None` (or an attribute that was never set). */
  datatype Option<+T> = None | Some(value: T)

  /** The outcome of an operation that may raise. */
  datatype Result<+T, +E> = Success(value: T) | Failure(error: E)
}
