/** Optional values and results with an error, as used by the search model. */
module Wrappers {

  /** A value that may be missing: an absent dictionary key or a Python `None`. */
  datatype Option<+T> = None | Some(value: T)

  /** The outcome of an operation that either returns a value or raises an error. */
  datatype Result<+R, +E> = Success(value: R) | Failure(error: E)
}
