/** Optional values and error-carrying results, used for Python's `None` and numpy's ValueErrors. */
module Wrappers {

  datatype Option<+T> = None | Some(value: T)

  datatype Result<+T, +E> = Success(value: T) | Failure(error: E)
}
