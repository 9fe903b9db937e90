/** Optional values and success-or-failure results shared by both components. */
module Wrappers {

  /** A value that may be missing (JavaScript `undefined` or `null`). */
  datatype Option<+T> = None | Some(value: T)

  /** The outcome of an operation that can fail with an error value. */
  datatype Result<+R, +E> = Success(value: R) | Failure(error: E)
}
