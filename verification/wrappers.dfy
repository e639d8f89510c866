/** Optional values and results with an error value, shared by the other modules. */
module Wrappers {

  /** A value that may be absent: PHP's nullable `?T`. */
  datatype Option<+T> = None | Some(value: T)

  /** The outcome of an operation that can fail with an error instead of returning. */
  datatype Result<+R, +E> = Success(value: R) | Failure(error: E)
}
