/** Optional values and results with an error path, as used by the resolver's model. */
module Wrappers {

  /** A value that may be absent (`undefined` in the source). */
  datatype Option<+T> = None | Some(value: T)

  /** The outcome of an operation that may fail with an error instead of a value. */
  datatype Result<+R, +E> = Success(value: R) | Failure(error: E)
}
