/** Optional values and results with an error, shared by the two hook models. */
module Wrappers {

  /** A value that may be absent (`undefined` or `null` in the TypeScript hooks). */
  datatype Option<+T> = None | Some(value: T)

  /** The outcome of an operation that either yields a value or throws an error. */
  datatype Result<+R, +E> = Success(value: R) | Failure(error: E)
}
