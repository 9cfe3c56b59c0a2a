/** Optional values and fallible results, shared by the modules of this model. */
module Wrappers {

  /** A value that may be absent (Ruby's `nil`). */
  datatype Option<+T> = None | Some(value: T)

  /** The outcome of an operation that may raise. */
  datatype Result<+R, +E> = Success(value: R) | Failure(error: E)
}
