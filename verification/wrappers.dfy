/** Optional values and results with an error, used by every other module. */
module Wrappers {

  /** A value that may be absent (a JavaScript `undefined`). */
  datatype Option<+T> = None | Some(value: T)

  /** The outcome of an operation that can fail. */
  datatype Result<+R, +E> = Success(value: R) | Failure(error: E)
}
