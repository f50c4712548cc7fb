/** Optional values and results with an error, shared by every module of the rating engine. */
module Outcomes {

  /** A value that may be absent (the source's `null` / `undefined`). */
  datatype Option<+T> = None | Some(value: T)

  /** The value of a computation, or the error it raised. */
  datatype Result<+T, +E> = Success(value: T) | Failure(error: E)
}
