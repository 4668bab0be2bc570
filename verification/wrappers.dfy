/** Failure-carrying values used across the model: Go's `(value, ok)` and
    `(value, error)` return pairs become these two datatypes. */
module Wrappers {

  /** A value that may be absent (a cache miss, a nil interface). */
  datatype Option<+T> = None | Some(value: T)

  /** A value or the error that prevented computing it. */
  datatype Result<+T, +E> = Success(value: T) | Failure(error: E)
}
