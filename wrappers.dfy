/** The Option and Result types used across the model. */
module Wrappers {

  /** An optional value: a key that may be missing from a table. */
  datatype Option<+T> = None | Some(value: T)

  /** A value or the error that prevented computing it. */
  datatype Result<+R, +E> = Success(value: R) | Failure(error: E)
}
