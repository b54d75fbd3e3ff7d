/** Result types used across the broker model. */
module Wrappers {

  datatype Option<+T> = None | Some(value: T)

  /** A value or the error a Python call would raise instead. */
  datatype Result<+R, +E> = Success(value: R) | Failure(error: E)

  /** Success without a value, or the error raised. */
  datatype Outcome<+E> = Pass | Fail(error: E)
}
