/** Failure-carrying wrappers used across the model. */
module Wrappers {

  /** A value, or Python's `None`. */
  datatype Option<+T> = None | Some(value: T)

  /** A value, or the exception that was raised instead. */
  datatype Result<+T, +E> = Ok(value: T) | Err(error: E)

  /** Completion without a value, or the exception that was raised. */
  datatype Outcome<+E> = Pass | Fail(error: E)
}
