/** Failure-carrying values used throughout the model in place of Python's
    `None` and its exceptions. */
module Wrappers {

  /** A nullable value: `None` is Python's `None`. */
  datatype Option<+T> = None | Some(value: T)

  /** A value or the exception raised instead of it. */
  datatype Result<+T, +E> = Ok(value: T) | Err(error: E)

  /** Normal completion, or the exception a statement raised. */
  datatype Outcome<+E> = Pass | Fail(error: E)
}
