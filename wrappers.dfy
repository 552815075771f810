/** Failure-carrying values shared by every component of the front end. */
module Wrappers {

  /** A value that may be missing; the model of Python's `None`. */
  datatype Option<+T> = None | Some(value: T)

  /** The outcome of an operation that can raise: a value, or the kind of error raised. */
  datatype Result<+T, +E> = Ok(value: T) | Err(error: E)
}
