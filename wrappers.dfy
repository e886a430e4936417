/** Failure-carrying wrappers used throughout the model. */
module Wrappers {

  /** Python's optional value: `None` or a value. */
  datatype Option<+T> = None | Some(value: T)

  /** The outcome of an operation that may raise: a value, or the exception it raises. */
  datatype Result<+T, +E> = Ok(value: T) | Err(error: E)
}
