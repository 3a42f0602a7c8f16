/** Failure-carrying values shared by the modules of this model. */
module Wrappers {

  /** An optional value: the model's stand-in for a nullable reference or `Optional`. */
  datatype Option<+T> = None | Some(value: T)

  /** The outcome of an operation that either succeeds with a value or fails with an error. */
  datatype Result<+T, +E> = Ok(value: T) | Err(error: E)
}
