/** Failure-carrying values shared by the other modules. */
module Wrappers {

  /** A value that may be missing: the outcome of a parse or decode step. */
  datatype Option<+T> = None | Some(value: T)

  /** The value an operation returns, or the error it reports instead. */
  datatype Result<+T, +E> = Ok(value: T) | Err(error: E)
}
