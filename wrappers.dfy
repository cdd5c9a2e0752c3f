/** Failure-carrying values used in place of the exceptions of the metadata layer. */
module Wrappers {

  /** A value that may be absent, in place of a null reference. */
  datatype Option<+T> = None | Some(value: T)

  /** The outcome of an operation that yields a value or throws. */
  datatype Result<+T, +E> = Ok(value: T) | Err(error: E)

  /** The outcome of a void operation that returns normally or throws. */
  datatype Outcome<+E> = Pass | Fail(error: E)
}
