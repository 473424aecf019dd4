/** Failure-carrying values shared by the logging modules. */
module Wrappers {

  /** A value that may be absent; `None` stands for a Java `null`. */
  datatype Option<+T> = None | Some(value: T)

  /** The value of an operation, or the exception it raises. */
  datatype Result<+T, +E> = Ok(value: T) | Err(error: E)

  /** The outcome of an operation that returns nothing, or the exception it raises. */
  datatype Outcome<+E> = Pass | Fail(error: E)
}
