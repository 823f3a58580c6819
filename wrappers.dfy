/** Option, Result and Outcome values standing in for Java's nullable references and exceptions. */
module Wrappers {

  datatype Option<+T> = None | Some(value: T)

  /** The result of a computation that either yields a value or raises an error of type E. */
  datatype Result<+R, +E> = Success(value: R) | Failure(error: E)

  /** The result of an operation that either finishes or raises an error of type E. */
  datatype Outcome<+E> = Pass | Fail(error: E)
}
