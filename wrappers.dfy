/** Option, Result and Outcome datatypes, used in place of Python's None and exceptions. */
module Wrappers {

  /** A value that may be absent: Python's "attribute not yet set". */
  datatype Option<+T> = None | Some(value: T)

  /** The value of an expression, or the exception it raises. */
  datatype Result<+R, +E> = Success(value: R) | Failure(error: E)

  /** The outcome of a statement that returns nothing but may raise. */
  datatype Outcome<+E> = Pass | Fail(error: E)
}
