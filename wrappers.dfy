/** Option stands for a Java reference that may be null; Result and Outcome
    stand for a Java call that either returns normally or raises. */
module Wrappers {

  datatype Option<+T> = None | Some(value: T)

  /** The outcome of a Java call that returns a value or raises `error`. */
  datatype Result<+T, +E> = Success(value: T) | Failure(error: E)

  /** The outcome of a `void` Java call: it returns, or raises `error`. */
  datatype Outcome<+E> = Pass | Fail(error: E)
}
