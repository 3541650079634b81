/** Result types standing in for the exceptions the library throws. */
module Wrappers {

  /** A computed value, or the error that the source would throw instead. */
  datatype Result<+T, +E> = Ok(value: T) | Err(error: E)

  /** The outcome of a check that produces nothing but may fail. */
  datatype Outcome<+E> = Pass | Fail(error: E)
}
