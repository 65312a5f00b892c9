/** The Option and Result datatypes used by the calculator modules. */
module Wrappers {

  /** A value that may be absent: the source's `null` initial values. */
  datatype Option<+T> = None | Some(value: T)

  /** The outcome of an operation that can fail with an error of type E. */
  datatype Result<+T, +E> = Success(value: T) | Failure(error: E)
}
