/** Option and Result, the two failure-carrying shapes the rest of the model uses. */
module Wrappers {

  /** A value that may be absent (`undefined` in the client's configuration). */
  datatype Option<+T> = None | Some(value: T)

  /** The outcome of an operation that either delivers a value or raises an error. */
  datatype Result<+R, +E> = Success(value: R) | Failure(error: E)
}
