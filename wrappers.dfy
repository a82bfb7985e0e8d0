/** Option and Result, used for JavaScript's `undefined` and for thrown errors. */
module Wrappers {

  datatype Option<+T> = None | Some(value: T)

  /** A computation that either produces a value or throws an `Error` with a message. */
  datatype Result<+R, +E> = Success(value: R) | Failure(error: E)
}
