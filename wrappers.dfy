/** Option and Result wrappers shared by the other modules. */
module Wrappers {

  /** A value that may be absent. */
  datatype Option<+T> = None | Some(value: T)

  /** The outcome of an operation that returns a value or a Go `error`. */
  datatype Result<+T, +E> = Success(value: T) | Failure(error: E)
}
