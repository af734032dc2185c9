/** Option and Result values used where the gateway has a nil pointer or an error return. */
module Wrappers {

  /** A value that may be absent (a nil pointer or nil interface in the gateway). */
  datatype Option<+T> = None | Some(value: T)

  /** The outcome of a call that either returns a value or fails with an error. */
  datatype Result<+T, +E> = Success(value: T) | Failure(error: E)
}
