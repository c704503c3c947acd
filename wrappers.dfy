/** Option and Result values used throughout the model. */
module Wrappers {

  /** A value that may be absent (JavaScript `null` / `undefined` at a typed boundary). */
  datatype Option<+T> = None | Some(value: T)

  /** The outcome of an operation that can throw: its value, or the error message. */
  datatype Result<+T, +E> = Success(value: T) | Failure(error: E)
}
