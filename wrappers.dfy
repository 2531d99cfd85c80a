/** Failure-carrying values used across the model. */
module Wrappers {

  /** An optional value; `None` also stands for a JavaScript `null`/`undefined` slot. */
  datatype Option<+T> = None | Some(value: T)

  /** The outcome of an operation that can throw: `Failure` carries the error message. */
  datatype Result<+R, +E> = Success(value: R) | Failure(error: E)
}
