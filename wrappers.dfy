/** Option and Result values shared by the modules of this model. */
module Wrappers {

  /** A value that may be missing: `undefined`/`null` on the JavaScript side. */
  datatype Option<T> = None | Some(value: T)

  /** The outcome of an operation that may throw: `Failure` carries the error message. */
  datatype Result<T> = Success(value: T) | Failure(error: string)
}
