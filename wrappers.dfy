/** Success/failure wrappers shared by the modules of the model. */
module Wrappers {

  /** A value that may be absent: JavaScript's `null` result of a failed step. */
  datatype Option<+T> = None | Some(value: T)

  /** The outcome of an operation that may throw: `Failure` carries the error message. */
  datatype Result<+T> = Success(value: T) | Failure(error: string)
}
