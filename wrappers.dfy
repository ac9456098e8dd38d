/** Option and Result values shared by every module of the model. */
module Wrappers {

  datatype Option<+T> = None | Some(value: T)

  /** The outcome of an operation that can fail with a textual cause, as Go's `(T, error)` pairs. */
  datatype Result<+T> = Success(value: T) | Failure(cause: string)
}
