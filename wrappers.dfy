/** Absence and failure values shared by the loaders. */
module Wrappers {

  /** A value that may be missing: the model's `None` from a fail-soft step. */
  datatype Option<+T> = None | Some(value: T)

  /** The outcome of an operation that either produces a value or raises an error. */
  datatype Result<+R, +E> = Success(value: R) | Failure(error: E)
}
