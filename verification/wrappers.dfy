/** Option and Result datatypes shared by every module of the model. */
module Wrappers {

  /** A value that may be absent: the model of a TypeScript `T | null`. */
  datatype Option<+T> = None | Some(value: T)

  /** The outcome of an operation that either produces a value or fails with an error. */
  datatype Result<+T, +E> = Success(value: T) | Failure(error: E)
}
