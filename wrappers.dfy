/** Small failure-carrying datatypes shared by the model. */
module Wrappers {

  /** A value that may be absent (a Python dictionary `get` that can return `None`). */
  datatype Option<+T> = None | Some(value: T)

  /** Either a value or the exception the source raises instead of returning one. */
  datatype Result<+T, +E> = Success(value: T) | Failure(error: E)
}
