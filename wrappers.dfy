/** Option and Result used throughout the model. */
module Wrappers {

  /** An optional value: Python's `X | None`. */
  datatype Option<+T> = None | Some(value: T)

  /** Either a value or the exception a Python call raised. */
  datatype Result<+R, +E> = Success(value: R) | Failure(error: E)
}
