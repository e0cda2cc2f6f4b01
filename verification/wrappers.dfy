/** Failure-compatible wrappers used across the model. */
module Wrappers {

  /** An optional value: the source's `None` versus a present value. */
  datatype Option<+T> = None | Some(value: T)

  /** The outcome of an operation that may raise: a value or an error message. */
  datatype Result<+R, +E> = Success(value: R) | Failure(error: E)
}
