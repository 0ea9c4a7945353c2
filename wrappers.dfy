/** Failure-compatible wrappers shared by every module of the model. */
module Wrappers {

  /** A Python `Optional[...]` value: `None` or a present value. */
  datatype Option<+T> = None | Some(value: T)

  /** The outcome of an operation that the source lets raise. */
  datatype Result<+R, +E> = Success(value: R) | Failure(error: E)
}
