/** Failure-compatible wrappers used by the sampling entry points. */
module Outcomes {

  /** An optional argument: Python's `None` or a present value. */
  datatype Option<+T> = None | Some(value: T)

  /** The value of a call that either returns or raises. */
  datatype Result<+T, +E> = Success(value: T) | Failure(error: E)
}
