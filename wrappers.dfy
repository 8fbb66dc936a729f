/** Failure-compatible wrappers shared by the modules of the client model. */
module Wrappers {

  /** Python's `None` or a present value. */
  datatype Option<+T> = None | Some(value: T)

  /** The value of a call, or the exception it raised. */
  datatype Result<+R, +E> = Success(value: R) | Failure(error: E)
}
