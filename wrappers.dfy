/** Failure-compatible wrappers shared by every module of the model. */
module Wrappers {

  datatype Option<+T> = None | Some(value: T)

  /** The outcome of an operation that the demos let raise: either a value
      or the kind of error that would have been raised. */
  datatype Result<+T, +E> = Ok(value: T) | Err(error: E)
}
