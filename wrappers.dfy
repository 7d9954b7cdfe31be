/** Option and Result, the failure-carrying values used across the model. */
module Wrappers {

  datatype Option<+T> = None | Some(value: T)

  /** An operation that either produced a value or raised an exception. */
  datatype Result<+R, +E> = Ok(value: R) | Err(error: E)
}
