/** Option and Result values used for Python's None and for raised exceptions. */
module Wrappers {

  datatype Option<+T> = None | Some(value: T)

  datatype Result<+R, +E> = Ok(value: R) | Err(error: E)

  /** The outcome of a call that returns nothing on success. */
  datatype Outcome<+E> = Pass | Fail(error: E)
}
