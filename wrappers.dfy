/** Option and Result values used for the service layer's thrown errors and
    for the fields that the source leaves undefined. */
module Wrappers {

  datatype Option<+T> = None | Some(value: T)

  /** An operation that either returns a value or throws an error. */
  datatype Result<+R, +E> = Ok(value: R) | Err(error: E)
}
