/** Option and Result: the "nullptr / value" and "error / value" returns of the source. */
module Wrappers {

  datatype Option<+T> = None | Some(value: T)

  /** An operation that either succeeds with a value or fails with a host-side error message. */
  datatype Result<+T> = Ok(value: T) | Err(message: string)
}
