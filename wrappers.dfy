/** Option and Result, the two failure-carrying datatypes the model uses. */
module Wrappers {

  /** A value that may be absent (Python's `None`). */
  datatype Option<+T> = None | Some(value: T)

  /** Either a value or an error message (a raised exception, in the source). */
  datatype Result<+T> = Ok(value: T) | Err(error: string)
}
