/** Option and Result, the two failure-carrying shapes used throughout the model. */
module Wrappers {

  /** Python's `Optional[T]`: None or a value. */
  datatype Option<+T> = None | Some(value: T)

  /** A value, or the message of the exception the source would raise instead. */
  datatype Result<+T, +E> = Ok(value: T) | Err(error: E)
}
