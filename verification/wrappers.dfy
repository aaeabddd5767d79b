/** The two failure-compatible shapes the model needs. */
module Wrappers {

  datatype Option<+T> = None | Some(value: T)

  /** A value, or the exception the program raises in its place. */
  datatype Result<+T, +E> = Ok(value: T) | Err(error: E)
}
