/** Absent values and error returns. */
module Wrappers {

  datatype Option<+T> = None | Some(value: T)

  /** A computed value, or the message of the exception the program raises. */
  datatype Result<+T> = Ok(value: T) | Err(error: string)
}
