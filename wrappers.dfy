// Option and Result values used where the Python code returns None or raises.
module Wrappers {
  datatype Option<T> = None | Some(value: T)

  /** `Err` carries the message of the exception the Python code raises. */
  datatype Result<T> = Ok(value: T) | Err(error: string)
}
