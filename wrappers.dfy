/** Option and Result, as the editor's source uses them. */
module Wrappers {

  /** A value that may be absent. */
  datatype Option<T> = None | Some(value: T)

  /** The success value of an operation, or the message of the error it raised. */
  datatype Result<T> = Ok(value: T) | Err(error: string)
}
