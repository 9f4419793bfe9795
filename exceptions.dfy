/** The Python-level failure vocabulary of the model: an optional value, and a
    result that is either a value or the exception the library raises. */
module Exceptions {

  datatype Option<+T> = None | Some(value: T)

  /** The exception classes the modelled operations raise, with their message. */
  datatype Error =
    | ValueError(message: string)
    | IndexError(message: string)
    | NotImplementedError(message: string)

  datatype Result<+T> = Ok(value: T) | Err(error: Error)
}
