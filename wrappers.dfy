/** Failure-carrying values used throughout the model. */
module Wrappers {

  datatype Option<T> = None | Some(value: T)

  datatype Result<T, E> = Ok(value: T) | Err(error: E)
}

/**
  The Python exception classes that the modelled tools raise to their callers.
  Each carries the text that `str(e)` gives.
 */
module Exceptions {

  datatype Exception =
    | ValueError(msg: string)
    | RuntimeError(msg: string)
    | TimeoutError(msg: string)
    | FileNotFoundError(msg: string)
    | PermissionError(msg: string)
}
