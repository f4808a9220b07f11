/** Failure-carrying results. Every error of the modelled code is a Python exception
    whose text (`str(e)`) is what callers see, so errors carry a message string. */
module Wrappers {

  datatype Option<+T> = None | Some(value: T)

  /** A computation that yields a value or raises with a message. */
  datatype Result<+T> = Ok(value: T) | Err(message: string)

  /** A computation run for its effects, that completes or raises with a message. */
  datatype Outcome = Success | Failure(message: string)
}
