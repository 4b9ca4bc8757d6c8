/** Failure-carrying values shared by every module of the model. A JavaScript
    `throw new Error(message)` that the caller catches is an `Err(message)`. */
module Wrappers {

  datatype Option<+T> = None | Some(value: T)

  datatype Result<+T> = Ok(value: T) | Err(message: string)
}
