/** Failure-carrying values used across the model: PHP's `null` returns become
    `None`, and thrown exceptions become `Err` carrying the exception message. */
module Wrappers {

  datatype Option<+T> = None | Some(value: T)

  datatype Result<+T> = Ok(value: T) | Err(message: string)
}
