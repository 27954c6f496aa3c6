/** Failure-carrying values shared by the modules of this model. */
module Wrappers {

  /** A value that may be absent: Java's `null` for object results. */
  datatype Option<+T> = None | Some(value: T)

  /** The value of a call that may throw: `Err` carries the exception's message. */
  datatype Result<+T> = Ok(value: T) | Err(message: string)
}
