/** Failure-carrying datatypes shared by the request and response models.
    Go returns `(value, error)` pairs; here a call yields either a value or
    an error message, never both. */
module Wrappers {

  /** A value that may be absent (Go's nil pointer, nil map or nil slice). */
  datatype Option<+T> = None | Some(value: T)

  /** The outcome of a call that can fail with an error message. */
  datatype Result<+T> = Ok(value: T) | Err(error: string)
}
