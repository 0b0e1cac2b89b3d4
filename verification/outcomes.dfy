/** Failure-carrying wrappers shared by the modules of the model: Go's `(value, error)`
    pairs and nil-able pointers become `Result` and `Option`. */
module Outcomes {

  /** A value that may be absent (a nil pointer, a missing cookie). */
  datatype Option<+T> = None | Some(value: T)

  /** A value or the error that took its place. */
  datatype Result<+T, +E> = Ok(value: T) | Err(error: E)
}
