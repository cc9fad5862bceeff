/** What may be absent, and what may fail, as the source's `Option` and `Result`. */
module Wrappers {

  datatype Option<+T> = None | Some(value: T)

  /** A failure says whether it may be tried again (`TransportError::retryable`). */
  datatype Result<+T> = Ok(value: T) | Err(retryable: bool)
}
