/** Failure-carrying values. Go reports failures as `error` values whose
    text is what callers see, so the failure side holds the error message. */
module Results {

  /** A Go value that may be nil. */
  datatype Option<+T> = None | Some(value: T)

  /** A Go `(T, error)` pair: either a value or the error's message. */
  datatype Result<+T> = Ok(value: T) | Err(msg: string)

  /** A Go function that returns only `error`: nil, or the error's message. */
  datatype Outcome = Pass | Fail(msg: string)
}
