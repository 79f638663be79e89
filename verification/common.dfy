/** Failure-carrying datatypes shared by every module of the model. */
module Common {

  /** A value that may be absent: JavaScript's `null` / `undefined`. */
  datatype Option<+T> = None | Some(value: T)

  /** The outcome of a call into the backend: a value or the error it threw. */
  datatype Result<+T, +E> = Ok(value: T) | Err(error: E)
}
