/** Small shared datatypes used by every module of the model. */
module Common {

  /** A value that may be absent: Python's `None` versus a present value. */
  datatype Option<+T> = None | Some(value: T)

  /** The outcome of an endpoint: a value, or the refusal that the source raises as an HTTP error. */
  datatype Result<+T, +E> = Ok(value: T) | Err(error: E)
}
