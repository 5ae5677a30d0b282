/** Small value wrappers shared by the modules of the model. */
module Wrappers {

  /** A value that may be absent: `null`/`undefined` in the original code. */
  datatype Option<+T> = None | Some(value: T)

  /** The outcome of an operation that may throw. */
  datatype Result<+T, +E> = Ok(value: T) | Err(error: E)
}
