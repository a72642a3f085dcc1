/** Optional values and results shared by every module of the model. */
module Wrappers {

  /** A value that may be absent (JavaScript `undefined`/`null`, Python `None`). */
  datatype Option<+T> = None | Some(value: T)

  /** The outcome of a call that can fail with an error of type E. */
  datatype Result<+T, +E> = Ok(value: T) | Err(error: E)
}
