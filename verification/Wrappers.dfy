/** Optional values and failure results shared by every module. */
module Wrappers {
  datatype Option<+T> = None | Some(value: T)

  /** The source's exceptions: a value, or the error that was raised. */
  datatype Result<+T, +E> = Ok(value: T) | Err(error: E)
}
