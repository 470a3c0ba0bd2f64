/** Optional values and results, standing in for Python's `None` and raised exceptions. */
module Wrappers {

  /** A value that may be absent (Python's `None`). */
  datatype Option<+T> = None | Some(value: T)

  /** A computed value, or the error raised instead of it. */
  datatype Result<+T, +E> = Ok(value: T) | Err(error: E)
}
