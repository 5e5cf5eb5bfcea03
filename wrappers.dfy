/** Optional values and results shared by the modules. */
module Wrappers {

  /** A value that may be missing (a JavaScript `null` or a `NaN`). */
  datatype Option<+T> = None | Some(value: T)

  /** The outcome of an operation that may throw: a value, or the thrown error. */
  datatype Result<+T, +E> = Ok(value: T) | Err(error: E)
}
