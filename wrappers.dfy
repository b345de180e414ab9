/** Optional values and results shared by the whole model. */
module Wrappers {

  /** A value that may be absent (a TypeScript `T | undefined` or `T | null`). */
  datatype Option<+T> = None | Some(value: T)

  /** The outcome of a step that may throw: the value, or the thrown error's message. */
  datatype Result<+T, +E> = Ok(value: T) | Err(error: E)
}
