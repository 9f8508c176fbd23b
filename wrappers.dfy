/** Optional values and failure-carrying results shared by the launcher modules. */
module Wrappers {

  /** A value that may be absent, standing for a JavaScript `null`/`undefined`. */
  datatype Option<+T> = None | Some(value: T)

  /** The outcome of a step that can throw: its value, or the error it raised. */
  datatype Result<+T, +E> = Success(value: T) | Failure(error: E)
}
