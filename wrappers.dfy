/** Optional values, fallible results and the thrown JavaScript `Error`. */
module Wrappers {

  /** An optional field: `undefined` in the source is `None`. */
  datatype Option<+T> = None | Some(value: T)

  /** The outcome of an operation that may throw: a value, or what was thrown. */
  datatype Result<+T, +E> = Success(value: T) | Failure(error: E)

  /** A JavaScript `Error`, identified by its message. */
  datatype Error = Error(message: string)
}
