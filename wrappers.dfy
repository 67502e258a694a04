/** Optional values and success-or-failure outcomes shared by the gallery modules. */
module Wrappers {

  /** A value that may be absent: `undefined`/`null` in the gallery's TypeScript. */
  datatype Option<+T> = None | Some(value: T)

  /** The outcome of an operation that either returns a value or throws. */
  datatype Result<+T, +E> = Success(value: T) | Failure(error: E)
}
