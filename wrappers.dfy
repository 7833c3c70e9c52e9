/** Optional values and the settled outcome of a remote call. */
module Wrappers {

  /** A value that may be missing (`undefined` or `null` in the application). */
  datatype Option<+T> = None | Some(value: T)

  /** How an awaited remote call settled: with a value, or by throwing an error with a message. */
  datatype Outcome<+T> = Success(value: T) | Failure(message: string)
}
