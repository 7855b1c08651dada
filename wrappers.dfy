/** Optional values and success-or-failure results. */
module Wrappers {

  /** A value that may be absent (a form entry that was not submitted, a file without a name). */
  datatype Option<+T> = None | Some(value: T)

  /** The outcome of a schema's `safeParse`: the parsed value, or the errors found. */
  datatype Result<+T, +E> = Success(value: T) | Failure(error: E)
}
