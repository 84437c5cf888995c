/** Optional values and results, used for the source's nulls and exceptions. */
module Wrappers {

  /** A value that may be absent (a C# null). */
  datatype Option<+T> = None | Some(value: T)

  /** Either a value or the error that a C# method would have thrown. */
  datatype Result<+R, +E> = Success(value: R) | Failure(error: E)

  /** Either normal completion or the error that was thrown, for methods without a value. */
  datatype Outcome<+E> = Pass | Fail(error: E)
}
