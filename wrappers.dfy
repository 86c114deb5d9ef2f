/** Optional values and fallible results, standing in for C# null references and exceptions. */
module Wrappers {

  /** A value that may be absent: `None` models a null reference. */
  datatype Option<+T> = None | Some(value: T)

  /** The outcome of an operation that can fail with an error instead of a value. */
  datatype Result<+T, +E> = Success(value: T) | Failure(error: E)
}
