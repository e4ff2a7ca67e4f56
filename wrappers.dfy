/** Option and Result: the null returns and caught exceptions of the console, as values. */
module Wrappers {

  /** A value that may be absent (a C# null reference or an empty selection). */
  datatype Option<+T> = None | Some(value: T)

  /** The result of an operation that can fail with an error value of type E. */
  datatype Result<+T, +E> = Success(value: T) | Failure(error: E)
}
