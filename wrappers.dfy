/** Option and Result: the values that stand for a null reference and for a thrown exception. */
module Wrappers {

  /** A value that may be missing (a C# reference that may be null). */
  datatype Option<+T> = None | Some(value: T)

  /** The outcome of an operation that either returns a value or throws. */
  datatype Result<+R, +E> = Success(value: R) | Failure(error: E)
}
