/** Option and Result datatypes: the model's stand-ins for C# null and for thrown exceptions. */
module Wrappers {

  /** A value that may be absent (C# null). */
  datatype Option<+T> = None | Some(value: T)

  /** Either a value or the error the source would have thrown. */
  datatype Result<+T, +E> = Success(value: T) | Failure(error: E)
}
