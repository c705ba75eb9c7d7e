/** Option and Result: the model's stand-ins for C#'s null and for thrown exceptions. */
module Wrappers {

  /** A value that may be absent; None plays the role of a C# null reference. */
  datatype Option<+T> = None | Some(value: T)

  /** The outcome of an operation that either returns a value or throws. */
  datatype Result<+R, +E> = Success(value: R) | Failure(error: E)

  /** The contents of an optional string, or "" for null (what C# string interpolation prints for null). */
  function OrEmpty(s: Option<string>): string
  {
    match s
    case Some(v) => v
    case None => ""
  }
}
