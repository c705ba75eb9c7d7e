/**
 * The parts of the .NET runtime the core talks about: types (as far as the
 * settings converters distinguish them) and exceptions.
 */
module Clr {

  /**
   * A runtime type. ArrayType is T[]; NullableType is Nullable<T>;
   * EnumerableType is a generic type with one type argument that is, or
   * implements, IEnumerable<T> (List<T>, IList<T>, ...), named by its generic
   * definition; OtherType is any other type, named by its full name.
   */
  datatype ClrType =
    | StringType
    | ArrayType(element: ClrType)
    | NullableType(underlying: ClrType)
    | EnumerableType(definition: string, argument: ClrType)
    | OtherType(fullName: string)

  /** Type.FullName, written for generic types in the form Type.ToString() gives. */
  function FullName(t: ClrType): string
  {
    match t
    case StringType => "System.String"
    case ArrayType(e) => FullName(e) + "[]"
    case NullableType(u) => "System.Nullable`1[" + FullName(u) + "]"
    case EnumerableType(d, a) => d + "[" + FullName(a) + "]"
    case OtherType(n) => n
  }

  /** A thrown exception: its runtime type and its message. */
  datatype Exception = Exception(exceptionType: ClrType, message: string)

  const InvalidOperationExceptionType := OtherType("System.InvalidOperationException")
  const ArgumentNullExceptionType := OtherType("System.ArgumentNullException")
  const ArgumentExceptionType := OtherType("System.ArgumentException")

  /** An ArgumentNullException; its message is reduced to the parameter name. */
  function ArgumentNull(parameterName: string): Exception
  {
    Exception(ArgumentNullExceptionType, parameterName)
  }

  function InvalidOperation(message: string): Exception
  {
    Exception(InvalidOperationExceptionType, message)
  }

  /**
   * Exception.ToString() without inner exception and stack trace: the full
   * type name, then ": " and the message unless the message is empty.
   */
  function ExceptionToString(e: Exception): string
  {
    if e.message == [] then FullName(e.exceptionType) else FullName(e.exceptionType) + ": " + e.message
  }

  /** The rendering starts with the type name; a message, when there is one, can be read back after the ": ". */
  lemma ExceptionToStringParts(e: Exception)
    ensures var r, name := ExceptionToString(e), FullName(e.exceptionType);
      && |r| >= |name| && r[..|name|] == name
      && (e.message == [] <==> |r| == |name|)
      && (e.message != [] ==> r[|name|..|name| + 2] == ": " && r[|name| + 2..] == e.message)
  {
    var name := FullName(e.exceptionType);
    if e.message != [] {
      var r := name + ": " + e.message;
      assert r[..|name|] == name;
      assert r[|name|..|name| + 2] == ": ";
      assert r[|name| + 2..] == e.message;
    }
  }
}
