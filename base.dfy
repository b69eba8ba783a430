/**
 Types shared by the whole model: the 32-bit integers of C#, an Option and
 a Result datatype, and the exceptions the modelled code raises.
 */
module Base {

  /** C#'s `int`. */
  type Int32 = x: int | -0x8000_0000 <= x <= 0x7FFF_FFFF

  /** `Int32.MaxValue`. */
  const Int32Max: int := 0x7FFF_FFFF

  datatype Option<+T> = None | Some(value: T)

  datatype Result<+T, +E> = Success(value: T) | Failure(error: E)

  /** The exceptions a caller of the random source can observe. */
  datatype Error =
    | ArgumentNull        // ArgumentNullException: a missing or empty JSON string
    | ArgumentOutOfRange  // ArgumentOutOfRangeException: a bounded draw with a bad range
    | KeyNotFound         // KeyNotFoundException: a JSON record without a "Type" property
    | MalformedJson       // the serializer could not read the text as an array of records
}
