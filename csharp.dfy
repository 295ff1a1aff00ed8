/** The few notions of the .NET runtime that the model needs: 32-bit integers,
    references that may be null, and members that may throw. */
module CSharp {

  /** System.Int32, the type of every field id and record id. */
  type int32 = x: int | -0x8000_0000 <= x <= 0x7FFF_FFFF

  /** A value of a reference type that may be null. Unset builder fields and
      request properties that nothing assigned are `Null`. */
  datatype Nullable<+T> = Null | NonNull(value: T)

  /** The exceptions the modelled members throw. */
  datatype Exception =
    | ArgumentException(message: string, paramName: string)
    | InvalidOperationException(message: string)

  /** The outcome of evaluating a member that may throw. */
  datatype Outcome<+T> = Returned(value: T) | Threw(exception: Exception)
}
