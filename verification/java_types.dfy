/** Java value types that the query layer passes around, with their ranges made explicit,
    and the failure-compatible wrappers used for Java's null and thrown exceptions. */
module JavaTypes {

  const LongMin: int := -0x8000_0000_0000_0000
  const LongMax: int := 0x7fff_ffff_ffff_ffff

  /** Java `long`. */
  type Long = x: int | LongMin <= x <= LongMax

  /** Java `int`. */
  type Int = x: int | -0x8000_0000 <= x <= 0x7fff_ffff

  /** Java `byte` (signed). */
  type Byte = x: int | -128 <= x <= 127

  /** Java `double`, kept as its raw IEEE 754 bits: the query layer only passes it through. */
  datatype Double = Double(bits: bv64)

  /** `java.util.Date`; `time` is what `getTime()` returns, milliseconds since the epoch. */
  datatype Date = Date(time: Long)

  /** An entity property as the query layer sees it; `id` is what `getId()` returns. */
  datatype Property = Property(id: Int, name: string)

  /** A Java reference that may be null: `None` stands for null. */
  datatype Option<+T> = None | Some(value: T)

  /** The exceptions the modelled code throws itself. */
  datatype Exception =
    | NullPointerException
    | UnsupportedOperationException(message: string)

  /** A Java call that returns a value or throws. */
  datatype Result<+R> = Success(value: R) | Failure(error: Exception)
}
