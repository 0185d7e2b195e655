/** The few Kotlin/JVM value shapes the model needs: nullable values,
    fixed-width integers, UUIDs and byte arrays. */
module Kotlin {

  /** A nullable value `T?`. */
  datatype Option<+T> = None | Some(value: T)

  /** Kotlin `Int`. */
  newtype int32 = x: int | -0x8000_0000 <= x < 0x8000_0000

  /** Kotlin `Byte` (signed). */
  newtype int8 = x: int | -128 <= x < 128

  /** `java.util.UUID`, compared by value. */
  type Uuid = nat

  /** A `ByteArray` object.  JVM arrays compare by reference, so a `HashMap`
      keyed by arrays distinguishes two arrays with equal contents; `identity`
      stands for that reference. */
  datatype ByteArray = ByteArray(identity: nat, content: seq<int8>)
}
