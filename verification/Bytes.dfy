/** Bytes on the wire and the conversions between C's `char` and `int`. */
module Bytes {

  datatype Option<+T> = None | Some(value: T)

  newtype byte = b: int | 0 <= b < 256

  /** Reading a `char` into an `int`. Whether `char` is signed is a choice of
      the compiler, so every result here is stated for both choices. */
  function CharToInt(signed: bool, b: byte): int {
    if signed && b >= 128 then b as int - 256 else b as int
  }

  /** Storing an `int` into a `char` keeps the low eight bits. */
  function IntToChar(i: int): byte {
    (i % 256) as byte
  }

  predicate InCharRange(signed: bool, i: int) {
    if signed then -128 <= i < 128 else 0 <= i < 256
  }

  lemma CharIntChar(signed: bool, b: byte)
    ensures InCharRange(signed, CharToInt(signed, b))
    ensures IntToChar(CharToInt(signed, b)) == b
  {
  }

  /** An `int` survives the trip through a `char` exactly when it is in range. */
  lemma IntCharInt(signed: bool, i: int)
    ensures CharToInt(signed, IntToChar(i)) == i <==> InCharRange(signed, i)
  {
  }
}
