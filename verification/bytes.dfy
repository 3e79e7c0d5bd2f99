/** Fixed-width integers as the driver stores them: bytes on the bus and the
    16-bit halves of a channel's phase registers, with the `lowByte` /
    `highByte` split used on the write path and the `lo | hi << 8`
    reassembly used on the read path. */
module Bytes {

  /** One byte on the bus (`uint8_t`). */
  type Byte = bv8

  /** A `uint16_t` value. */
  type U16 = x: int | 0 <= x < 0x1_0000

  /** The narrowing that happens when an `int` expression is stored into a `uint16_t`. */
  function Uint16(x: int): (r: U16)
    ensures 0 <= x < 0x1_0000 ==> r == x
  {
    x % 0x1_0000
  }

  function Min(a: int, b: int): (m: int) { if a <= b then a else b }

  function Max(a: int, b: int): (m: int) { if a >= b then a else b }

  /** The byte whose value is `x`, assembled bit by bit from the top: the
      same byte as a direct conversion, with every proof about it phrased in
      byte-to-integer conversions only. */
  function ToByte(x: int): (b: Byte)
    requires 0 <= x < 0x100
    ensures b as int == x
    decreases x
  {
    if x == 0 then 0
    else
      var upper := ToByte(x / 2);
      var low: Byte := if x % 2 == 1 then 1 else 0;
      ShiftInBit(upper, low);
      (upper << 1) | low
  }

  /** Shifting a byte below 0x80 left and filling in one bit doubles it and adds the bit. */
  lemma ShiftInBit(upper: Byte, low: Byte)
    requires upper as int < 0x80 && low as int < 2
    ensures ((upper << 1) | low) as int == 2 * upper as int + low as int
  {
  }

  /** Bytes with the same value are the same byte. */
  lemma ByteInjective(a: Byte, b: Byte)
    requires a as int == b as int
    ensures a == b
  {
  }

  /** Arduino's `lowByte(v)`. */
  function LowByte(v: U16): (b: Byte) {
    ToByte(v % 0x100)
  }

  /** Arduino's `highByte(v)`: the byte above the low one. */
  function HighByte(v: U16): (b: Byte) {
    ToByte(v / 0x100)
  }

  /** `(uint16_t)lo | ((uint16_t)hi << 8)`: the two bytes are disjoint bit ranges. */
  function Word(lo: Byte, hi: Byte): (w: U16) {
    lo as int + 0x100 * hi as int
  }

  /** Splitting a 16-bit value and reassembling it gives the value back. */
  lemma WordOfBytes(v: U16)
    ensures Word(LowByte(v), HighByte(v)) == v
  {
  }

  /** Reassembling two bytes and splitting the result gives the bytes back. */
  lemma BytesOfWord(lo: Byte, hi: Byte)
    ensures LowByte(Word(lo, hi)) == lo
    ensures HighByte(Word(lo, hi)) == hi
  {
    var w := Word(lo, hi);
    assert w % 0x100 == lo as int;
    assert w / 0x100 == hi as int;
    ByteInjective(LowByte(w), lo);
    ByteInjective(HighByte(w), hi);
  }
}
