/** Conversions between bytes and integers, kept apart from the sample
    functions so that each proof sees only the facts it needs. */
module ByteMath {
  import opened Registers

  /** Clearing the two low bits of a byte rounds it down to a multiple of 4. */
  lemma ClearLow2(b: Byte)
    ensures (b & 0xFC) as int == b as int / 4 * 4
  {
    var hi, lo := b & 0xFC, b & 0x03;
    assert b == hi + lo && hi as int + lo as int < 256;
    assert b as int == hi as int + lo as int;
    assert hi == (b >> 2) << 2;
    assert hi as int == (b >> 2) as int * 4;
  }

  /** The byte holding a value in [0, 255]. */
  function ToByte(x: int): (b: Byte)
    requires 0 <= x < 256
    ensures b as int == x
  {
    // Naming the same byte reached through sixteen bits gives the solver
    // the bit-vector facts it needs for the postcondition.
    var wide := (x as bv16) as Byte;
    x as Byte
  }

  /** Bytes with the same value are the same byte. */
  lemma SameByte(a: Byte, b: Byte)
    requires a as int == b as int
    ensures a == b
  {
    IntOfByte(a);
    IntOfByte(b);
  }

  /** The six low bits of a byte are its value modulo 64. */
  lemma Low6(b: Byte)
    ensures (b & 0x3F) as int == b as int % 64
  {
    var hi, lo := b & 0xC0, b & 0x3F;
    assert b == hi + lo && hi as int + lo as int < 256;
    assert b as int == hi as int + lo as int;
    assert hi == (b >> 6) << 6;
    assert hi as int == (b >> 6) as int * 64;
  }

  /** The three low bits of a byte are its value modulo 8. */
  lemma Low3(b: Byte)
    ensures (b & 0x07) as int == b as int % 8
  {
    var hi, lo := b & 0xF8, b & 0x07;
    assert b == hi + lo && hi as int + lo as int < 256;
    assert b as int == hi as int + lo as int;
    assert hi == (b >> 3) << 3;
    assert hi as int == (b >> 3) as int * 8;
  }

  lemma IntOfByte(b: Byte)
    ensures (b as int) as Byte == b
  {
  }
}
