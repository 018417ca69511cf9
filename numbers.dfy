/** Fixed-width numbers of the Java and Go sources. */
module Numbers {

  const TWO_32: int := 0x1_0000_0000
  const TWO_64: int := 0x1_0000_0000_0000_0000

  /** Java `int`, Go `int32`. */
  type Int32 = x: int | -0x8000_0000 <= x < 0x8000_0000

  /** Java `long`, Go `int` on a 64-bit platform. */
  type Int64 = x: int | -0x8000_0000_0000_0000 <= x < 0x8000_0000_0000_0000

  /** Two's-complement wrap-around to 32 bits (also Go's `int32(x)` conversion). */
  function Wrap32(x: int): (r: Int32)
    ensures (r - x) % TWO_32 == 0
    ensures -0x8000_0000 <= x < 0x8000_0000 ==> r == x
  {
    var m := x % TWO_32;
    if m >= 0x8000_0000 then m - TWO_32 else m
  }

  /** Two's-complement wrap-around to 64 bits. */
  function Wrap64(x: int): (r: Int64)
    ensures (r - x) % TWO_64 == 0
    ensures -0x8000_0000_0000_0000 <= x < 0x8000_0000_0000_0000 ==> r == x
  {
    var m := x % TWO_64;
    if m >= 0x8000_0000_0000_0000 then m - TWO_64 else m
  }

  /** Values that agree modulo 2^32 wrap to the same `Int32`. */
  lemma Wrap32Congruent(x: int, y: int)
    requires (x - y) % TWO_32 == 0
    ensures Wrap32(x) == Wrap32(y)
  {
    var k := (x - y) / TWO_32;
    var q, r := y / TWO_32, y % TWO_32;
    assert x == (q + k) * TWO_32 + r;
    assert x % TWO_32 == r;
  }

  /** Values that agree modulo 2^64 wrap to the same `Int64`. */
  lemma Wrap64Congruent(x: int, y: int)
    requires (x - y) % TWO_64 == 0
    ensures Wrap64(x) == Wrap64(y)
  {
    var k := (x - y) / TWO_64;
    var q, r := y / TWO_64, y % TWO_64;
    assert x == (q + k) * TWO_64 + r;
    assert x % TWO_64 == r;
  }

  /**
   * A Java `double`, carried through unchanged and never computed with:
   * the model only needs its identity, so it is its IEEE 754 bit pattern.
   */
  datatype Double = Double(bits: bv64)
}
