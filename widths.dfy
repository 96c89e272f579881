/**
 * Fixed-width integer arithmetic of the Go and C++ sources, written out over
 * Dafny's unbounded integers: wrap-around of unsigned and signed fields, and
 * the truncating division of both languages.
 */
module Widths {
  /** Conversion to uint8: the value modulo 256. */
  function U8(x: int): (r: int)
    ensures 0 <= r < 256
    ensures 0 <= x < 256 ==> r == x
    ensures x == 256 ==> r == 0
  {
    x % 256
  }

  /** Conversion to uint16: the value modulo 65536. */
  function U16(x: int): (r: int)
    ensures 0 <= r < 65536
    ensures 0 <= x < 65536 ==> r == x
    ensures -65536 <= x < 0 ==> r == x + 65536
  {
    x % 65536
  }

  /** Conversion to int8 (two's complement wrap-around). */
  function I8(x: int): (r: int)
    ensures -128 <= r < 128
    ensures -128 <= x < 128 ==> r == x
  {
    (x + 128) % 256 - 128
  }

  /** Conversion to int16 (two's complement wrap-around). */
  function I16(x: int): (r: int)
    ensures -32768 <= r < 32768
    ensures -32768 <= x < 32768 ==> r == x
    ensures x == 32768 ==> r == -32768
  {
    (x + 32768) % 65536 - 32768
  }

  /** Conversion to uint32: the value modulo 2^32. */
  function U32(x: int): (r: int)
    ensures 0 <= r < 0x1_0000_0000
    ensures 0 <= x < 0x1_0000_0000 ==> r == x
  {
    x % 0x1_0000_0000
  }

  /** Conversion to int32 (two's complement wrap-around). */
  function I32(x: int): (r: int)
    ensures -0x8000_0000 <= r < 0x8000_0000
    ensures -0x8000_0000 <= x < 0x8000_0000 ==> r == x
  {
    (x + 0x8000_0000) % 0x1_0000_0000 - 0x8000_0000
  }

  /** Adding a multiple of 2^32 does not change the int32 value. */
  lemma I32Periodic(x: int, k: int)
    ensures I32(x + k * 0x1_0000_0000) == I32(x)
  {
    var m := 0x1_0000_0000;
    var a := x + 0x8000_0000;
    assert (a + k * m) % m == a % m by {
      var q := a / m;
      var r := a % m;
      assert a + k * m == (q + k) * m + r;
    }
  }

  /** A uint32 differs from the value it was converted from by a multiple of 2^32. */
  lemma U32Offset(x: int)
    ensures U32(x) == x - (x / 0x1_0000_0000) * 0x1_0000_0000
  {
  }

  /** Integer division by 100 as Go and C++ do it: the quotient is truncated toward zero. */
  function DivTrunc100(a: int): (q: int)
    ensures 0 <= a ==> 0 <= q && q * 100 <= a < q * 100 + 100
    ensures a < 0 ==> q <= 0 && q * 100 - 100 < a <= q * 100
  {
    if a >= 0 then a / 100 else -((-a) / 100)
  }

  /** x ^ 1 on a non-negative integer: the lowest bit flipped, the others kept. */
  function ToggleLowBit(x: int): (r: int)
    requires x >= 0
    ensures r >= 0 && r % 2 != x % 2 && r / 2 == x / 2
    ensures x < 256 ==> r < 256
  {
    if x % 2 == 0 then x + 1 else x - 1
  }

  /** Toggling twice restores the value. */
  lemma ToggleLowBitInvolution(x: int)
    requires x >= 0
    ensures ToggleLowBit(ToggleLowBit(x)) == x
  {
  }
}
