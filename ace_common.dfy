/**
 * The two modular counters of the AceCommon library that the controllers use
 * for every settings edit: incrementMod and incrementModOffset, the latter
 * also as instantiated on uint8 values, where each step wraps at 256.
 */
module AceCommon {
  import opened Widths

  /** incrementMod(x, m): one step forward, back to 0 after m - 1. */
  function IncrementMod(x: int, m: int): (r: int)
    requires m > 0
    ensures 0 <= r < m
    ensures 0 <= x < m - 1 ==> r == x + 1
    ensures x == m - 1 ==> r == 0
  {
    (x + 1) % m
  }

  /** incrementModOffset(x, m, offset): the same counter over [offset, offset + m). */
  function IncrementModOffset(x: int, m: int, offset: int): (r: int)
    requires m > 0
    ensures offset <= r < offset + m
    ensures offset <= x < offset + m - 1 ==> r == x + 1
    ensures x == offset + m - 1 ==> r == offset
  {
    (x - offset + 1) % m + offset
  }

  /**
   * incrementModOffset on a uint8_t: the subtraction, the increment and the
   * addition each wrap at 256; on a value inside [offset, offset + m) it is
   * the plain counter.
   */
  function IncrementModOffsetU8(x: int, m: int, offset: int): (r: int)
    requires 0 < m < 256 && 0 <= offset < 256
    ensures 0 <= r < 256
    ensures offset <= x < offset + m && offset + m <= 256 ==> r == IncrementModOffset(x, m, offset)
  {
    U8(U8(U8(x - offset) + 1) % m + offset)
  }

  /** The counter pressed k times. */
  function IncrementModTimes(x: int, m: int, k: nat): int
    requires m > 0
  {
    if k == 0 then x else IncrementMod(IncrementModTimes(x, m, k - 1), m)
  }

  lemma {:induction false} IncrementModTimesAdd(x: int, m: int, a: nat, b: nat)
    requires m > 0
    ensures IncrementModTimes(x, m, a + b) == IncrementModTimes(IncrementModTimes(x, m, a), m, b)
  {
    if b > 0 {
      IncrementModTimesAdd(x, m, a, b - 1);
    }
  }

  /** Below the modulus, k presses just add k. */
  lemma {:induction false} IncrementModTimesBelow(x: int, m: int, k: nat)
    requires m > 0 && 0 <= x && x + k < m
    ensures IncrementModTimes(x, m, k) == x + k
  {
    if k > 0 {
      IncrementModTimesBelow(x, m, k - 1);
    }
  }

  /** m presses of incrementMod bring any in-range value back to itself. */
  lemma {:induction false} IncrementModPeriod(x: int, m: int)
    requires m > 0 && 0 <= x < m
    ensures IncrementModTimes(x, m, m) == x
  {
    IncrementModTimesBelow(x, m, m - 1 - x);
    IncrementModTimesAdd(x, m, m - 1 - x, 1);
    assert IncrementModTimes(x, m, m - x) == 0;
    IncrementModTimesAdd(x, m, m - x, x);
    IncrementModTimesBelow(0, m, x);
  }

  /** Fewer than m presses never bring an in-range value back. */
  lemma {:induction false} IncrementModNoShorterPeriod(x: int, m: int, k: nat)
    requires m > 0 && 0 <= x < m && 0 < k < m
    ensures IncrementModTimes(x, m, k) != x
  {
    if x + k < m {
      IncrementModTimesBelow(x, m, k);
    } else {
      IncrementModTimesBelow(x, m, m - 1 - x);
      IncrementModTimesAdd(x, m, m - 1 - x, 1);
      IncrementModTimesAdd(x, m, m - x, k - (m - x));
      IncrementModTimesBelow(0, m, k - (m - x));
    }
  }

  /** incrementModOffset is incrementMod shifted by the offset. */
  lemma IncrementModOffsetShift(x: int, m: int, offset: int)
    requires m > 0
    ensures IncrementModOffset(x, m, offset) == IncrementMod(x - offset, m) + offset
  {
  }
}
