/**
 * The brightness setting of the LED clocks built on an LED module whose
 * levels run from a minimum to a maximum (ChristmasClock, LedClock): a change
 * press counts the uint8 level on with incrementModOffset, and every level
 * that is set or restored is clamped into the module's range.
 */
module LedBrightness {
  import opened AceCommon
  import opened Cycles

  /** The LED module's brightness levels: how many, the lowest and the highest (uint8 each). */
  datatype Levels = Levels(count: int, min: int, max: int)

  predicate LevelsOk(b: Levels)
  {
    0 < b.count < 256 && 0 <= b.min < 256 && 0 <= b.max < 256
  }

  /** normalizeBrightness: below the minimum it is raised to it, above the maximum lowered to it. */
  function Normalize(b: int, lo: int, hi: int): (r: int)
    ensures b < lo ==> r == lo
    ensures lo <= b && b > hi ==> r == hi
    ensures lo <= b <= hi ==> r == b
    ensures lo <= hi ==> lo <= r <= hi
  {
    if b < lo then lo else if b > hi then hi else b
  }

  /** A normalized level is left alone by a second normalization. */
  lemma NormalizeIdempotent(b: int, lo: int, hi: int)
    requires lo <= hi
    ensures Normalize(Normalize(b, lo, hi), lo, hi) == Normalize(b, lo, hi)
  {
  }

  /** The change press in the brightness edit: the uint8 counter over `levels` levels from `lo`, then clamped. */
  function Next(b: int, levels: int, lo: int, hi: int): (r: int)
    requires 0 < levels < 256 && 0 <= lo < 256
    ensures lo <= hi ==> lo <= r <= hi
  {
    Normalize(IncrementModOffsetU8(b, levels, lo), lo, hi)
  }

  /**
   * When the module has exactly `levels` levels from `lo` to `hi`, a press
   * steps up by one and wraps from the brightest level to the dimmest.
   */
  lemma NextWalksRange(b: int, levels: int, lo: int, hi: int)
    requires 0 <= lo <= hi < 256 && 0 < levels < 256 && levels == hi - lo + 1 && lo <= b <= hi
    ensures b < hi ==> Next(b, levels, lo, hi) == b + 1
    ensures b == hi ==> Next(b, levels, lo, hi) == lo
  {
  }

  /** One change press, as a function of the level, for iterating. */
  function Press(levels: int, lo: int, hi: int): int -> int
    requires 0 < levels < 256 && 0 <= lo < 256
  {
    x => Next(x, levels, lo, hi)
  }

  /** Then `levels` presses bring any level back, and no fewer do. */
  lemma NextPeriod(b: int, levels: int, lo: int, hi: int)
    requires 0 <= lo <= hi < 256 && 0 < levels < 256 && levels == hi - lo + 1 && lo <= b <= hi
    ensures Iterate(Press(levels, lo, hi), b, levels) == b
    ensures forall k :: 0 < k < levels ==> Iterate(Press(levels, lo, hi), b, k) != b
  {
    var f := Press(levels, lo, hi);
    forall y | lo <= y < hi ensures f(y) == y + 1 {
      NextWalksRange(y, levels, lo, hi);
    }
    NextWalksRange(hi, levels, lo, hi);
    CounterPeriod(f, lo, hi + 1, b);
  }
}
