/**
 * Steps that the C++ controllers share when editing a zone or entering an
 * edit: the walk through the zone registry, the fallback for a clock that
 * has not been set, and the year edit bounded by the zone database.
 */
module ZoneEdits {
  import opened Widths
  import opened AceCommon
  import opened AceTime

  /** The registry index after a zone-name press: uint16 ++, then 0 at the registry size. */
  function NextRegistryIndex(i: int, size: int): (r: int)
    ensures 0 <= r < 65536
    ensures 0 < size ==> r < size
    ensures 0 <= i < size <= 65536 ==> r == IncrementMod(i, size)
  {
    var j := U16(i + 1);
    if j >= size then 0 else j
  }

  /** size presses walk the whole registry and come back to the starting zone. */
  lemma RegistryWalkPeriod(i: int, size: int)
    requires 0 <= i < size <= 65536
    ensures IncrementModTimes(i, size, size) == i
  {
    IncrementModPeriod(i, size);
  }

  /**
   * initChangingClock: an error date-time (the clock was never set) becomes
   * epoch 0 in the same zone; a valid one is kept.
   */
  function EpochZeroFallback(lib: TimeLib, dt: ZonedDateTime): (r: ZonedDateTime)
    ensures !dt.isError ==> r == dt
    ensures dt.isError ==> r == lib.forEpochSeconds(0, dt.timeZone)
  {
    if dt.isError then lib.forEpochSeconds(0, dt.timeZone) else dt
  }

  /** The year after the edited one, kept within the zone database's [startYear, untilYear). */
  function NextYear(year: int, startYear: int, untilYear: int): (r: int)
    ensures -32768 <= year + 1 < 32768 && year + 1 < untilYear ==> r == year + 1
    ensures year + 1 >= untilYear && year + 1 < 32768 ==> r == startYear
  {
    var y := I16(year + 1);
    if y >= untilYear then startYear else y
  }

  /** Within the database's range the year edit is incrementModOffset over the range, so it never leaves it. */
  lemma NextYearIsIncrementModOffset(year: int, startYear: int, untilYear: int)
    requires -32768 <= startYear <= year < untilYear < 32768
    ensures NextYear(year, startYear, untilYear) == IncrementModOffset(year, untilYear - startYear, startYear)
    ensures startYear <= NextYear(year, startYear, untilYear) < untilYear
  {
    if year + 1 < untilYear {
      assert IncrementModOffset(year, untilYear - startYear, startYear) == year + 1;
    }
  }
}
