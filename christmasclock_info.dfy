/**
 * The records and modes of ChristmasClock: the Mode enum of its config.h,
 * the ClockInfo the controller keeps and the presenter draws, and the
 * StoredInfo kept in the EEPROM.
 */
module ChristmasClockInfo {
  import opened AceTime
  import LedBrightness

  /** The Mode enum of ChristmasClock/config.h. */
  datatype Mode =
    | Unknown
    | ViewCountdown | ViewHourMinute | ViewSecond | ViewYear | ViewMonth | ViewDay | ViewWeekday
    | ViewTimeZone | ViewBrightness
    | ChangeYear | ChangeMonth | ChangeDay | ChangeHour | ChangeMinute | ChangeSecond
    | ChangeBrightness

  /** The six modes that edit the date and time. */
  predicate IsDateTimeEdit(m: Mode)
  {
    m in {ChangeYear, ChangeMonth, ChangeDay, ChangeHour, ChangeMinute, ChangeSecond}
  }

  /** Every edit mode: the date and time edits and the brightness edit. */
  predicate IsEdit(m: Mode)
  {
    IsDateTimeEdit(m) || m == ChangeBrightness
  }

  /**
   * ClockInfo: the mode and blink flags (used by the presenter only), the
   * hour mode, the brightness, the zone (its TimeZoneData) and the time.
   */
  datatype ClockInfo = ClockInfo(
    mode: Mode, blinkShowState: bool, suppressBlink: bool,
    hourMode: int, brightness: int, timeZone: TimeZone, dateTime: ZonedDateTime)

  /** The member initializers of ClockInfo: 12-hour mode and brightness 1. */
  const InitialClockInfo := ClockInfo(Unknown, false, false, 0, 1, ZeroTimeZone, ZeroDateTime)

  /** ClockInfo::kTwentyFour. */
  const TwentyFour := 1

  /** What the EEPROM keeps: the hour mode, the brightness and the zone. */
  datatype StoredInfo = StoredInfo(hourMode: int, brightness: int, timeZone: TimeZone)

  /** PersistentStore::readStoredInfo: a record whose CRC matched, or none. */
  datatype StoreRead = StoreOk(stored: StoredInfo) | StoreBad

  /** storedInfoFromClockInfo: the three persisted fields. */
  function StoredOf(c: ClockInfo): (st: StoredInfo)
    ensures st.hourMode == c.hourMode && st.brightness == c.brightness && st.timeZone == c.timeZone
  {
    StoredInfo(c.hourMode, c.brightness, c.timeZone)
  }

  /**
   * clockInfoFromStoredInfo: the persisted fields replaced, the brightness
   * clamped into the LED module's range [lo, hi]; everything else kept.
   */
  function WithStored(c: ClockInfo, st: StoredInfo, lo: int, hi: int): (r: ClockInfo)
    ensures r.hourMode == st.hourMode && r.timeZone == st.timeZone
    ensures r.brightness == LedBrightness.Normalize(st.brightness, lo, hi)
    ensures lo <= hi ==> lo <= r.brightness <= hi
    ensures r.(hourMode := c.hourMode, brightness := c.brightness, timeZone := c.timeZone) == c
  {
    c.(hourMode := st.hourMode, brightness := LedBrightness.Normalize(st.brightness, lo, hi),
       timeZone := st.timeZone)
  }

  /** A snapshot whose brightness is in range is restored from its own record unchanged. */
  lemma StoredRoundTrip(c: ClockInfo, lo: int, hi: int)
    requires lo <= c.brightness <= hi
    ensures WithStored(c, StoredOf(c), lo, hi) == c
  {
  }
}
