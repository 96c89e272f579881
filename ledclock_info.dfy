/**
 * The records and modes of LedClock: the Mode enum of its config.h, the
 * ClockInfo the controller keeps, the StoredInfo kept in the EEPROM and the
 * RenderingInfo the presenter draws.
 */
module LedClockInfo {
  import opened AceTime
  import LedBrightness

  /** The Mode enum of LedClock/config.h. */
  datatype Mode =
    | Unknown
    | ViewDateTime | ViewHourMinute | ViewSecond | ViewYear | ViewMonth | ViewDay | ViewWeekday
    | ViewTimeZone | ViewBrightness
    | ChangeYear | ChangeMonth | ChangeDay | ChangeHour | ChangeMinute | ChangeSecond
    | ChangeTimeZoneOffset | ChangeTimeZoneDst | ChangeHourMode
    | ChangeBrightness

  /** The six modes that edit the date and time. */
  predicate IsDateTimeEdit(m: Mode)
  {
    m in {ChangeYear, ChangeMonth, ChangeDay, ChangeHour, ChangeMinute, ChangeSecond}
  }

  /**
   * ClockInfo: the blink flags (never set by the controller), the hour
   * mode, the brightness, the zone (its TimeZoneData) and the time.
   */
  datatype ClockInfo = ClockInfo(
    blinkShowState: bool, suppressBlink: bool,
    hourMode: int, brightness: int, timeZone: TimeZone, dateTime: ZonedDateTime)

  /** The member initializers of ClockInfo: 12-hour mode and brightness 1. */
  const InitialClockInfo := ClockInfo(false, false, 0, 1, ZeroTimeZone, ZeroDateTime)

  /** ClockInfo::kTwentyFour. */
  const TwentyFour := 1

  /** What the EEPROM keeps: the hour mode, the brightness and the zone. */
  datatype StoredInfo = StoredInfo(hourMode: int, brightness: int, timeZone: TimeZone)

  /** PersistentStore::readStoredInfo: a record whose CRC matched, or none. */
  datatype StoreRead = StoreOk(stored: StoredInfo) | StoreBad

  /** storedInfoFromClockInfo: the three persisted fields. */
  function StoredOf(c: ClockInfo): (st: StoredInfo)
    ensures st.hourMode == c.hourMode && st.brightness == c.brightness && st.timeZone == c.timeZone
  {
    StoredInfo(c.hourMode, c.brightness, c.timeZone)
  }

  /**
   * clockInfoFromStoredInfo: the persisted fields replaced, the brightness
   * clamped into the LED module's range [lo, hi]; everything else kept.
   */
  function WithStored(c: ClockInfo, st: StoredInfo, lo: int, hi: int): (r: ClockInfo)
    ensures r.hourMode == st.hourMode && r.timeZone == st.timeZone
    ensures r.brightness == LedBrightness.Normalize(st.brightness, lo, hi)
    ensures lo <= hi ==> lo <= r.brightness <= hi
    ensures r.(hourMode := c.hourMode, brightness := c.brightness, timeZone := c.timeZone) == c
  {
    c.(hourMode := st.hourMode, brightness := LedBrightness.Normalize(st.brightness, lo, hi),
       timeZone := st.timeZone)
  }

  /** A snapshot whose brightness is in range is restored from its own record unchanged. */
  lemma StoredRoundTrip(c: ClockInfo, lo: int, hi: int)
    requires lo <= c.brightness <= hi
    ensures WithStored(c, StoredOf(c), lo, hi) == c
  {
  }

  /** RenderingInfo: what the presenter compares and draws (no brightness, no suppress flag). */
  datatype RenderingInfo = RenderingInfo(
    mode: Mode, blinkShowState: bool, hourMode: int, timeZone: TimeZone, dateTime: ZonedDateTime)

  /** The member initializers of RenderingInfo. */
  const InitialRenderingInfo := RenderingInfo(Unknown, true, 0, ZeroTimeZone, ZeroDateTime)

  /** setRenderingInfo: the mode, the blink flag, and three fields of the snapshot. */
  function Rendered(mode: Mode, blinkShowState: bool, c: ClockInfo): (r: RenderingInfo)
    ensures r.mode == mode && r.blinkShowState == blinkShowState
    ensures r.hourMode == c.hourMode && r.timeZone == c.timeZone && r.dateTime == c.dateTime
  {
    RenderingInfo(mode, blinkShowState, c.hourMode, c.timeZone, c.dateTime)
  }

  /** The brightness and the snapshot's own blink flags never reach the presenter. */
  lemma RenderedIgnoresBrightness(mode: Mode, show: bool, c: ClockInfo, brightness: int, s: bool, t: bool)
    ensures Rendered(mode, show, c.(brightness := brightness, blinkShowState := s, suppressBlink := t)) ==
            Rendered(mode, show, c)
  {
  }
}
