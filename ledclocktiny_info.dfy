/**
 * The records and modes of LedClockTiny: the Mode enum of its config.h, the
 * ClockInfo that the controller keeps twice (committed and scratch) and
 * hands whole to the presenter, and the StoredInfo kept in the EEPROM.
 *
 * The controller and the presenter read a mode, two blink flags and a DST
 * flag in ClockInfo that LedClockTiny/ClockInfo.h does not declare; they
 * are modelled as the fields those two files use, with the initial values
 * false and kUnknown.
 */
module LedClockTinyInfo {
  import opened AceTime

  /** The Mode enum of LedClockTiny/config.h. */
  datatype Mode =
    | Unknown
    | ViewHourMinute | ViewSecond | ViewYear | ViewMonth | ViewDay | ViewWeekday | ViewBrightness
    | ChangeYear | ChangeMonth | ChangeDay | ChangeHour | ChangeMinute | ChangeSecond | ChangeWeekday
    | ChangeHourMode
    | ChangeBrightness

  /** The six modes that edit the date and time. */
  predicate IsDateTimeEdit(m: Mode)
  {
    m in {ChangeYear, ChangeMonth, ChangeDay, ChangeHour, ChangeMinute, ChangeSecond}
  }

  /** The edits the buttons reach: the date and time, the weekday and the brightness. */
  predicate IsEdit(m: Mode)
  {
    IsDateTimeEdit(m) || m == ChangeWeekday || m == ChangeBrightness
  }

  /**
   * ClockInfo: the mode and the blink flags, the hour mode, the brightness
   * (a uint8), the DST flag and the offset date-time (its zone is the fixed
   * offset it was computed in).
   */
  datatype ClockInfo = ClockInfo(
    mode: Mode, blinkShowState: bool, suppressBlink: bool,
    hourMode: int, brightness: int, isDst: bool, dateTime: ZonedDateTime)

  /** The member initializers: 12-hour mode and brightness 1. */
  const InitialClockInfo := ClockInfo(Unknown, false, false, 0, 1, false, ZeroDateTime)

  /** ClockInfo::kTwentyFour. */
  const TwentyFour := 1

  /**
   * What the EEPROM keeps of a ClockInfo: the hour mode and the brightness.
   * The record's two offset fields are neither set nor read.
   */
  datatype StoredInfo = StoredInfo(hourMode: int, brightness: int)

  /** PersistentStore::readStoredInfo: a record whose CRC matched, or none. */
  datatype StoreRead = StoreOk(stored: StoredInfo) | StoreBad

  /** storedInfoFromClockInfo: the two persisted fields. */
  function StoredOf(c: ClockInfo): (st: StoredInfo)
    ensures st.hourMode == c.hourMode && st.brightness == c.brightness
  {
    StoredInfo(c.hourMode, c.brightness)
  }

  /** clockInfoFromStoredInfo: the hour mode and the brightness replaced, as stored; everything else kept. */
  function WithStored(c: ClockInfo, st: StoredInfo): (r: ClockInfo)
    ensures r.hourMode == st.hourMode && r.brightness == st.brightness
    ensures r.(hourMode := c.hourMode, brightness := c.brightness) == c
  {
    c.(hourMode := st.hourMode, brightness := st.brightness)
  }

  /** Any snapshot is restored from its own record unchanged (nothing is clamped here). */
  lemma StoredRoundTrip(c: ClockInfo)
    ensures WithStored(c, StoredOf(c)) == c
  {
  }

  /** A record read back from a snapshot it was restored into is the record itself. */
  lemma RestoredRecordRoundTrip(c: ClockInfo, st: StoredInfo)
    ensures StoredOf(WithStored(c, st)) == st
  {
  }
}
