/**
 * The records and mode identifiers of OledClock, built with the basic zone
 * type (TIME_ZONE_TYPE_BASIC), so the zone is edited by name.
 */
module OledClockInfo {
  import opened AceTime

  /** The uint8 mode identifiers of OledClock/config.h. */
  const ModeUnknown := 0
  const ModeDateTime := 1
  const ModeTimeZone := 2
  const ModeAbout := 3
  const ModeChangeYear := 10
  const ModeChangeMonth := 11
  const ModeChangeDay := 12
  const ModeChangeHour := 13
  const ModeChangeMinute := 14
  const ModeChangeSecond := 15
  const ModeChangeTimeZoneName := 20

  /** The six modes that edit the date and time. */
  predicate IsDateTimeEdit(m: int)
  {
    ModeChangeYear <= m <= ModeChangeSecond
  }

  /** Every edit mode: the date and time edits and the zone-name edit. */
  predicate IsEdit(m: int)
  {
    IsDateTimeEdit(m) || m == ModeChangeTimeZoneName
  }

  /** ClockInfo: the hour mode, the zone (its TimeZoneData), and the current date-time. */
  datatype ClockInfo = ClockInfo(hourMode: int, timeZone: TimeZone, dateTime: ZonedDateTime)

  /** The persisted part of ClockInfo. */
  datatype StoredInfo = StoredInfo(hourMode: int, timeZone: TimeZone)

  /** PersistentStore::readStoredInfo: a record whose CRC matched, or none. */
  datatype StoreRead = StoreOk(stored: StoredInfo) | StoreBad

  /** What the controller hands the presenter each cycle. */
  datatype RenderingInfo = RenderingInfo(
    mode: int, suppressBlink: bool, blinkShowState: bool,
    hourMode: int, timeZone: TimeZone, dateTime: ZonedDateTime)

  /** Zero-initialised records (the controller and presenter are globals). */
  const ZeroClockInfo := ClockInfo(0, ZeroTimeZone, ZeroDateTime)
  const ZeroRenderingInfo := RenderingInfo(ModeUnknown, false, false, 0, ZeroTimeZone, ZeroDateTime)

  /** storedInfoFromClockInfo: keeps exactly the persisted fields. */
  function StoredOf(c: ClockInfo): StoredInfo
  {
    StoredInfo(c.hourMode, c.timeZone)
  }

  /** clockInfoFromStoredInfo: overwrites the persisted fields, keeps the date-time. */
  function WithStored(c: ClockInfo, s: StoredInfo): (r: ClockInfo)
    ensures StoredOf(r) == s && r.dateTime == c.dateTime
  {
    c.(hourMode := s.hourMode, timeZone := s.timeZone)
  }

  /** Storing and restoring into the same snapshot changes nothing. */
  lemma StoredRoundTrip(c: ClockInfo)
    ensures WithStored(c, StoredOf(c)) == c
  {
  }
}
