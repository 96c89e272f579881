/**
 * The records of OneZoneClock, built for named (basic) zones and an OLED
 * screen: the Mode enum, the ClockInfo snapshot the controller keeps twice
 * and hands to the presenter, and the StoredInfo record kept in the EEPROM.
 */
module OneZoneClockInfo {
  import opened AceTime

  /** OneZoneClock's Mode enum, in declaration order. */
  datatype Mode =
    | Unknown
    | ViewDateTime | ViewTimeZone | ViewSettings | ViewSysclock | ViewAbout
    | ChangeYear | ChangeMonth | ChangeDay | ChangeHour | ChangeMinute | ChangeSecond
    | ChangeTimeZoneName
    | ChangeSettingsContrast | ChangeInvertDisplay

  predicate IsDateEdit(m: Mode)
  {
    m in {ChangeYear, ChangeMonth, ChangeDay, ChangeHour, ChangeMinute, ChangeSecond}
  }

  predicate IsSettingsEdit(m: Mode)
  {
    m in {ChangeSettingsContrast, ChangeInvertDisplay}
  }

  /** The modes in which a field blinks. */
  predicate IsEdit(m: Mode)
  {
    IsDateEdit(m) || m == ChangeTimeZoneName || IsSettingsEdit(m)
  }

  /** The modes that edit the scratch snapshot rather than the committed one. */
  predicate EditsScratch(m: Mode)
  {
    IsDateEdit(m) || m == ChangeTimeZoneName
  }

  /** ClockInfo::kInvertDisplayOff .. kInvertDisplayDaily: the five invert settings. */
  const InvertOff := 0
  const InvertOn := 1
  const InvertMinutely := 2
  const InvertHourly := 3
  const InvertDaily := 4

  /**
   * The snapshot: the mode and blink flags, the 12/24 mode, the OLED
   * contrast level and invert setting, the invert state the presenter
   * applies, the zone and the time, and the system clock's sync status
   * (the two sync times and the skew in seconds, and the status code).
   */
  datatype ClockInfo = ClockInfo(
    mode: Mode, blinkShowState: bool, suppressBlink: bool,
    hourMode: int, contrastLevel: int, invertDisplay: int, invertState: int,
    timeZone: TimeZone, dateTime: ZonedDateTime,
    prevSync: int, nextSync: int, clockSkew: int, syncStatusCode: int)

  /** The default-constructed snapshot. */
  const ZeroClockInfo := ClockInfo(Unknown, false, false, 0, 0, 0, 0, ZeroTimeZone, ZeroDateTime, 0, 0, 0, 0)

  /** What the EEPROM keeps: the 12/24 mode, the two OLED settings and the zone. */
  datatype StoredInfo = StoredInfo(hourMode: int, contrastLevel: int, invertDisplay: int, timeZone: TimeZone)

  /** readStoredInfo(): a record that passed the store's CRC check, or none. */
  datatype StoreRead = StoreOk(stored: StoredInfo) | StoreBad

  /** storedInfoFromClockInfo. */
  function StoredOf(c: ClockInfo): StoredInfo
  {
    StoredInfo(c.hourMode, c.contrastLevel, c.invertDisplay, c.timeZone)
  }

  /** clockInfoFromStoredInfo: the four stored fields are replaced, nothing else. */
  function WithStored(c: ClockInfo, s: StoredInfo): (r: ClockInfo)
    ensures StoredOf(r) == s
    ensures r.(hourMode := c.hourMode, contrastLevel := c.contrastLevel,
               invertDisplay := c.invertDisplay, timeZone := c.timeZone) == c
  {
    c.(hourMode := s.hourMode, contrastLevel := s.contrastLevel,
       invertDisplay := s.invertDisplay, timeZone := s.timeZone)
  }

  /** Restoring what was stored from a snapshot gives the snapshot back. */
  lemma StoredRoundTrip(c: ClockInfo)
    ensures WithStored(c, StoredOf(c)) == c
  {
  }

  /** The system clock's readings that updateDateTime copies into the snapshot. */
  datatype ClockStatus = ClockStatus(
    secondsSinceSyncAttempt: int, secondsToSyncAttempt: int, clockSkew: int, syncStatusCode: int)
}
