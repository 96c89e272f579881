/**
 * The records of WorldClock (WorldClock/config.h, ClockInfo.h,
 * StoredInfo.h): three OLED screens, each showing one ClockInfo, built for
 * named (basic) zones. The controller edits the date and time in a scratch
 * ClockInfo and the shared settings in the three ClockInfos themselves.
 */
module WorldClockInfo {
  import opened AceTime

  /** WorldClock's Mode enum, in declaration order. */
  datatype Mode =
    | Unknown
    | ViewDateTime | ViewSettings | ViewAbout
    | ChangeYear | ChangeMonth | ChangeDay | ChangeHour | ChangeMinute | ChangeSecond
    | ChangeHourMode | ChangeBlinkingColon | ChangeContrast | ChangeInvertDisplay

  predicate IsDateEdit(m: Mode)
  {
    m in {ChangeYear, ChangeMonth, ChangeDay, ChangeHour, ChangeMinute, ChangeSecond}
  }

  predicate IsSettingsEdit(m: Mode)
  {
    m in {ChangeHourMode, ChangeBlinkingColon, ChangeContrast, ChangeInvertDisplay}
  }

  /** The modes in which a field blinks and the presenter is shown the scratch snapshot. */
  predicate IsEdit(m: Mode)
  {
    IsDateEdit(m) || IsSettingsEdit(m)
  }

  /** ClockInfo::kTwelve and kTwentyFour. */
  const Twelve := 0
  const TwentyFour := 1

  /**
   * The five invert settings the controller and presenter switch on. ClockInfo.h
   * declares only Off, On and Auto (0, 1, 2); Minutely, Hourly and Daily, which
   * the controller uses instead of Auto, are numbered 2, 3 and 4.
   */
  const InvertOff := 0
  const InvertOn := 1
  const InvertMinutely := 2
  const InvertHourly := 3
  const InvertDaily := 4

  /**
   * The snapshot of one clock: the mode and blink flags, the 12/24 mode, the
   * blinking colon, the OLED contrast level, the invert setting and the
   * invert state the presenter applies, the zone, the clock's name and the
   * time.
   */
  datatype ClockInfo = ClockInfo(
    mode: Mode, blinkShowState: bool, suppressBlink: bool,
    hourMode: int, blinkingColon: bool, contrastLevel: int, invertDisplay: int, invertState: int,
    timeZone: TimeZone, name: string, dateTime: ZonedDateTime)

  /** A snapshot before setup: 12-hour mode, a steady colon, contrast level 5, no inversion. */
  function InitialClockInfo(tz: TimeZone, name: string): ClockInfo
  {
    ClockInfo(Unknown, false, false, Twelve, false, 5, InvertOff, InvertOff, tz, name, ZeroDateTime)
  }

  /** What the EEPROM keeps, shared by the three clocks: the 12/24 mode, the colon, the contrast and the invert setting. */
  datatype StoredInfo = StoredInfo(hourMode: int, blinkingColon: bool, contrastLevel: int, invertDisplay: int)

  /** readStoredInfo(): a record that passed the store's CRC check, or none. */
  datatype StoreRead = StoreOk(stored: StoredInfo) | StoreBad

  /** The settings of one snapshot, as stored. */
  function SettingsOf(c: ClockInfo): StoredInfo
  {
    StoredInfo(c.hourMode, c.blinkingColon, c.contrastLevel, c.invertDisplay)
  }

  /** The four stored settings replaced in a snapshot, nothing else. */
  function WithSettings(c: ClockInfo, s: StoredInfo): (r: ClockInfo)
    ensures SettingsOf(r) == s
    ensures r.(hourMode := c.hourMode, blinkingColon := c.blinkingColon,
               contrastLevel := c.contrastLevel, invertDisplay := c.invertDisplay) == c
  {
    c.(hourMode := s.hourMode, blinkingColon := s.blinkingColon,
       contrastLevel := s.contrastLevel, invertDisplay := s.invertDisplay)
  }

  /** Putting back a snapshot's own settings changes nothing. */
  lemma SettingsRoundTrip(c: ClockInfo)
    ensures WithSettings(c, SettingsOf(c)) == c
  {
  }
}
