/**
 * The records of MedMinder, built for named (basic) zones: one OLED screen
 * that shows either the countdown to the next dose, the date and time, the
 * zone, the contrast setting or the about screen. The ClockInfo carries
 * the medication schedule (when the last dose was taken and how often one
 * is due) next to the clock; the EEPROM keeps the zone, the schedule and
 * the contrast.
 */
module MedMinderInfo {
  import opened AceTime
  import opened TimePeriods

  /** MedMinder's Mode enum as the basic-zone build compiles it. */
  datatype Mode =
    | Unknown
    | ViewMed | ViewDateTime | ViewTimeZone | ViewSettings | ViewAbout
    | ChangeMedHour | ChangeMedMinute
    | ChangeYear | ChangeMonth | ChangeDay | ChangeHour | ChangeMinute | ChangeSecond
    | ChangeTimeZoneName
    | ChangeSettingsContrast

  predicate IsMedEdit(m: Mode)
  {
    m in {ChangeMedHour, ChangeMedMinute}
  }

  predicate IsDateEdit(m: Mode)
  {
    m in {ChangeYear, ChangeMonth, ChangeDay, ChangeHour, ChangeMinute, ChangeSecond}
  }

  /** The edits made on the scratch ClockInfo, which the presenter is shown instead of the clock's. */
  predicate IsScratchEdit(m: Mode)
  {
    IsMedEdit(m) || IsDateEdit(m) || m == ChangeTimeZoneName
  }

  /** Every edit mode: the scratch edits and the contrast, which is edited in the clock's own ClockInfo. */
  predicate IsEdit(m: Mode)
  {
    IsScratchEdit(m) || m == ChangeSettingsContrast
  }

  /**
   * The snapshot the presenter draws: the mode and blink flags, the zone and
   * the time, when the last dose was taken (uint32 epoch seconds), the dose
   * interval (on the countdown screen, the time left instead) and the OLED
   * contrast level.
   */
  datatype ClockInfo = ClockInfo(
    mode: Mode, blinkShowState: bool, suppressBlink: bool,
    timeZone: TimeZone, dateTime: ZonedDateTime,
    medStartTime: int, medInterval: TimePeriod, contrastLevel: int)

  /** A default-constructed ClockInfo of a statically allocated controller: all fields zero. */
  const ZeroClockInfo := ClockInfo(Unknown, false, false, ZeroTimeZone, ZeroDateTime, 0, Period(0, 0, 0, 1), 0)

  /** What the EEPROM keeps: the zone, the time of the last dose, the interval and the contrast. */
  datatype StoredInfo = StoredInfo(timeZone: TimeZone, medStartTime: int, medInterval: TimePeriod, contrastLevel: int)

  /** readStoredInfo(): a record that passed the store's CRC check, or none. */
  datatype StoreRead = StoreOk(stored: StoredInfo) | StoreBad

  /** preserveClockInfo's record of a snapshot. */
  function StoredOf(c: ClockInfo): StoredInfo
  {
    StoredInfo(c.timeZone, c.medStartTime, c.medInterval, c.contrastLevel)
  }

  /** restoreClockInfo: the four stored fields replaced in a snapshot, nothing else. */
  function WithStored(c: ClockInfo, st: StoredInfo): (r: ClockInfo)
    ensures StoredOf(r) == st
    ensures r.(timeZone := c.timeZone, medStartTime := c.medStartTime,
               medInterval := c.medInterval, contrastLevel := c.contrastLevel) == c
  {
    c.(timeZone := st.timeZone, medStartTime := st.medStartTime,
       medInterval := st.medInterval, contrastLevel := st.contrastLevel)
  }
}
