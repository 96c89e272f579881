/** The ClockInfo record of the Go LED clock (ledclockgo/clockinfo.go). */
module LedClockGoInfo {
  import opened AceTime

  datatype ClockMode =
    | Unknown
    | ViewHourMinute | ViewSecond | ViewYear | ViewMonth | ViewDay
    | ViewWeekday | ViewTimeZone | ViewBrightness | ViewTempF | ViewTempC
    | ChangeHour | ChangeMinute | ChangeSecond | ChangeYear | ChangeMonth
    | ChangeDay | ChangeTimeZone | ChangeBrightness

  const HourMode12 := 0
  const HourMode24 := 1

  datatype ClockInfo = ClockInfo(
    dateTime: ZonedDateTime,
    tempCentiC: int,
    tempCentiF: int,
    clockMode: ClockMode,
    hourMode: int,
    brightness: int,
    blinkShowState: bool,
    blinkSuppressed: bool,
    zoneIndex: int)

  /** The zero value of the Go struct. */
  const ZeroInfo := ClockInfo(ZeroDateTime, 0, 0, Unknown, 0, 0, false, false, 0)

  /** The eight edit modes, in which the scratch snapshot is the one on display. */
  predicate IsChangeMode(m: ClockMode)
  {
    m in {ChangeHour, ChangeMinute, ChangeSecond, ChangeYear, ChangeMonth,
          ChangeDay, ChangeTimeZone, ChangeBrightness}
  }

  /** The blink rule: the edited field is drawn while shown or while blinking is suppressed. */
  predicate FieldShown(info: ClockInfo)
  {
    info.blinkShowState || info.blinkSuppressed
  }
}
