/**
 * The ClockInfo record the earlier Go LED clock (controller.go, presenter.go)
 * works on. Its declaration in clockinfo.go lists only hourMode, brightness,
 * zoneId and dateTime; the record below has the fields the controller and
 * presenter actually use. The clock-mode constants they switch on are
 * declared by no file of the program; Unknown stands for the zero value of
 * the mode field.
 */
module GoClockInfo {
  import opened AceTime

  datatype ClockMode =
    | Unknown
    | ViewYear | ViewMonth | ViewDay | ViewHourMinute | ViewSecond
    | ViewTimeZone | ViewBrightness | ViewTemperature
    | ChangeYear | ChangeMonth | ChangeDay | ChangeHour | ChangeMinute
    | ChangeSecond | ChangeTimeZone | ChangeBrightness

  const HourMode24 := 1

  datatype ClockInfo = ClockInfo(
    dateTime: ZonedDateTime,
    tempCentiC: int,
    tempCentiF: int,
    clockMode: ClockMode,
    hourMode: int,
    brightness: int,
    blinkShowState: bool,
    blinkSuppressed: bool,
    zoneIndex: int)

  const ZeroInfo := ClockInfo(ZeroDateTime, 0, 0, Unknown, 0, 0, false, false, 0)

  /** The eight edit modes, in which the scratch snapshot is the one on display. */
  predicate IsChangeMode(m: ClockMode)
  {
    m in {ChangeYear, ChangeMonth, ChangeDay, ChangeHour, ChangeMinute,
          ChangeSecond, ChangeTimeZone, ChangeBrightness}
  }

  predicate FieldShown(info: ClockInfo)
  {
    info.blinkShowState || info.blinkSuppressed
  }
}
