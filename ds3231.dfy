/** What the DS3231 real-time-clock driver hands the Go clocks. */
module Ds3231 {
  /** ds3231.DateTime: the RTC's register image (year counted from 2000). */
  datatype RtcDateTime = RtcDateTime(
    year: int, month: int, day: int, hour: int, minute: int, second: int,
    weekday: int, century: int)

  /** The outcome of rtc.ReadTime(). */
  datatype RtcRead = RtcOk(dt: RtcDateTime) | RtcError

  /** The outcome of reading the RTC's temperature sensor, converted to centi-degrees C and F. */
  datatype TempRead = TempOk(centiC: int, centiF: int) | TempError
}
