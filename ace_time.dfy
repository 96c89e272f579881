/**
 * The parts of the AceTime and AceTimeGo libraries that the controllers and
 * presenters touch. Date-time values are plain records; the library's
 * conversions (epoch seconds, time-zone conversion, normalization, the
 * field increments of zoned_date_time_mutation, the zone registry) are not
 * part of this model and are handed to each controller as a TimeLib record of
 * functions, so every property proved here holds for any implementation of
 * them.
 */
module AceTime {
  /** A time zone: a registry zone id, or a manual standard offset plus DST offset. */
  datatype TimeZone = TimeZone(zoneId: int, stdOffsetMinutes: int, dstOffsetMinutes: int)

  /** ZonedDateTime: the local date-time fields, the zone, and the error marker. */
  datatype ZonedDateTime = ZonedDateTime(
    year: int, month: int, day: int,
    hour: int, minute: int, second: int,
    timeZone: TimeZone, isError: bool)

  /** The zero-valued Go struct and the default-constructed C++ object. */
  const ZeroTimeZone := TimeZone(0, 0, 0)
  const ZeroDateTime := ZonedDateTime(0, 0, 0, 0, 0, 0, ZeroTimeZone, false)

  /** Library operations the controllers call; see the module comment. */
  datatype TimeLib = TimeLib(
    forEpochSeconds: (int, TimeZone) -> ZonedDateTime,
    toEpochSeconds: ZonedDateTime -> int,
    convertToTimeZone: (ZonedDateTime, TimeZone) -> ZonedDateTime,
    normalize: ZonedDateTime -> ZonedDateTime,
    incrementYear: ZonedDateTime -> ZonedDateTime,
    incrementMonth: ZonedDateTime -> ZonedDateTime,
    incrementDay: ZonedDateTime -> ZonedDateTime,
    incrementHour: ZonedDateTime -> ZonedDateTime,
    incrementMinute: ZonedDateTime -> ZonedDateTime,
    increment15Minutes: int -> int,
    dayOfWeek: (int, int, int) -> int,
    daysUntil: (int, int, int, int, int) -> int,
    utcEpochSeconds: (int, int, int, int, int, int) -> int,
    utc: TimeZone,
    forLocalDateTime: (int, int, int, int, int, int, TimeZone) -> ZonedDateTime,
    abbreviation: ZonedDateTime -> string,
    registrySize: nat,
    createForZoneIndex: int -> TimeZone,
    indexForZoneId: int -> int,
    zoneKind: TimeZone -> ZoneKind,
    zoneShortName: TimeZone -> string,
    weekdayLongName: int -> string,
    weekdayShortName: int -> string,
    monthShortName: int -> string)

  /** TimeZone::getType(): the kind of zone processor behind a zone. */
  datatype ZoneKind =
    KindManual | KindBasic | KindExtended | KindBasicManaged | KindExtendedManaged | KindBasicDb | KindExtendedDb | KindOther

  /** The long name of the weekday of a date-time's local date. */
  function LongWeekdayName(lib: TimeLib, dt: ZonedDateTime): string
  {
    lib.weekdayLongName(lib.dayOfWeek(dt.year, dt.month, dt.day))
  }

  /** ZonedDateTime::second(s): only the second field changes. */
  function WithSecond(dt: ZonedDateTime, s: int): (r: ZonedDateTime)
    ensures r.second == s
    ensures r.(second := dt.second) == dt
  {
    dt.(second := s)
  }

  /** LocalDate::compareTo on the local (year, month, day): -1, 0 or 1. */
  function CompareLocalDate(a: ZonedDateTime, b: ZonedDateTime): (c: int)
    ensures c == 0 <==> (a.year, a.month, a.day) == (b.year, b.month, b.day)
    ensures -1 <= c <= 1
  {
    if a.year != b.year then (if a.year < b.year then -1 else 1)
    else if a.month != b.month then (if a.month < b.month then -1 else 1)
    else if a.day != b.day then (if a.day < b.day then -1 else 1)
    else 0
  }

  /** Comparing the other way round flips the sign. */
  lemma CompareLocalDateAntisymmetric(a: ZonedDateTime, b: ZonedDateTime)
    ensures CompareLocalDate(b, a) == -CompareLocalDate(a, b)
  {
  }

  /** The comparison is transitive, so it orders local dates. */
  lemma CompareLocalDateTransitive(a: ZonedDateTime, b: ZonedDateTime, c: ZonedDateTime)
    requires CompareLocalDate(a, b) < 0 && CompareLocalDate(b, c) < 0
    ensures CompareLocalDate(a, c) < 0
  {
  }
}
