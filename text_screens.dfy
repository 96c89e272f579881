/**
 * Pieces shared by the presenters of the C++ clocks that print text on an
 * OLED or LCD screen: the 12-hour conversion, the clamped lookups of the
 * contrast and backlight tables, the date-change indicator, and the date
 * and time lines in which a field being edited blinks.
 */
module TextScreens {
  import opened AceTime
  import opened Display

  /** ClockInfo::kTwelve and ClockInfo::kTwentyFour. */
  const Twelve := 0
  const TwentyFour := 1

  /** The 12-hour dial hour of a 24-hour hour: 0 becomes 12, 13..23 lose 12. */
  function TwelveHour(h: int): (r: int)
    ensures h == 0 ==> r == 12
    ensures 1 <= h <= 12 ==> r == h
    ensures h > 12 ==> r == h - 12
    ensures 0 <= h < 24 ==> 1 <= r <= 12
  {
    if h == 0 then 12 else if h > 12 then h - 12 else h
  }

  /** The 12-hour dial hour and the AM/PM half together determine the 24-hour hour. */
  lemma TwelveHourWithHalfIsInjective(h1: int, h2: int)
    requires 0 <= h1 < 24 && 0 <= h2 < 24
    requires TwelveHour(h1) == TwelveHour(h2) && (h1 < 12) == (h2 < 12)
    ensures h1 == h2
  {
  }

  /** The inverse reading: the 24-hour hour of a dial hour in a half of the day. */
  function TwentyFourHour(dial: int, am: bool): (h: int)
    requires 1 <= dial <= 12
    ensures 0 <= h < 24 && (h < 12) == am && TwelveHour(h) == dial
  {
    if am then (if dial == 12 then 0 else dial) else (if dial == 12 then 12 else dial + 12)
  }

  /** Every hour of the day is read back from its dial hour and half. */
  lemma TwelveHourRoundTrip(h: int)
    requires 0 <= h < 24
    ensures TwentyFourHour(TwelveHour(h), h < 12) == h
  {
  }

  /** Controller.cpp / Presenter.cpp: OLED contrast per level, never 0 so the screen stays readable. */
  const OledContrastValues := [25, 50, 75, 100, 125, 150, 175, 200, 225, 255]
  /** LCD backlight PWM per level (the pin is active low). */
  const LcdBacklightValues := [0, 64, 91, 128, 181, 256, 362, 512, 724, 1023]

  /** A level above 9 is read as 9. */
  function ClampLevel(level: int): (r: int)
    requires level >= 0
    ensures 0 <= r <= 9
    ensures level <= 9 ==> r == level
    ensures level > 9 ==> r == 9
  {
    if level > 9 then 9 else level
  }

  /** The contrast value of a level: the table entry at the clamped level. */
  function ContrastValue(table: seq<int>, level: int): (r: int)
    requires |table| == 10 && level >= 0
    ensures r == table[ClampLevel(level)]
  {
    table[ClampLevel(level)]
  }

  /** The backlight PWM value of a level: 1023 less the table entry at the clamped level. */
  function BacklightValue(table: seq<int>, level: int): (r: int)
    requires |table| == 10 && level >= 0
    ensures r + table[ClampLevel(level)] == 1023
  {
    1023 - table[ClampLevel(level)]
  }

  /** A higher contrast level never gives a dimmer screen, and every level is visible. */
  lemma ContrastValueMonotone(l1: int, l2: int)
    requires 0 <= l1 <= l2
    ensures 0 < ContrastValue(OledContrastValues, l1) <= ContrastValue(OledContrastValues, l2) <= 255
  {
  }

  /** A higher backlight level never gives a larger (dimmer) PWM value, and stays in 10 bits. */
  lemma BacklightValueAntitone(l1: int, l2: int)
    requires 0 <= l1 <= l2
    ensures 0 <= BacklightValue(LcdBacklightValues, l2) <= BacklightValue(LcdBacklightValues, l1) <= 1023
  {
  }

  /** The date-change indicator next to a second zone: its local date before, after, or equal to the first's. */
  function DateIndicator(primary: ZonedDateTime, other: ZonedDateTime): (c: char)
    ensures c == '<' <==> CompareLocalDate(other, primary) < 0
    ensures c == '>' <==> CompareLocalDate(other, primary) > 0
    ensures c == ' ' <==> (other.year, other.month, other.day) == (primary.year, primary.month, primary.day)
  {
    var cmp := CompareLocalDate(other, primary);
    if cmp < 0 then '<' else if cmp > 0 then '>' else ' '
  }

  /** Swapping the two zones turns '<' into '>' and back. */
  lemma DateIndicatorSwap(a: ZonedDateTime, b: ZonedDateTime)
    ensures DateIndicator(a, b) == '<' <==> DateIndicator(b, a) == '>'
  {
    CompareLocalDateAntisymmetric(a, b);
  }

  /**
   * The label of an invert-display setting, whose five values are off (0),
   * on (1), minutely (2), hourly (3) and daily (4); any other value reads
   * "<error>".
   */
  function InvertLabel(v: int): (s: string)
    ensures s == "off" <==> v == 0
    ensures s == "on" <==> v == 1
    ensures s == "min" <==> v == 2
    ensures s == "hour" <==> v == 3
    ensures s == "day" <==> v == 4
    ensures s == "<error>" <==> !(0 <= v < 5)
  {
    if v == 0 then "off"
    else if v == 1 then "on"
    else if v == 2 then "min"
    else if v == 3 then "hour"
    else if v == 4 then "day"
    else "<error>"
  }

  /** A two-digit field, or two spaces while it blinks off. */
  function Pad2OrBlank(show: bool, value: int, pad: char): seq<Op>
  {
    if show then [PrintPad2(value, pad)] else [Print("  ")]
  }

  /** The hour of a time line: space-padded on the 12-hour dial, zero-padded otherwise, two spaces while hidden. */
  function HourOps(show: bool, hourMode: int, hour: int): seq<Op>
  {
    if !show then [Print("  ")]
    else if hourMode == Twelve then [PrintPad2(TwelveHour(hour), ' ')]
    else [PrintPad2(hour, '0')]
  }

  /**
   * displayTimeZoneAbbrev: a manual zone's abbreviation ("STD" or "DST")
   * says nothing when several zones are shown, so its short name is printed;
   * other zones print the abbreviation in effect at that instant.
   */
  function AbbrevOps(lib: TimeLib, dt: ZonedDateTime): seq<Op>
  {
    if lib.zoneKind(dt.timeZone) == KindManual then [Print(lib.zoneShortName(dt.timeZone))]
    else [Print(lib.abbreviation(dt))]
  }

  /** displayDate: yyyy-mm-dd, each field blanked while hidden. */
  function DateText(dt: ZonedDateTime, showYear: bool, showMonth: bool, showDay: bool): (r: seq<Op>)
    ensures |r| == 5
    ensures r[0] == (if showYear then PrintNum(dt.year) else Print("    "))
  {
    [if showYear then PrintNum(dt.year) else Print("    "), Print("-")] +
    Pad2OrBlank(showMonth, dt.month, '0') + [Print("-")] +
    Pad2OrBlank(showDay, dt.day, '0')
  }

  /** The AM/PM suffix: only in 12-hour mode, "AM" before noon. */
  function AmPm(hour: int, hourMode: int): (r: seq<Op>)
    ensures r == [Print("AM")] <==> hourMode == Twelve && hour < 12
    ensures r == [Print("PM")] <==> hourMode == Twelve && hour >= 12
    ensures r == [] <==> hourMode != Twelve
  {
    if hourMode == Twelve then [Print(if hour < 12 then "AM" else "PM")] else []
  }

  /**
   * displayTime: hh:mm:ss then a space and, in 12-hour mode, AM or PM. The
   * hour is space-padded on the 12-hour dial and zero-padded otherwise.
   */
  function TimeText(dt: ZonedDateTime, hourMode: int, showHour: bool, showMinute: bool, showSecond: bool): (r: seq<Op>)
    ensures |r| >= 6
    ensures r[..6] == [if showHour then PrintPad2(if hourMode == Twelve then TwelveHour(dt.hour) else dt.hour,
                                                  if hourMode == Twelve then ' ' else '0')
                       else Print("  "),
                       Print(":")] + Pad2OrBlank(showMinute, dt.minute, '0') + [Print(":")] +
                      Pad2OrBlank(showSecond, dt.second, '0') + [Print(" ")]
    ensures r[6..] == AmPm(dt.hour, hourMode)
  {
    HourOps(showHour, hourMode, dt.hour) + [Print(":")] + Pad2OrBlank(showMinute, dt.minute, '0') + [Print(":")] +
    Pad2OrBlank(showSecond, dt.second, '0') + [Print(" ")] + AmPm(dt.hour, hourMode)
  }

  /**
   * A hidden hour is not drawn, except that in 12-hour mode the AM/PM suffix
   * still tells which half of the day it is in.
   */
  lemma HiddenHourNotDrawn(dt: ZonedDateTime, h: int, hourMode: int, showMinute: bool, showSecond: bool)
    requires hourMode != Twelve || (h < 12) == (dt.hour < 12)
    ensures TimeText(dt.(hour := h), hourMode, false, showMinute, showSecond) ==
            TimeText(dt, hourMode, false, showMinute, showSecond)
  {
  }

  /** A shown hour is drawn: two different hours give different time lines. */
  lemma ShownHourDrawn(dt: ZonedDateTime, h: int, hourMode: int, showMinute: bool, showSecond: bool)
    requires 0 <= h < 24 && 0 <= dt.hour < 24 && h != dt.hour
    ensures TimeText(dt.(hour := h), hourMode, true, showMinute, showSecond) !=
            TimeText(dt, hourMode, true, showMinute, showSecond)
  {
    var a := TimeText(dt.(hour := h), hourMode, true, showMinute, showSecond);
    var b := TimeText(dt, hourMode, true, showMinute, showSecond);
    if hourMode == Twelve && TwelveHour(h) == TwelveHour(dt.hour) {
      assert (h < 12) != (dt.hour < 12);
      assert a[6..] != b[6..];
    } else {
      assert a[0] != b[0];
    }
  }

  /** setFont's fonts: the small Adafruit5x7 and the bold fixed_bold10x15. */
  const SmallFont := 0
  const BoldFont := 1

  /** setFont(size): 0 is the small font at 1X, 1 the bold font at 1X, 2 the bold font at 2X; other sizes do nothing. */
  function OledFontOps(size: int): (r: seq<Op>)
    ensures size == 0 ==> r == [SetFont(SmallFont), SetTextSize(1)]
    ensures size == 1 ==> r == [SetFont(BoldFont), SetTextSize(1)]
    ensures size == 2 ==> r == [SetFont(BoldFont), SetTextSize(2)]
    ensures size !in {0, 1, 2} ==> r == []
  {
    if size == 0 then [SetFont(SmallFont), SetTextSize(1)]
    else if size == 1 then [SetFont(BoldFont), SetTextSize(1)]
    else if size == 2 then [SetFont(BoldFont), SetTextSize(2)]
    else []
  }

  /** The zone-type label of a presenter that knows only the three plain zone types. */
  function ZoneTypeLabel(kind: ZoneKind): (s: string)
    ensures s == "manual" <==> kind == KindManual
    ensures s == "basic" <==> kind == KindBasic
    ensures s == "extd" <==> kind == KindExtended
    ensures s == "unknown" <==> kind !in {KindManual, KindBasic, KindExtended}
  {
    match kind
    case KindManual => "manual"
    case KindBasic => "basic"
    case KindExtended => "extd"
    case _ => "unknown"
  }
}
