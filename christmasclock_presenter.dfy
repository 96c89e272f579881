/**
 * The Presenter of ChristmasClock (ChristmasClock/Presenter.h): it draws a
 * ClockInfo on a four-digit LED module and redraws only when the info
 * changed since the previous frame. The LED writer calls are appended to a
 * trace.
 */
module ChristmasClockPresenter {
  import opened AceTime
  import opened Display
  import opened Widths
  import opened ChristmasClockInfo

  /** shouldShowFor: a field is hidden only in its own mode, while blinking off and not suppressed. */
  function ShouldShowFor(info: ClockInfo, m: Mode): (r: bool)
    ensures !r <==> m == info.mode && !info.blinkShowState && !info.suppressBlink
  {
    m != info.mode || info.blinkShowState || info.suppressBlink
  }

  /** needsClear: the mode changed. */
  function NeedsClear(curr: ClockInfo, prev: ClockInfo): bool
  {
    curr.mode != prev.mode
  }

  /** needsUpdate: any field of the info changed. */
  function NeedsUpdate(curr: ClockInfo, prev: ClockInfo): bool
  {
    curr != prev
  }

  /** updateDisplaySettings: the brightness is pushed on the first frame and whenever it changed. */
  function SettingsOps(curr: ClockInfo, prev: ClockInfo): (r: seq<Op>)
    ensures r == [SetBrightness(curr.brightness)] <==> prev.mode == Unknown || prev.brightness != curr.brightness
    ensures r == [] <==> prev.mode != Unknown && prev.brightness == curr.brightness
  {
    if prev.mode == Unknown || prev.brightness != curr.brightness then [SetBrightness(curr.brightness)] else []
  }

  /** Two blank digits. */
  const Blank2 := [WriteDigit(Space), WriteDigit(Space)]

  /** A two-digit field: its value, or two blank digits. */
  function Field2(show: bool, value: int): (r: seq<Op>)
    ensures show <==> r == [WriteDec2(value, Hex(0))]
    ensures !show <==> r == Blank2
  {
    if show then [WriteDec2(value, Hex(0))] else Blank2
  }

  /**
   * displayCountdown: the days until 25 December as four digits padded with
   * blanks, the signed count cast to uint16; the colon off.
   */
  function CountdownScreen(lib: TimeLib, dt: ZonedDateTime): (r: seq<Op>)
    ensures |r| == 2 && r[0].WriteDec4? && r[0].pad == Space && r[1] == WriteColon(false)
    ensures var days := lib.daysUntil(dt.year, dt.month, dt.day, 12, 25);
      0 <= days < 65536 ==> r[0].value == days
  {
    [WriteDec4(U16(lib.daysUntil(dt.year, dt.month, dt.day, 12, 25)), Space), WriteColon(false)]
  }

  /** displayHourMinute: the hour and the minute, each blanked in its own edit; the colon on. */
  function HourMinuteScreen(info: ClockInfo): (r: seq<Op>)
    ensures r == Field2(ShouldShowFor(info, ChangeHour), info.dateTime.hour) +
                 Field2(ShouldShowFor(info, ChangeMinute), info.dateTime.minute) + [WriteColon(true)]
  {
    Field2(ShouldShowFor(info, ChangeHour), info.dateTime.hour) +
    Field2(ShouldShowFor(info, ChangeMinute), info.dateTime.minute) + [WriteColon(true)]
  }

  /** displaySecond: two blanks, then the second and the colon, or two more blanks. */
  function SecondScreen(info: ClockInfo): (r: seq<Op>)
    ensures |r| == 4 && r[..2] == Blank2
    ensures WriteColon(true) in r <==> ShouldShowFor(info, ChangeSecond)
  {
    Blank2 + if ShouldShowFor(info, ChangeSecond) then [WriteDec2(info.dateTime.second, Hex(0)), WriteColon(true)]
             else Blank2
  }

  /** displayYear: the year as four digits, or a cleared display; the colon off. */
  function YearScreen(info: ClockInfo): (r: seq<Op>)
    ensures |r| == 2 && r[1] == WriteColon(false)
    ensures ShouldShowFor(info, ChangeYear) ==> r == [WriteDec4(info.dateTime.year, Hex(0)), WriteColon(false)]
    ensures !ShouldShowFor(info, ChangeYear) ==> r == [Clear, WriteColon(false)]
  {
    (if ShouldShowFor(info, ChangeYear) then [WriteDec4(info.dateTime.year, Hex(0))] else [Clear]) +
    [WriteColon(false)]
  }

  /** displayMonth and displayDay: two blanks, the value or two blanks, the colon off. */
  function RightFieldScreen(show: bool, value: int): (r: seq<Op>)
    ensures r == Blank2 + Field2(show, value) + [WriteColon(false)]
  {
    Blank2 + Field2(show, value) + [WriteColon(false)]
  }

  /** The weekday screen: the display cleared and the short weekday name. */
  function WeekdayScreen(lib: TimeLib, dt: ZonedDateTime): (r: seq<Op>)
    ensures r == [Clear, WriteString(lib.weekdayShortName(lib.dayOfWeek(dt.year, dt.month, dt.day)))]
  {
    [Clear, WriteString(lib.weekdayShortName(lib.dayOfWeek(dt.year, dt.month, dt.day)))]
  }

  /**
   * displayTimeZone: when shown, a basic or extended zone's abbreviation at
   * the current instant, any other zone "----"; when hidden a cleared
   * display. The colon off.
   */
  function TimeZoneScreen(lib: TimeLib, info: ClockInfo, show: bool): (r: seq<Op>)
    ensures |r| >= 2 && r[0] == Clear && r[|r| - 1] == WriteColon(false)
    ensures !show <==> |r| == 2
    ensures show && lib.zoneKind(info.timeZone) !in {KindBasic, KindExtended} ==> r[1] == WriteString("----")
  {
    if show then
      var name :=
        if lib.zoneKind(info.timeZone) in {KindBasic, KindExtended} then
          lib.abbreviation(lib.forEpochSeconds(lib.toEpochSeconds(info.dateTime), info.timeZone))
        else "----";
      [Clear, WriteString(name), WriteColon(false)]
    else [Clear, WriteColon(false)]
  }

  /** displayBrightness: "Br", the colon on, then the level padded with a blank, or two blanks. */
  function BrightnessScreen(info: ClockInfo): (r: seq<Op>)
    ensures |r| >= 4 && r[..3] == [WriteChar('B'), WriteChar('r'), WriteColon(true)]
    ensures r[3] == WriteDec2(info.brightness, Space) <==> ShouldShowFor(info, ChangeBrightness)
  {
    [WriteChar('B'), WriteChar('r'), WriteColon(true)] +
    if ShouldShowFor(info, ChangeBrightness) then [WriteDec2(info.brightness, Space)] else Blank2
  }

  /**
   * displayData's switch: each view shares its screen with its edit; other
   * modes draw nothing. The zone screen blinks for kChangeTimeZone, which
   * the Mode enum does not declare, so no mode hides it.
   */
  function Body(lib: TimeLib, info: ClockInfo): seq<Op>
  {
    var m := info.mode;
    var dt := info.dateTime;
    if m == ViewCountdown then CountdownScreen(lib, dt)
    else if m in {ViewHourMinute, ChangeHour, ChangeMinute} then HourMinuteScreen(info)
    else if m in {ViewSecond, ChangeSecond} then SecondScreen(info)
    else if m in {ViewYear, ChangeYear} then YearScreen(info)
    else if m in {ViewMonth, ChangeMonth} then RightFieldScreen(ShouldShowFor(info, ChangeMonth), dt.month)
    else if m in {ViewDay, ChangeDay} then RightFieldScreen(ShouldShowFor(info, ChangeDay), dt.day)
    else if m == ViewWeekday then WeekdayScreen(lib, dt)
    else if m == ViewTimeZone then TimeZoneScreen(lib, info, true)
    else if m in {ViewBrightness, ChangeBrightness} then BrightnessScreen(info)
    else []
  }

  /** displayData: home the cursor, then the mode's screen. */
  function DataOps(lib: TimeLib, info: ClockInfo): (r: seq<Op>)
    ensures |r| >= 1 && r[0] == Home && r[1..] == Body(lib, info)
  {
    [Home] + Body(lib, info)
  }

  /**
   * updateDisplay's output: a clear iff the mode changed, then the settings
   * and the data iff the info changed.
   */
  function FrameOps(lib: TimeLib, curr: ClockInfo, prev: ClockInfo): (r: seq<Op>)
    ensures r == [] <==> curr == prev
    ensures NeedsClear(curr, prev) ==> r[0] == Clear && r[1..] == SettingsOps(curr, prev) + DataOps(lib, curr)
    ensures !NeedsClear(curr, prev) && curr != prev ==> r == SettingsOps(curr, prev) + DataOps(lib, curr)
  {
    (if NeedsClear(curr, prev) then [Clear] else []) +
    (if NeedsUpdate(curr, prev) then SettingsOps(curr, prev) + DataOps(lib, curr) else [])
  }

  /** A frame drawn twice in a row: the second draws nothing. */
  lemma DisplayIdempotent(lib: TimeLib, info: ClockInfo)
    ensures FrameOps(lib, info, info) == []
  {
  }

  /**
   * In a view every field is shown, so the blink flags cannot change the
   * picture there, although needsUpdate redraws for them.
   */
  lemma BlinkInvisibleInViews(lib: TimeLib, info: ClockInfo, show: bool, suppress: bool)
    requires !IsEdit(info.mode)
    ensures DataOps(lib, info.(blinkShowState := show, suppressBlink := suppress)) == DataOps(lib, info)
  {
    var other := info.(blinkShowState := show, suppressBlink := suppress);
    var m := info.mode;
    if m == ViewSecond {
      assert SecondScreen(other) == SecondScreen(info);
    } else if m == ViewYear {
      assert YearScreen(other) == YearScreen(info);
    } else if m == ViewBrightness {
      assert BrightnessScreen(other) == BrightnessScreen(info);
    } else if m == ViewHourMinute {
      assert HourMinuteScreen(other) == HourMinuteScreen(info);
    }
    assert Body(lib, other) == Body(lib, info);
  }

  /**
   * The hour and the minute blink independently: in the hour edit the
   * minute is always drawn and the hour is blank exactly while blinking
   * off; in the minute edit the other way round. The colon stays on.
   */
  lemma HourAndMinuteBlinkApart(lib: TimeLib, info: ClockInfo)
    requires info.mode in {ChangeHour, ChangeMinute}
    ensures var r := DataOps(lib, info);
      var hidden := !info.blinkShowState && !info.suppressBlink;
      r[|r| - 1] == WriteColon(true) &&
      (info.mode == ChangeHour ==>
        (r[1] == WriteDigit(Space) <==> hidden) && r[|r| - 2] == WriteDec2(info.dateTime.minute, Hex(0))) &&
      (info.mode == ChangeMinute ==>
        r[1] == WriteDec2(info.dateTime.hour, Hex(0)) && (r[|r| - 2] == WriteDigit(Space) <==> hidden))
  {
    assert DataOps(lib, info)[1..] == HourMinuteScreen(info);
  }

  /** In the second edit the colon is drawn only with the second. */
  lemma SecondColonOnlyWhenShown(lib: TimeLib, info: ClockInfo)
    requires info.mode == ChangeSecond
    ensures WriteColon(true) in DataOps(lib, info) <==> info.blinkShowState || info.suppressBlink
  {
    var r := DataOps(lib, info);
    assert r == [Home] + SecondScreen(info);
    assert WriteColon(true) in r <==> WriteColon(true) in SecondScreen(info);
  }

  /** A hidden year clears the whole display, and the colon is off. */
  lemma HiddenYearClears(lib: TimeLib, info: ClockInfo)
    requires info.mode == ChangeYear && !info.blinkShowState && !info.suppressBlink
    ensures DataOps(lib, info) == [Home, Clear, WriteColon(false)]
  {
  }

  class Presenter {
    const lib: TimeLib
    var clockInfo: ClockInfo
    var prevClockInfo: ClockInfo
    /** The LED writer calls made so far. */
    var ops: seq<Op>

    constructor (lib: TimeLib)
      ensures this.lib == lib
      ensures clockInfo == InitialClockInfo && prevClockInfo == InitialClockInfo && ops == []
    {
      this.lib := lib;
      clockInfo := InitialClockInfo;
      prevClockInfo := InitialClockInfo;
      ops := [];
    }

    /** updateDisplay: draw the frame, then remember the info, whether or not it was drawn. */
    method UpdateDisplay()
      modifies this`ops, this`prevClockInfo
      ensures ops == old(ops) + FrameOps(lib, clockInfo, old(prevClockInfo))
      ensures prevClockInfo == clockInfo
    {
      var clear := if clockInfo.mode != prevClockInfo.mode then [Clear] else [];
      var data := if clockInfo != prevClockInfo then SettingsOps(clockInfo, prevClockInfo) + DataOps(lib, clockInfo)
                  else [];
      ops := ops + (clear + data);
      prevClockInfo := clockInfo;
    }

    method SetClockInfo(info: ClockInfo)
      modifies this`clockInfo
      ensures clockInfo == info
    {
      clockInfo := info;
    }
  }
}
