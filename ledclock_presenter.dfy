/**
 * The Presenter of LedClock (LedClock/Presenter.h): it draws a
 * RenderingInfo on a four-digit LED module and redraws only when the info
 * changed since the previous frame. Blinking is done by the module itself:
 * the presenter marks the edited digits with the module's blink style
 * (LedDisplay::BLINK_STYLE, whose value is a parameter here) instead of
 * blanking them. The LED writer calls are appended to a trace.
 */
module LedClockPresenter {
  import opened AceTime
  import opened Display
  import opened Widths
  import opened LedClockInfo

  /** shouldShowFor: a field is hidden only in its own mode while blinking off (no suppress term). */
  function ShouldShowFor(info: RenderingInfo, m: Mode): (r: bool)
    ensures !r <==> m == info.mode && !info.blinkShowState
  {
    m != info.mode || info.blinkShowState
  }

  /** needsClear: the mode changed. */
  function NeedsClear(curr: RenderingInfo, prev: RenderingInfo): bool
  {
    curr.mode != prev.mode
  }

  /** needsUpdate: any field of the rendering info changed. */
  function NeedsUpdate(curr: RenderingInfo, prev: RenderingInfo): bool
  {
    curr != prev
  }

  /** Whether digit `pos` of the module blinks in mode `m`: the digits of the edited field. */
  predicate Blinks(m: Mode, pos: int)
  {
    (m == ChangeHour && pos < 2) || (m == ChangeMinute && 2 <= pos) || m in {ChangeYear, ChangeMonth, ChangeDay}
  }

  /** setBlinkStyle: the style of each of the four digits, per mode. */
  function BlinkStyleOps(m: Mode, blinkStyle: int): (r: seq<Op>)
    ensures |r| == 4
    ensures forall i :: 0 <= i < 4 ==> r[i] == WriteStyleAt(i, if Blinks(m, i) then blinkStyle else 0)
  {
    var b := blinkStyle;
    if m == ChangeHour then [WriteStyleAt(0, b), WriteStyleAt(1, b), WriteStyleAt(2, 0), WriteStyleAt(3, 0)]
    else if m == ChangeMinute then [WriteStyleAt(0, 0), WriteStyleAt(1, 0), WriteStyleAt(2, b), WriteStyleAt(3, b)]
    else if m in {ChangeYear, ChangeMonth, ChangeDay} then
      [WriteStyleAt(0, b), WriteStyleAt(1, b), WriteStyleAt(2, b), WriteStyleAt(3, b)]
    else [WriteStyleAt(0, 0), WriteStyleAt(1, 0), WriteStyleAt(2, 0), WriteStyleAt(3, 0)]
  }

  /**
   * The year screen: "20" and the two-digit yearTiny (the int8 offset from
   * 2000) as a clock, the colon off. For the years 2000 to 2099 the four
   * digits read as the year.
   */
  function YearScreen(dt: ZonedDateTime): (r: seq<Op>)
    ensures |r| == 2 && r[0].WriteClock? && r[0].hour == 20 && r[1] == WriteColon(false)
    ensures -128 <= dt.year - 2000 < 128 ==> r[0].minute == dt.year - 2000
    ensures 2000 <= dt.year < 2100 ==> 100 * r[0].hour + r[0].minute == dt.year
  {
    [WriteClock(20, I8(dt.year - 2000)), WriteColon(false)]
  }

  /** The month and day screens: the value at digit 0, the colon off, digits 2 and 3 blank. */
  function LeftFieldScreen(value: int): (r: seq<Op>)
    ensures r == [WriteDec2At(0, value, Hex(0)), WriteColon(false), WriteHexCharAt(2, Space), WriteHexCharAt(3, Space)]
  {
    [WriteDec2At(0, value, Hex(0)), WriteColon(false), WriteHexCharAt(2, Space), WriteHexCharAt(3, Space)]
  }

  /**
   * displayData's switch after the blink style: the hour-minute view and
   * the hour and minute edits share the clock screen; the year, month and
   * day views share theirs with their edits; the weekday view writes the
   * short name padded on the right. Every other mode (among them the second
   * and brightness modes, whose case names kViewMinuteSecond, a mode the
   * Mode enum does not declare) draws nothing.
   */
  function Body(lib: TimeLib, info: RenderingInfo): (r: seq<Op>)
    ensures info.mode in {ViewHourMinute, ChangeHour, ChangeMinute} <==>
      r == [WriteClock(info.dateTime.hour, info.dateTime.minute)]
    ensures info.mode in {ViewYear, ChangeYear} ==> r == YearScreen(info.dateTime)
  {
    var m := info.mode;
    var dt := info.dateTime;
    if m in {ViewHourMinute, ChangeHour, ChangeMinute} then [WriteClock(dt.hour, dt.minute)]
    else if m in {ViewYear, ChangeYear} then YearScreen(dt)
    else if m in {ViewMonth, ChangeMonth} then LeftFieldScreen(dt.month)
    else if m in {ViewDay, ChangeDay} then LeftFieldScreen(dt.day)
    else if m == ViewWeekday then [WriteStringAt(0, lib.weekdayShortName(lib.dayOfWeek(dt.year, dt.month, dt.day)))]
    else []
  }

  /** displayData: the blink style of the four digits, then the mode's screen. */
  function DataOps(lib: TimeLib, blinkStyle: int, info: RenderingInfo): (r: seq<Op>)
    ensures |r| >= 4 && r[..4] == BlinkStyleOps(info.mode, blinkStyle) && r[4..] == Body(lib, info)
  {
    BlinkStyleOps(info.mode, blinkStyle) + Body(lib, info)
  }

  /** display's output: a clear iff the mode changed, then the data iff the info changed. */
  function FrameOps(lib: TimeLib, blinkStyle: int, curr: RenderingInfo, prev: RenderingInfo): (r: seq<Op>)
    ensures r == [] <==> curr == prev
    ensures NeedsClear(curr, prev) ==> r[0] == Clear && r[1..] == DataOps(lib, blinkStyle, curr)
    ensures !NeedsClear(curr, prev) && curr != prev ==> r == DataOps(lib, blinkStyle, curr)
  {
    (if NeedsClear(curr, prev) then [Clear] else []) +
    (if NeedsUpdate(curr, prev) then DataOps(lib, blinkStyle, curr) else [])
  }

  /** A frame drawn twice in a row: the second draws nothing. */
  lemma DisplayIdempotent(lib: TimeLib, blinkStyle: int, info: RenderingInfo)
    ensures FrameOps(lib, blinkStyle, info, info) == []
  {
  }

  /**
   * The picture does not depend on the blink flag, which the module's own
   * blinking replaces; yet needsUpdate compares it, so every blink phase
   * change redraws the same picture.
   */
  lemma BlinkStateInvisible(lib: TimeLib, blinkStyle: int, info: RenderingInfo, b: bool)
    ensures DataOps(lib, blinkStyle, info.(blinkShowState := b)) == DataOps(lib, blinkStyle, info)
    ensures info.blinkShowState != b ==>
      FrameOps(lib, blinkStyle, info.(blinkShowState := b), info) == DataOps(lib, blinkStyle, info)
  {
    var other := info.(blinkShowState := b);
    assert Body(lib, other) == Body(lib, info);
  }

  /**
   * In the hour edit exactly the hour digits blink, in the minute edit
   * exactly the minute digits, and both are drawn by the same clock call.
   */
  lemma EditedDigitsBlink(lib: TimeLib, blinkStyle: int, info: RenderingInfo)
    requires info.mode in {ChangeHour, ChangeMinute}
    ensures var r := DataOps(lib, blinkStyle, info);
      |r| == 5 && r[4] == WriteClock(info.dateTime.hour, info.dateTime.minute) &&
      (info.mode == ChangeHour ==> r[0] == WriteStyleAt(0, blinkStyle) && r[2] == WriteStyleAt(2, 0)) &&
      (info.mode == ChangeMinute ==> r[0] == WriteStyleAt(0, 0) && r[2] == WriteStyleAt(2, blinkStyle))
  {
    var r := DataOps(lib, blinkStyle, info);
    assert r[..4] == BlinkStyleOps(info.mode, blinkStyle);
    assert r[0] == BlinkStyleOps(info.mode, blinkStyle)[0] && r[2] == BlinkStyleOps(info.mode, blinkStyle)[2];
  }

  /** The second and brightness modes draw no digits: the display keeps only its cleared state. */
  lemma SecondAndBrightnessDrawNothing(lib: TimeLib, blinkStyle: int, info: RenderingInfo)
    requires info.mode in {ViewSecond, ChangeSecond, ViewBrightness, ChangeBrightness}
    ensures DataOps(lib, blinkStyle, info) == BlinkStyleOps(Unknown, 0)
  {
  }

  class Presenter {
    const lib: TimeLib
    /** LedDisplay::BLINK_STYLE. */
    const blinkStyle: int
    var renderingInfo: RenderingInfo
    var prevRenderingInfo: RenderingInfo
    /** The LED writer calls made so far. */
    var ops: seq<Op>

    constructor (lib: TimeLib, blinkStyle: int)
      ensures this.lib == lib && this.blinkStyle == blinkStyle
      ensures renderingInfo == InitialRenderingInfo && prevRenderingInfo == InitialRenderingInfo && ops == []
    {
      this.lib := lib;
      this.blinkStyle := blinkStyle;
      renderingInfo := InitialRenderingInfo;
      prevRenderingInfo := InitialRenderingInfo;
      ops := [];
    }

    /** display: draw the frame, then remember the info, whether or not it was drawn. */
    method Display()
      modifies this`ops, this`prevRenderingInfo
      ensures ops == old(ops) + FrameOps(lib, blinkStyle, renderingInfo, old(prevRenderingInfo))
      ensures prevRenderingInfo == renderingInfo
    {
      var clear := if renderingInfo.mode != prevRenderingInfo.mode then [Clear] else [];
      var data := if renderingInfo != prevRenderingInfo then DataOps(lib, blinkStyle, renderingInfo) else [];
      ops := ops + (clear + data);
      prevRenderingInfo := renderingInfo;
    }

    /** setRenderingInfo: the mode, the blink flag and the snapshot's hour mode, zone and time. */
    method SetRenderingInfo(mode: Mode, blinkShowState: bool, clockInfo: ClockInfo)
      modifies this`renderingInfo
      ensures renderingInfo == Rendered(mode, blinkShowState, clockInfo)
    {
      renderingInfo := renderingInfo.(mode := mode, blinkShowState := blinkShowState,
                                      hourMode := clockInfo.hourMode, timeZone := clockInfo.timeZone,
                                      dateTime := clockInfo.dateTime);
    }
  }
}
