/**
 * The Presenter of the MedMinder prototype at the top of the repository
 * (Presenter.h over RenderingInfo.h): the controller sets the fields of a
 * RenderingInfo one at a time, and display() redraws the OLED screen only
 * when something visible changed since the previous frame. The driver calls
 * are appended to a trace.
 */
module MedMinderProtoPresenter {
  import opened AceTime
  import opened Display
  import opened TextScreens
  import opened TimePeriods

  /** The MODE_* constants of RenderingInfo.h. */
  datatype Mode =
    | Unknown
    | DateTimeView | ChangeYear | ChangeMonth | ChangeDay | ChangeHour | ChangeMinute | ChangeSecond
    | ViewMed | ChangeMedHour | ChangeMedMinute
    | TimeZoneView | ChangeTimeZoneHour | ChangeTimeZoneMinute | ChangeTimeZoneDst

  predicate IsDateTimeFamily(m: Mode)
  {
    m in {DateTimeView, ChangeYear, ChangeMonth, ChangeDay, ChangeHour, ChangeMinute, ChangeSecond}
  }

  predicate IsTimeZoneFamily(m: Mode)
  {
    m in {TimeZoneView, ChangeTimeZoneHour, ChangeTimeZoneMinute, ChangeTimeZoneDst}
  }

  /** What the screen shows: the mode, the date-time, a period (the interval or the time left) and the blink flags. */
  datatype RenderingInfo = RenderingInfo(
    mode: Mode, dateTime: ZonedDateTime, timePeriod: TimePeriod,
    suppressBlink: bool, blinkShowState: bool)

  /** The member initializers of RenderingInfo. */
  const InitialRenderingInfo := RenderingInfo(Unknown, ZeroDateTime, Period(0, 0, 0, 1), false, true)

  /** The lcd5x7 font selected before each frame. */
  const Lcd5x7 := 2

  /** shouldShowFor: a field is hidden only in its own mode, while blinking off and not suppressed. */
  function ShouldShowFor(info: RenderingInfo, m: Mode): (r: bool)
    ensures !r <==> m == info.mode && !info.suppressBlink && !info.blinkShowState
  {
    m != info.mode || info.suppressBlink || info.blinkShowState
  }

  /** needsClear: the mode changed. */
  function NeedsClear(curr: RenderingInfo, prev: RenderingInfo): bool
  {
    curr.mode != prev.mode
  }

  /**
   * needsUpdate: the mode, the suppress flag, the date-time or the period
   * changed, or the blink phase changed while blinking is not suppressed.
   */
  function NeedsUpdate(curr: RenderingInfo, prev: RenderingInfo): (r: bool)
    ensures curr == prev ==> !r
    ensures !curr.suppressBlink && curr.blinkShowState != prev.blinkShowState ==> r
    ensures curr.suppressBlink && curr == prev.(blinkShowState := curr.blinkShowState) ==> !r
  {
    curr.mode != prev.mode
    || curr.suppressBlink != prev.suppressBlink
    || (!curr.suppressBlink && curr.blinkShowState != prev.blinkShowState)
    || curr.dateTime != prev.dateTime
    || curr.timePeriod != prev.timePeriod
  }

  /** TimePeriod::printTo: the signed hh:mm:ss of a period, "<Error>" for the error value. */
  function PeriodText(p: TimePeriod): (r: Op)
    ensures p.Period? ==> r == PrintPeriod(ToSeconds(p))
  {
    if p.Period? then PrintPeriod(ToSeconds(p)) else Print("<Error>")
  }

  /** A zero-padded two-digit field, or the given blank while it is hidden. */
  function Pad2Field(show: bool, value: int, blank: string): Op
  {
    if show then PrintPad2(value, '0') else Print(blank)
  }

  /** The date line: yyyy-mm-dd, each field blanked while it blinks off. */
  function DateLine(info: RenderingInfo): (r: seq<Op>)
    ensures |r| == 7
    ensures r[0] == Pad2Field(ShouldShowFor(info, ChangeYear), info.dateTime.year, "    ")
    ensures r[2] == Pad2Field(ShouldShowFor(info, ChangeMonth), info.dateTime.month, "  ")
    ensures r[4] == Pad2Field(ShouldShowFor(info, ChangeDay), info.dateTime.day, "  ")
  {
    var dt := info.dateTime;
    [Pad2Field(ShouldShowFor(info, ChangeYear), dt.year, "    "), Print("-"),
     Pad2Field(ShouldShowFor(info, ChangeMonth), dt.month, "  "), Print("-"),
     Pad2Field(ShouldShowFor(info, ChangeDay), dt.day, "  "), ClearToEol, Newline]
  }

  /** The time line: hh:mm:ss, each field blanked while it blinks off. */
  function TimeLine(info: RenderingInfo): (r: seq<Op>)
    ensures |r| == 7
    ensures r[0] == Pad2Field(ShouldShowFor(info, ChangeHour), info.dateTime.hour, "  ")
    ensures r[2] == Pad2Field(ShouldShowFor(info, ChangeMinute), info.dateTime.minute, "  ")
    ensures r[4] == Pad2Field(ShouldShowFor(info, ChangeSecond), info.dateTime.second, "  ")
  {
    var dt := info.dateTime;
    [Pad2Field(ShouldShowFor(info, ChangeHour), dt.hour, "  "), Print(":"),
     Pad2Field(ShouldShowFor(info, ChangeMinute), dt.minute, "  "), Print(":"),
     Pad2Field(ShouldShowFor(info, ChangeSecond), dt.second, "  "), ClearToEol, Newline]
  }

  /**
   * displayDateTime: "<INVALID>" alone for an unset clock; otherwise
   * yyyy-mm-dd, hh:mm:ss and the weekday's long name on three lines, the
   * edited field blanked while blinking off.
   */
  function DateTimeScreen(lib: TimeLib, info: RenderingInfo): seq<Op>
  {
    if info.dateTime.isError then [Print("<INVALID>")]
    else DateLine(info) + TimeLine(info) + [Print(LongWeekdayName(lib, info.dateTime)), ClearToEol]
  }

  /** A set clock draws the date line, the time line and the weekday line, sixteen calls in all. */
  lemma DateTimeScreenLayout(lib: TimeLib, info: RenderingInfo)
    requires !info.dateTime.isError
    ensures var r := DateTimeScreen(lib, info);
      |r| == 16 && r[..7] == DateLine(info) && r[7..14] == TimeLine(info) &&
      r[14] == Print(LongWeekdayName(lib, info.dateTime))
  {
    var r := DateTimeScreen(lib, info);
    assert r == DateLine(info) + TimeLine(info) + [Print(LongWeekdayName(lib, info.dateTime)), ClearToEol];
  }

  /**
   * TimeZone::extractStandardHourMinute: the sign of the standard offset
   * (+1 for zero) and its magnitude split into hours and minutes.
   */
  function StandardHourMinute(tz: TimeZone): (r: (int, int, int))
    ensures r.0 == -1 <==> tz.stdOffsetMinutes < 0
    ensures r.0 == 1 <==> tz.stdOffsetMinutes >= 0
    ensures 0 <= r.2 < 60 && 0 <= r.1
    ensures r.0 * (r.1 * 60 + r.2) == tz.stdOffsetMinutes
  {
    var a := if tz.stdOffsetMinutes < 0 then -tz.stdOffsetMinutes else tz.stdOffsetMinutes;
    (if tz.stdOffsetMinutes < 0 then -1 else 1, a / 60, a % 60)
  }

  /**
   * displayTimeZone: "UTC", the signed standard offset as +hh:mm (the sign
   * blinks with the hour), then the DST flag; the zone of the date-time is
   * the one shown.
   */
  function TimeZoneScreen(info: RenderingInfo): (r: seq<Op>)
    ensures |r| >= 7 && r[0] == Print("UTC")
    ensures ShouldShowFor(info, ChangeTimeZoneHour) ==>
      r[1] == Print(if info.dateTime.timeZone.stdOffsetMinutes < 0 then "-" else "+")
    ensures !ShouldShowFor(info, ChangeTimeZoneHour) ==> r[1] == Print("   ") && r[2] == Print(":")
  {
    var tz := info.dateTime.timeZone;
    var (sign, hour, minute) := StandardHourMinute(tz);
    [Print("UTC")] +
    (if ShouldShowFor(info, ChangeTimeZoneHour)
     then [Print(if sign < 0 then "-" else "+"), PrintPad2(hour, '0')]
     else [Print("   ")]) +
    [Print(":")] + Pad2OrBlank(ShouldShowFor(info, ChangeTimeZoneMinute), minute, '0') +
    [Newline, Print("DST: ")] +
    [if !ShouldShowFor(info, ChangeTimeZoneDst) then Print("   ")
     else if tz.dstOffsetMinutes != 0 then Print("on ") else Print("off")]
  }

  /** displayTimeRemaining: "Med due" and the time left. */
  function TimeRemainingScreen(info: RenderingInfo): seq<Op>
  {
    [Print("Med due"), Newline, PeriodText(info.timePeriod), ClearToEol]
  }

  /** displayMedInterval: "Med intrvl", then hh:mm of the interval, the edited field blinking. */
  function MedIntervalScreen(info: RenderingInfo): (r: seq<Op>)
    ensures |r| == 6 && r[0] == Print("Med intrvl")
    ensures r[2] == (if ShouldShowFor(info, ChangeMedHour) then PrintPad2(PeriodHour(info.timePeriod), '0') else Print("  "))
    ensures r[4] == (if ShouldShowFor(info, ChangeMedMinute) then PrintPad2(PeriodMinute(info.timePeriod), '0') else Print("  "))
  {
    [Print("Med intrvl"), Newline] +
    Pad2OrBlank(ShouldShowFor(info, ChangeMedHour), PeriodHour(info.timePeriod), '0') + [Print(":")] +
    Pad2OrBlank(ShouldShowFor(info, ChangeMedMinute), PeriodMinute(info.timePeriod), '0') + [ClearToEol]
  }

  /** The dispatch of displayData: each family to its screen; MODE_UNKNOWN draws nothing. */
  function Body(lib: TimeLib, info: RenderingInfo): seq<Op>
  {
    if IsDateTimeFamily(info.mode) then DateTimeScreen(lib, info)
    else if IsTimeZoneFamily(info.mode) then TimeZoneScreen(info)
    else if info.mode == ViewMed then TimeRemainingScreen(info)
    else if info.mode in {ChangeMedHour, ChangeMedMinute} then MedIntervalScreen(info)
    else []
  }

  /** displayData: home, the lcd5x7 font at double size, then the screen of the mode. */
  function DataOps(lib: TimeLib, info: RenderingInfo): (r: seq<Op>)
    ensures |r| >= 3 && r[..3] == [Home, SetFont(Lcd5x7), SetTextSize(2)]
    ensures r[3..] == Body(lib, info)
  {
    [Home, SetFont(Lcd5x7), SetTextSize(2)] + Body(lib, info)
  }

  /** display: clear when the mode changed, then redraw when needsUpdate. */
  function FrameOps(lib: TimeLib, curr: RenderingInfo, prev: RenderingInfo): (r: seq<Op>)
    ensures r == [] <==> !NeedsUpdate(curr, prev)
    ensures NeedsClear(curr, prev) ==> r[0] == Clear && r[1..] == DataOps(lib, curr)
    ensures !NeedsClear(curr, prev) && NeedsUpdate(curr, prev) ==> r == DataOps(lib, curr)
  {
    (if NeedsClear(curr, prev) then [Clear] else []) +
    (if NeedsUpdate(curr, prev) then DataOps(lib, curr) else [])
  }

  /**
   * While blinking is suppressed every field is shown, so the blink phase
   * cannot change the picture: this is why needsUpdate ignores it then.
   */
  lemma SuppressedBlinkInvisible(lib: TimeLib, info: RenderingInfo, b: bool)
    requires info.suppressBlink
    ensures DataOps(lib, info.(blinkShowState := b)) == DataOps(lib, info)
  {
    var other := info.(blinkShowState := b);
    if IsDateTimeFamily(info.mode) {
      assert DateTimeScreen(lib, other) == DateTimeScreen(lib, info);
    } else if IsTimeZoneFamily(info.mode) {
      assert TimeZoneScreen(other) == TimeZoneScreen(info);
    } else if info.mode in {ChangeMedHour, ChangeMedMinute} {
      assert MedIntervalScreen(other) == MedIntervalScreen(info);
    }
  }

  /**
   * needsUpdate misses nothing: when it says no, the screen the presenter
   * would draw is the one it drew for the previous info.
   */
  lemma SkippedRedrawIsInvisible(lib: TimeLib, curr: RenderingInfo, prev: RenderingInfo)
    requires !NeedsUpdate(curr, prev)
    ensures DataOps(lib, curr) == DataOps(lib, prev)
  {
    if curr.suppressBlink {
      assert curr == prev.(blinkShowState := curr.blinkShowState);
      SuppressedBlinkInvisible(lib, prev, curr.blinkShowState);
    } else {
      assert curr == prev;
    }
  }

  /** A frame drawn twice in a row: the second draws nothing. */
  lemma DisplayIdempotent(lib: TimeLib, info: RenderingInfo)
    ensures FrameOps(lib, info, info) == []
  {
  }

  /** The offset's sign is '-' exactly for a zone west of UTC, when the hour is shown. */
  lemma TimeZoneSignShown(lib: TimeLib, info: RenderingInfo)
    requires IsTimeZoneFamily(info.mode) && ShouldShowFor(info, ChangeTimeZoneHour)
    ensures DataOps(lib, info)[4] == Print("-") <==> info.dateTime.timeZone.stdOffsetMinutes < 0
  {
    assert DataOps(lib, info)[3..] == TimeZoneScreen(info);
  }

  /** An unset clock shows "<INVALID>" and nothing else on the date-time screens. */
  lemma InvalidDateTimeAlone(lib: TimeLib, info: RenderingInfo)
    requires IsDateTimeFamily(info.mode)
    ensures info.dateTime.isError <==> DataOps(lib, info)[3..] == [Print("<INVALID>")]
  {
  }

  /** In a date-time edit, the edited field is blank exactly while blinking off; the other fields are drawn. */
  lemma EditedHourBlinks(lib: TimeLib, info: RenderingInfo)
    requires info.mode == ChangeHour && !info.dateTime.isError
    ensures var r := DataOps(lib, info)[3..];
      (r[7] == Print("  ") <==> !info.suppressBlink && !info.blinkShowState) &&
      r[0] == PrintPad2(info.dateTime.year, '0') && r[9] == PrintPad2(info.dateTime.minute, '0')
  {
    var r := DataOps(lib, info)[3..];
    assert r == DateTimeScreen(lib, info);
    assert r[0] == DateLine(info)[0] && r[7] == TimeLine(info)[0] && r[9] == TimeLine(info)[2];
  }

  class Presenter {
    const lib: TimeLib
    var renderingInfo: RenderingInfo
    var prevRenderingInfo: RenderingInfo
    /** The OLED driver calls made so far. */
    var ops: seq<Op>

    constructor (lib: TimeLib)
      ensures this.lib == lib
      ensures renderingInfo == InitialRenderingInfo && prevRenderingInfo == InitialRenderingInfo && ops == []
    {
      this.lib := lib;
      renderingInfo := InitialRenderingInfo;
      prevRenderingInfo := InitialRenderingInfo;
      ops := [];
    }

    /** display: draw the frame, then remember the info, whether or not it was drawn. */
    method Display()
      modifies this`ops, this`prevRenderingInfo
      ensures ops == old(ops) + FrameOps(lib, renderingInfo, old(prevRenderingInfo))
      ensures prevRenderingInfo == renderingInfo
    {
      var clear := if renderingInfo.mode != prevRenderingInfo.mode then [Clear] else [];
      var data := if NeedsUpdate(renderingInfo, prevRenderingInfo) then DataOps(lib, renderingInfo) else [];
      ops := ops + (clear + data);
      prevRenderingInfo := renderingInfo;
    }

    method ClearDisplay()
      modifies this`ops
      ensures ops == old(ops) + [Clear]
    {
      ops := ops + [Clear];
    }

    method SetMode(mode: Mode)
      modifies this`renderingInfo
      ensures renderingInfo == old(renderingInfo).(mode := mode)
    {
      renderingInfo := renderingInfo.(mode := mode);
    }

    method SetDateTime(dateTime: ZonedDateTime)
      modifies this`renderingInfo
      ensures renderingInfo == old(renderingInfo).(dateTime := dateTime)
    {
      renderingInfo := renderingInfo.(dateTime := dateTime);
    }

    method SetTimePeriod(timePeriod: TimePeriod)
      modifies this`renderingInfo
      ensures renderingInfo == old(renderingInfo).(timePeriod := timePeriod)
    {
      renderingInfo := renderingInfo.(timePeriod := timePeriod);
    }

    method SetSuppressBlink(suppressBlink: bool)
      modifies this`renderingInfo
      ensures renderingInfo == old(renderingInfo).(suppressBlink := suppressBlink)
    {
      renderingInfo := renderingInfo.(suppressBlink := suppressBlink);
    }

    method SetBlinkShowState(blinkShowState: bool)
      modifies this`renderingInfo
      ensures renderingInfo == old(renderingInfo).(blinkShowState := blinkShowState)
    {
      renderingInfo := renderingInfo.(blinkShowState := blinkShowState);
    }
  }
}
