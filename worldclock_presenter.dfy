/**
 * The Presenter of WorldClock (WorldClock/Presenter.h), one per OLED
 * screen: it clears the screen for MODE_UNKNOWN and on a mode change, and
 * when its ClockInfo differs from the one last drawn it redraws the screen
 * of the mode and then pushes the contrast and the inversion if they
 * changed. The calls on the OLED are kept as a trace of Ops.
 */
module WorldClockPresenter {
  import opened Widths
  import opened AceTime
  import opened Display
  import opened TextScreens
  import opened WorldClockInfo
  import WorldClockController

  /** shouldShowFor: a field is hidden only in its own mode, while blinking off and not suppressed. */
  function ShouldShowFor(info: ClockInfo, m: Mode): (r: bool)
    ensures !r <==> m == info.mode && !info.blinkShowState && !info.suppressBlink
  {
    m != info.mode || info.blinkShowState || info.suppressBlink
  }

  /** clearToEOL: clear the rest of the line, then move to the next one. */
  const EndLine := [ClearToEol, Newline]

  /** The colon of the large time: steady unless the blinking colon is on, then following the blink phase. */
  function Colon(info: ClockInfo): (c: string)
    ensures c == ":" <==> !info.blinkingColon || ShouldShowFor(info, ViewDateTime)
    ensures c == " " <==> info.blinkingColon && !ShouldShowFor(info, ViewDateTime)
  {
    if !info.blinkingColon || ShouldShowFor(info, ViewDateTime) then ":" else " "
  }

  /** The last line of both date-time screens: the abbreviation in effect and the clock's name in parentheses. */
  function PlaceLine(lib: TimeLib, info: ClockInfo): seq<Op>
  {
    [Print(lib.abbreviation(info.dateTime)), Print(" "), Print("("), Print(info.name), Print(")")] + EndLine
  }

  /**
   * displayDateTime: "<Error>" for an unset clock; otherwise the large
   * hh:mm with the A/P suffix in 12-hour mode, a blank line, the weekday
   * and mm/dd, and the place line.
   */
  function DateTimeScreen(lib: TimeLib, info: ClockInfo): seq<Op>
  {
    var dt := info.dateTime;
    if dt.isError then OledFontOps(1) + [Clear, Print("<Error>"), Newline]
    else
      OledFontOps(1) + OledFontOps(2) +
      [if info.hourMode == WorldClockInfo.Twelve then PrintPad2(TwelveHour(dt.hour), ' ') else PrintPad2(dt.hour, '0'),
       Print(Colon(info)), PrintPad2(dt.minute, '0'), SetTextSize(1)] +
      (if info.hourMode == WorldClockInfo.Twelve then [Print(if dt.hour < 12 then "A" else "P")] else []) +
      [Newline, Newline,
       Print(lib.weekdayShortName(lib.dayOfWeek(dt.year, dt.month, dt.day))), Print(" "),
       PrintPad2(dt.month, ' '), Print("/"), PrintPad2(dt.day, '0'), Print(" ")] + EndLine +
      PlaceLine(lib, info)
  }

  /** The lines under the date line of the date edit: the time, the weekday and the place. */
  function ChangeableTimeLines(lib: TimeLib, info: ClockInfo): seq<Op>
  {
    var dt := info.dateTime;
    TimeText(dt, info.hourMode, ShouldShowFor(info, ChangeHour), ShouldShowFor(info, ChangeMinute),
             ShouldShowFor(info, ChangeSecond)) + EndLine +
    [Print(lib.weekdayLongName(lib.dayOfWeek(dt.year, dt.month, dt.day)))] + EndLine +
    PlaceLine(lib, info)
  }

  /**
   * displayChangeableDateTime: yyyy-mm-dd, hh:mm:ss with AM/PM in 12-hour
   * mode, the weekday, and the place line; the field being edited blinks.
   */
  function ChangeableDateTimeScreen(lib: TimeLib, info: ClockInfo): (r: seq<Op>)
    ensures |r| > 2 && r[2] == DateText(info.dateTime, ShouldShowFor(info, ChangeYear), ShouldShowFor(info, ChangeMonth),
                                        ShouldShowFor(info, ChangeDay))[0]
  {
    var dt := info.dateTime;
    OledFontOps(1) +
    DateText(dt, ShouldShowFor(info, ChangeYear), ShouldShowFor(info, ChangeMonth), ShouldShowFor(info, ChangeDay)) +
    (EndLine + ChangeableTimeLines(lib, info))
  }

  /** A setting's value after its caption, or nothing while its edit blinks off. */
  function ValueIf(show: bool, value: Op): (r: seq<Op>)
    ensures show <==> r == [value]
    ensures !show <==> r == []
  {
    if show then [value] else []
  }

  /** displayClockInfo: the 12/24 mode, the blinking colon, the contrast level and the invert setting, one per line. */
  function ClockInfoScreen(info: ClockInfo): (r: seq<Op>)
  {
    [Print("12/24:")] +
    ValueIf(ShouldShowFor(info, ChangeHourMode), Print(if info.hourMode == WorldClockInfo.Twelve then "12" else "24")) + EndLine +
    [Print("Blink:")] +
    ValueIf(ShouldShowFor(info, ChangeBlinkingColon), Print(if info.blinkingColon then "on " else "off")) + EndLine +
    [Print("Contrast:")] +
    ValueIf(ShouldShowFor(info, ChangeContrast), PrintNum(info.contrastLevel)) + EndLine +
    [Print("Invert:")] +
    ValueIf(ShouldShowFor(info, ChangeInvertDisplay), Print(InvertLabel(info.invertDisplay))) + EndLine
  }

  /** writeDisplayData: home, then the screen of the mode; the edit modes share their screen's layout. */
  function DataOps(lib: TimeLib, info: ClockInfo): (r: seq<Op>)
    ensures |r| > 0 && r[0] == Home
    ensures info.mode == ViewDateTime ==> r == [Home] + DateTimeScreen(lib, info)
    ensures info.mode == ViewAbout ==> r == [Home, SetTextSize(1), Screen("about")]
    ensures info.mode == ViewSettings || IsSettingsEdit(info.mode) ==> r == [Home] + ClockInfoScreen(info)
    ensures IsDateEdit(info.mode) ==> r == [Home] + ChangeableDateTimeScreen(lib, info)
    ensures info.mode == Unknown ==> r == [Home]
  {
    var m := info.mode;
    [Home] +
    if m == ViewDateTime then DateTimeScreen(lib, info)
    else if m == ViewAbout then [SetTextSize(1), Screen("about")]
    else if m == ViewSettings || IsSettingsEdit(m) then ClockInfoScreen(info)
    else if IsDateEdit(m) then ChangeableDateTimeScreen(lib, info)
    else []
  }

  /**
   * writeDisplaySettings: the contrast value of the level and the inversion
   * are pushed on the first frame (the previous mode is MODE_UNKNOWN) and
   * whenever they change, and not otherwise.
   */
  function SettingsOps(prev: ClockInfo, curr: ClockInfo): (r: seq<Op>)
    ensures SetContrast(ContrastValue(OledContrastValues, U8(curr.contrastLevel))) in r <==>
            prev.mode == Unknown || prev.contrastLevel != curr.contrastLevel
    ensures SetInvert(curr.invertState != 0) in r <==>
            prev.mode == Unknown || prev.invertState != curr.invertState
    ensures (prev.mode != Unknown && prev.contrastLevel == curr.contrastLevel &&
             prev.invertState == curr.invertState) ==> r == []
  {
    (if prev.mode == Unknown || prev.contrastLevel != curr.contrastLevel
     then [SetContrast(ContrastValue(OledContrastValues, U8(curr.contrastLevel)))] else []) +
    (if prev.mode == Unknown || prev.invertState != curr.invertState
     then [SetInvert(curr.invertState != 0)] else [])
  }

  /**
   * display: MODE_UNKNOWN only clears the screen; otherwise a mode change
   * clears it, and a changed ClockInfo is drawn and its settings pushed.
   */
  function FrameOps(lib: TimeLib, curr: ClockInfo, prev: ClockInfo): (r: seq<Op>)
    ensures curr.mode == Unknown ==> r == [Clear]
    ensures curr.mode != Unknown ==> (r == [] <==> curr == prev)
    ensures curr.mode != Unknown && curr.mode != prev.mode ==> |r| > 1 && r[0] == Clear && r[1] == Home
    ensures curr.mode != Unknown && curr.mode == prev.mode && curr != prev ==> |r| > 0 && r[0] == Home
  {
    if curr.mode == Unknown then [Clear]
    else
      (if curr.mode != prev.mode then [Clear] else []) +
      (if curr != prev then DataOps(lib, curr) + SettingsOps(prev, curr) else [])
  }

  /** The ClockInfo display() leaves as the last one drawn: unchanged for MODE_UNKNOWN. */
  function NextPrev(curr: ClockInfo, prev: ClockInfo): (r: ClockInfo)
    ensures curr.mode == Unknown ==> r == prev
    ensures curr.mode != Unknown ==> r == curr
  {
    if curr.mode == Unknown then prev else curr
  }

  /** A second display() of the same ClockInfo draws nothing, outside MODE_UNKNOWN. */
  lemma DisplayIdempotent(lib: TimeLib, curr: ClockInfo, prev: ClockInfo)
    requires curr.mode != Unknown
    ensures FrameOps(lib, curr, NextPrev(curr, prev)) == []
  {
  }

  /**
   * The large time's colon: always drawn with the blinking colon off; with
   * it on, drawn exactly in the blink's show phase.
   */
  lemma ColonBlinksOnlyWhenEnabled(info: ClockInfo)
    requires info.mode == ViewDateTime
    ensures !info.blinkingColon ==> Colon(info) == ":"
    ensures info.blinkingColon ==> (Colon(info) == ":" <==> info.blinkShowState || info.suppressBlink)
  {
  }

  /** The year is drawn in the date edit, except in the year edit's blink-off phase. */
  lemma YearShownIff(lib: TimeLib, info: ClockInfo)
    requires IsDateEdit(info.mode)
    ensures var r := DataOps(lib, info);
      r[3] == PrintNum(info.dateTime.year) <==>
        info.mode != ChangeYear || info.blinkShowState || info.suppressBlink
  {
    var r := DataOps(lib, info);
    assert r[1..] == ChangeableDateTimeScreen(lib, info);
  }

  /** The 12/24 mode is drawn on the settings screen except in its edit's blink-off phase. */
  lemma SettingShownIff(info: ClockInfo)
    requires info.mode == ViewSettings || IsSettingsEdit(info.mode)
    ensures var r := ClockInfoScreen(info);
      (r[1] == Print(if info.hourMode == WorldClockInfo.Twelve then "12" else "24") <==> ShouldShowFor(info, ChangeHourMode)) &&
      (r[1] == ClearToEol <==> !ShouldShowFor(info, ChangeHourMode))
  {
  }

  /** The invert setting's line shows the label of the setting, not of the current inversion. */
  lemma InvertLineShowsSetting(info: ClockInfo)
    requires info.mode == ChangeInvertDisplay && (info.blinkShowState || info.suppressBlink)
    ensures Print(InvertLabel(info.invertDisplay)) in ClockInfoScreen(info)
  {
    var r := ClockInfoScreen(info);
    var tail := ValueIf(true, Print(InvertLabel(info.invertDisplay))) + EndLine;
    assert r[|r| - 3..] == tail;
    assert r[|r| - 3] == Print(InvertLabel(info.invertDisplay));
  }

  /**
   * While the change button is held in an edit mode, the field being edited
   * is drawn on the first screen, whatever the blink phase.
   */
  lemma EditedFieldShownWhileHeld(lib: TimeLib, nowSeconds: int, s: WorldClockController.Ctl)
    requires WorldClockController.Inv(s) && IsEdit(s.clock0.mode)
    ensures var p := WorldClockController.ChangePressStep(lib, nowSeconds, s).presented0;
      ShouldShowFor(p, p.mode)
  {
    WorldClockController.HeldButtonSuppressesBlink(lib, nowSeconds, s);
  }

  class Presenter {
    const lib: TimeLib
    var clockInfo: ClockInfo
    var prevClockInfo: ClockInfo
    /** Calls on the OLED, in order. */
    var ops: seq<Op>

    /** Both snapshots start in MODE_UNKNOWN, so the first frame pushes the contrast and the inversion. */
    constructor (lib: TimeLib)
      ensures this.lib == lib
      ensures clockInfo == InitialClockInfo(ZeroTimeZone, "") && prevClockInfo == clockInfo && ops == []
    {
      this.lib := lib;
      clockInfo := InitialClockInfo(ZeroTimeZone, "");
      prevClockInfo := clockInfo;
      ops := [];
    }

    method Display()
      modifies this`prevClockInfo, this`ops
      ensures prevClockInfo == NextPrev(clockInfo, old(prevClockInfo))
      ensures ops == old(ops) + FrameOps(lib, clockInfo, old(prevClockInfo))
    {
      if clockInfo.mode == Unknown {
        ops := ops + [Clear];
        return;
      }
      var drawn: seq<Op> := [];
      if clockInfo.mode != prevClockInfo.mode {
        drawn := [Clear];
      }
      if clockInfo != prevClockInfo {
        drawn := drawn + (DataOps(lib, clockInfo) + SettingsOps(prevClockInfo, clockInfo));
        prevClockInfo := clockInfo;
      }
      ops := ops + drawn;
    }

    method SetClockInfo(info: ClockInfo)
      modifies this`clockInfo
      ensures clockInfo == info
    {
      clockInfo := info;
    }
  }
}
