/**
 * MedMinder's Presenter (MedMinder/Presenter.h): draws the ClockInfo it was
 * last handed on the OLED screen, redrawing only when it changed since the
 * previous frame, and switches the display off and on around sleep. The
 * driver calls are appended to a trace.
 */
module MedMinderPresenter {
  import opened Widths
  import opened AceTime
  import opened Display
  import opened TextScreens
  import opened TimePeriods
  import opened MedMinderInfo
  import MedMinderController

  /** shouldShowFor: a field is hidden only in its own mode, while blinking off and not suppressed. */
  function ShouldShowFor(info: ClockInfo, m: Mode): (r: bool)
    ensures !r <==> m == info.mode && !info.blinkShowState && !info.suppressBlink
  {
    m != info.mode || info.blinkShowState || info.suppressBlink
  }

  /** clearToEOL: clear the rest of the line, then move to the next one. */
  const EndLine := [ClearToEol, Newline]

  /** displayMed: "Med due", then the time left, or "<Overdue>" when there is none to show. */
  function MedScreen(info: ClockInfo): (r: seq<Op>)
    ensures |r| == 5 && r[0] == Print("Med due")
    ensures r[2] == Print("<Overdue>") <==> info.medInterval.PeriodError?
    ensures info.medInterval.Period? ==> r[2] == PrintPeriod(ToSeconds(info.medInterval))
  {
    [Print("Med due"), Newline] +
    (if info.medInterval.PeriodError? then [Print("<Overdue>")] else [PrintPeriod(ToSeconds(info.medInterval))]) +
    EndLine
  }

  /** displayChangeMed: "Med intrvl", then hh:mm of the interval, the edited field blinking. */
  function ChangeMedScreen(info: ClockInfo): (r: seq<Op>)
    ensures |r| == 7 && r[0] == Print("Med intrvl")
    ensures r[2] == (if ShouldShowFor(info, ChangeMedHour) then PrintPad2(PeriodHour(info.medInterval), '0') else Print("  "))
    ensures r[4] == (if ShouldShowFor(info, ChangeMedMinute) then PrintPad2(PeriodMinute(info.medInterval), '0') else Print("  "))
  {
    [Print("Med intrvl"), Newline] +
    Pad2OrBlank(ShouldShowFor(info, ChangeMedHour), PeriodHour(info.medInterval), '0') + [Print(":")] +
    Pad2OrBlank(ShouldShowFor(info, ChangeMedMinute), PeriodMinute(info.medInterval), '0') + EndLine
  }

  /** displayDate: "<INVALID>" alone for an unset clock (the line is not ended); otherwise yyyy-mm-dd. */
  function DateLine(info: ClockInfo): (r: seq<Op>)
    ensures info.dateTime.isError ==> r == [Print("<INVALID>")]
    ensures !info.dateTime.isError ==> |r| == 7 && r[0] == (if ShouldShowFor(info, ChangeYear) then PrintNum(info.dateTime.year) else Print("    "))
  {
    var dt := info.dateTime;
    if dt.isError then [Print("<INVALID>")]
    else DateText(dt, ShouldShowFor(info, ChangeYear), ShouldShowFor(info, ChangeMonth),
                  ShouldShowFor(info, ChangeDay)) + EndLine
  }

  /** displayTime: hh:mm:ss, zero-padded on a 24-hour dial, then the weekday's long name. */
  function TimeLines(lib: TimeLib, info: ClockInfo): (r: seq<Op>)
    ensures |r| == 10
    ensures r[0] == (if ShouldShowFor(info, ChangeHour) then PrintPad2(info.dateTime.hour, '0') else Print("  "))
  {
    var dt := info.dateTime;
    Pad2OrBlank(ShouldShowFor(info, ChangeHour), dt.hour, '0') + [Print(":")] +
    Pad2OrBlank(ShouldShowFor(info, ChangeMinute), dt.minute, '0') + [Print(":")] +
    Pad2OrBlank(ShouldShowFor(info, ChangeSecond), dt.second, '0') + EndLine +
    [Print(lib.weekdayLongName(lib.dayOfWeek(dt.year, dt.month, dt.day)))] + EndLine
  }

  /** displayDateTime: the date line, then the time lines, which are drawn even for an unset clock. */
  function DateTimeScreen(lib: TimeLib, info: ClockInfo): seq<Op>
  {
    DateLine(info) + TimeLines(lib, info)
  }

  /**
   * displayTimeZone, built for named zones: "TZ: " and the type label, then
   * the zone's short name (blinking in the zone edit); another zone type
   * shows "<unknown>".
   */
  function ZoneScreen(lib: TimeLib, info: ClockInfo): (r: seq<Op>)
    ensures |r| >= 4 && r[1] == Print(ZoneTypeLabel(lib.zoneKind(info.timeZone)))
  {
    var tz := info.timeZone;
    var kind := lib.zoneKind(tz);
    [Print("TZ: "), Print(ZoneTypeLabel(kind))] + EndLine +
    if kind in {KindBasic, KindExtended} then
      (if ShouldShowFor(info, ChangeTimeZoneName) then [Print(lib.zoneShortName(tz))] else []) + EndLine
    else
      [Print("<unknown>")] + EndLine
  }

  /** displaySettings: "Contrast:" and the level on its own line, blinking in the contrast edit. */
  function SettingsScreen(info: ClockInfo): (r: seq<Op>)
    ensures |r| >= 3 && r[0] == Print("Contrast:")
    ensures ShouldShowFor(info, ChangeSettingsContrast) ==> |r| == 5 && r[1] == PrintNum(info.contrastLevel)
    ensures !ShouldShowFor(info, ChangeSettingsContrast) ==> |r| == 3 && PrintNum(info.contrastLevel) !in r
  {
    [Print("Contrast:")] +
    (if ShouldShowFor(info, ChangeSettingsContrast) then [PrintNum(info.contrastLevel), Newline] else []) +
    EndLine
  }

  /** displayAbout: the small font and the version lines, whose text is not modelled. */
  const AboutScreen := OledFontOps(0) + [Screen("about")]

  /** The screen body of each mode; MODE_UNKNOWN draws nothing. */
  function Body(lib: TimeLib, info: ClockInfo): seq<Op>
  {
    match info.mode
    case ViewMed => MedScreen(info)
    case ViewDateTime => DateTimeScreen(lib, info)
    case ChangeYear => DateTimeScreen(lib, info)
    case ChangeMonth => DateTimeScreen(lib, info)
    case ChangeDay => DateTimeScreen(lib, info)
    case ChangeHour => DateTimeScreen(lib, info)
    case ChangeMinute => DateTimeScreen(lib, info)
    case ChangeSecond => DateTimeScreen(lib, info)
    case ViewAbout => AboutScreen
    case ViewTimeZone => ZoneScreen(lib, info)
    case ChangeTimeZoneName => ZoneScreen(lib, info)
    case ChangeMedHour => ChangeMedScreen(info)
    case ChangeMedMinute => ChangeMedScreen(info)
    case ViewSettings => SettingsScreen(info)
    case ChangeSettingsContrast => SettingsScreen(info)
    case Unknown => []
  }

  /** displayData: home, the bold font, then the screen of the mode. */
  function DataOps(lib: TimeLib, info: ClockInfo): (r: seq<Op>)
    ensures |r| >= 3 && r[0] == Home && r[1..3] == OledFontOps(1)
    ensures r[3..] == Body(lib, info)
  {
    [Home] + OledFontOps(1) + Body(lib, info)
  }

  /** updateDisplaySettings: the contrast is pushed on the first frame and whenever its level changed. */
  function SettingsOps(prev: ClockInfo, curr: ClockInfo): (r: seq<Op>)
    ensures r != [] <==> prev.mode == Unknown || prev.contrastLevel != curr.contrastLevel
    ensures r != [] ==> r == [SetContrast(OledContrastValues[ClampLevel(U8(curr.contrastLevel))])]
  {
    if prev.mode == Unknown || prev.contrastLevel != curr.contrastLevel then
      [SetContrast(ContrastValue(OledContrastValues, U8(curr.contrastLevel)))]
    else []
  }

  /**
   * updateDisplay: clear when the mode changed; redraw (settings, then data)
   * when anything changed; nothing at all for an unchanged ClockInfo.
   */
  function FrameOps(lib: TimeLib, curr: ClockInfo, prev: ClockInfo): (r: seq<Op>)
    ensures r == [] <==> curr == prev
    ensures curr.mode != prev.mode ==> r[0] == Clear
    ensures curr != prev ==> Home in r
  {
    var data := if curr != prev then SettingsOps(prev, curr) + DataOps(lib, curr) else [];
    assert curr != prev ==> data[|SettingsOps(prev, curr)|] == Home;
    (if curr.mode != prev.mode then [Clear] else []) + data
  }

  /** A frame drawn twice in a row: the second draws nothing. */
  lemma DisplayIdempotent(lib: TimeLib, info: ClockInfo)
    ensures FrameOps(lib, info, info) == []
  {
  }

  /**
   * On the countdown the screen reads "<Overdue>" exactly when the time
   * left is the error period, and the time left otherwise.
   */
  lemma OverdueShownIff(lib: TimeLib, info: ClockInfo)
    requires info.mode == ViewMed
    ensures var r := DataOps(lib, info);
      |r| == 8 && r[3] == Print("Med due") &&
      (r[5] == Print("<Overdue>") <==> info.medInterval.PeriodError?) &&
      (info.medInterval.Period? ==> r[5] == PrintPeriod(ToSeconds(info.medInterval)))
  {
    assert DataOps(lib, info)[3..] == MedScreen(info);
  }

  /**
   * An unset clock shows "<INVALID>" in place of the date, and the time
   * lines still follow it on the same line.
   */
  lemma InvalidDateStopsDateLine(lib: TimeLib, info: ClockInfo)
    requires info.mode in {ViewDateTime, ChangeYear, ChangeMonth, ChangeDay, ChangeHour, ChangeMinute, ChangeSecond}
    requires info.dateTime.isError
    ensures var r := DataOps(lib, info);
      r[3] == Print("<INVALID>") && r[4..] == TimeLines(lib, info)
  {
    assert DataOps(lib, info)[3..] == DateTimeScreen(lib, info);
  }

  /** In the interval edit the edited field is blank exactly while blinking off, and the other field is shown. */
  lemma EditedIntervalFieldBlinks(lib: TimeLib, info: ClockInfo)
    requires info.mode in {ChangeMedHour, ChangeMedMinute}
    ensures var r := DataOps(lib, info);
      var hidden := !info.blinkShowState && !info.suppressBlink;
      (r[5] == Print("  ") <==> info.mode == ChangeMedHour && hidden) &&
      (r[7] == Print("  ") <==> info.mode == ChangeMedMinute && hidden)
  {
    assert DataOps(lib, info)[3..] == ChangeMedScreen(info);
  }

  /** The contrast level is shown on the settings screens unless it is the field blinking off. */
  lemma ContrastShownIff(lib: TimeLib, info: ClockInfo)
    requires info.mode in {ViewSettings, ChangeSettingsContrast}
    ensures var r := DataOps(lib, info);
      PrintNum(info.contrastLevel) in r[3..] <==>
        info.mode == ViewSettings || info.blinkShowState || info.suppressBlink
  {
    assert DataOps(lib, info)[3..] == SettingsScreen(info);
  }

  /**
   * What the controller hands over on the countdown is what the screen
   * shows: "<Overdue>" exactly when the countdown is the error period,
   * that is, when the clock is unset or the time left is beyond the
   * maximum interval either way.
   */
  lemma CountdownScreen(lib: TimeLib, maxHours: int, nowSeconds: int, s: MedMinderController.Ctl)
    requires MedMinderController.Inv(s) && s.clock.mode == ViewMed && !s.isPreparingToSleep
    ensures var r := MedMinderController.UpdateStep(lib, maxHours, nowSeconds, s);
      DataOps(lib, r.presented)[5] == Print("<Overdue>") <==>
        r.clock.dateTime.isError ||
        MedMinderController.RemainingSeconds(lib, r.clock) > maxHours * 3600 ||
        MedMinderController.RemainingSeconds(lib, r.clock) < -maxHours * 3600
  {
    var r := MedMinderController.UpdateStep(lib, maxHours, nowSeconds, s);
    MedMinderController.PresenterSeesEdit(lib, maxHours, nowSeconds, s);
    OverdueShownIff(lib, r.presented);
  }

  class Presenter {
    const lib: TimeLib
    var clockInfo: ClockInfo
    var prevClockInfo: ClockInfo
    /** The OLED driver calls made so far. */
    var ops: seq<Op>

    /** A statically allocated presenter: both ClockInfos zero. */
    constructor (lib: TimeLib)
      ensures this.lib == lib
      ensures clockInfo == ZeroClockInfo && prevClockInfo == ZeroClockInfo && ops == []
    {
      this.lib := lib;
      clockInfo := ZeroClockInfo;
      prevClockInfo := ZeroClockInfo;
      ops := [];
    }

    /** updateDisplay: draw the frame, then remember what was drawn, whatever the mode. */
    method UpdateDisplay()
      modifies this`ops, this`prevClockInfo
      ensures ops == old(ops) + FrameOps(lib, clockInfo, old(prevClockInfo))
      ensures prevClockInfo == clockInfo
    {
      var frame: seq<Op> := [];
      if clockInfo.mode != prevClockInfo.mode {
        frame := [Clear];
      }
      if clockInfo != prevClockInfo {
        frame := frame + (SettingsOps(prevClockInfo, clockInfo) + DataOps(lib, clockInfo));
      }
      ops := ops + frame;
      prevClockInfo := clockInfo;
    }

    method SetClockInfo(info: ClockInfo)
      modifies this`clockInfo
      ensures clockInfo == info
    {
      clockInfo := info;
    }

    /** prepareToSleep: the display is switched off. */
    method PrepareToSleep()
      modifies this`ops
      ensures ops == old(ops) + [DisplayPower(false)]
    {
      ops := ops + [DisplayPower(false)];
    }

    /** wakeup: the display is switched back on. */
    method Wakeup()
      modifies this`ops
      ensures ops == old(ops) + [DisplayPower(true)]
    {
      ops := ops + [DisplayPower(true)];
    }
  }
}
