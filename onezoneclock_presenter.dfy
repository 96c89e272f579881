/**
 * The Presenter of OneZoneClock (OneZoneClock/Presenter.h), built for named
 * zones and an OLED screen: it clears the screen when the mode changes,
 * pushes the contrast and inversion when they change, and redraws the
 * screen of the mode whenever the snapshot differs from the one last drawn.
 * The calls on the OLED are kept as a trace of Ops.
 */
module OneZoneClockPresenter {
  import opened Widths
  import opened AceTime
  import opened Display
  import opened TextScreens
  import opened OneZoneClockInfo

  /** setFont(1): the normal fixed_bold10x15 font; 0 is the small Adafruit5x7 (SmallFont). */
  const NormalFont := 1

  /** shouldShowFor: a field is hidden only in its own mode, while blinking off and not suppressed. */
  function ShouldShowFor(info: ClockInfo, m: Mode): (r: bool)
    ensures !r <==> m == info.mode && !info.blinkShowState && !info.suppressBlink
  {
    m != info.mode || info.blinkShowState || info.suppressBlink
  }

  /** clearToEOL on the OLED: clear the rest of the line, then move to the next one. */
  const EndLine := [ClearToEol, Newline]

  /** displayDateTimeMode: "<Error>" for an unset clock; else the date, time and weekday lines. */
  function DateTimeScreen(lib: TimeLib, info: ClockInfo): seq<Op>
  {
    var dt := info.dateTime;
    if dt.isError then [Print("<Error>"), Newline]
    else
      DateText(dt, ShouldShowFor(info, ChangeYear), ShouldShowFor(info, ChangeMonth),
               ShouldShowFor(info, ChangeDay)) + EndLine +
      TimeText(dt, info.hourMode, ShouldShowFor(info, ChangeHour), ShouldShowFor(info, ChangeMinute),
               ShouldShowFor(info, ChangeSecond)) + EndLine +
      [Print(lib.weekdayLongName(lib.dayOfWeek(dt.year, dt.month, dt.day)))] + EndLine
  }

  /**
   * displayTimeZoneMode, built for named zones: "TZ:" and the type label,
   * then the zone's short name (blinking in the zone-name edit) and a
   * cleared second line; another zone type shows "<unknown>".
   */
  function TimeZoneScreen(lib: TimeLib, info: ClockInfo): seq<Op>
  {
    var tz := info.timeZone;
    var kind := lib.zoneKind(tz);
    [Print("TZ:"), Print(ZoneTypeLabel(kind))] + EndLine +
    if kind in {KindBasic, KindExtended} then
      (if ShouldShowFor(info, ChangeTimeZoneName) then [Print(lib.zoneShortName(tz))] else []) + EndLine + EndLine
    else
      [Print("<unknown>")] + EndLine + EndLine
  }

  /** displaySettingsMode: the contrast level and the invert setting, each blinking in its own edit. */
  function SettingsScreen(info: ClockInfo): seq<Op>
  {
    [Print("Contrast:")] +
    (if ShouldShowFor(info, ChangeSettingsContrast) then [PrintNum(info.contrastLevel), Newline] else EndLine) +
    [Print("Invert:")] +
    (if ShouldShowFor(info, ChangeInvertDisplay) then [Print(InvertLabel(info.invertDisplay))] else []) +
    EndLine
  }

  /**
   * displaySystemClockMode: the sync status code, the time since the last
   * sync attempt as a negative period, the time to the next one, and the skew.
   */
  function SysclockScreen(info: ClockInfo): seq<Op>
  {
    [Print("SClkCortn:"), PrintNum(info.syncStatusCode)] + EndLine +
    [Print("<:"), PrintPeriod(-info.prevSync)] + EndLine +
    [Print(">:"), PrintPeriod(info.nextSync)] + EndLine +
    [Print("S:"), PrintPeriod(info.clockSkew)] + EndLine
  }

  /** The mode dispatch of displayPrimary: each edit mode shares its screen's drawing. */
  function Body(lib: TimeLib, info: ClockInfo): (r: seq<Op>)
    ensures info.mode == ViewDateTime || IsDateEdit(info.mode) ==> r == DateTimeScreen(lib, info)
    ensures info.mode in {ViewTimeZone, ChangeTimeZoneName} ==> r == TimeZoneScreen(lib, info)
    ensures info.mode == ViewSettings || IsSettingsEdit(info.mode) ==> r == SettingsScreen(info)
    ensures info.mode == ViewSysclock ==> r == SysclockScreen(info)
    ensures info.mode == ViewAbout ==> r == [SetFont(SmallFont), Screen("about")]
    ensures info.mode == Unknown ==> r == []
  {
    match info.mode
    case ViewDateTime => DateTimeScreen(lib, info)
    case ViewTimeZone => TimeZoneScreen(lib, info)
    case ChangeTimeZoneName => TimeZoneScreen(lib, info)
    case ViewSettings => SettingsScreen(info)
    case ChangeSettingsContrast => SettingsScreen(info)
    case ChangeInvertDisplay => SettingsScreen(info)
    case ViewSysclock => SysclockScreen(info)
    case ViewAbout => [SetFont(SmallFont), Screen("about")]
    case Unknown => []
    case _ => DateTimeScreen(lib, info)
  }

  /** displayPrimary: home, a clear on a screen that does not overwrite, the normal font, the screen. */
  function PrimaryOps(lib: TimeLib, isOverwriting: bool, info: ClockInfo): seq<Op>
  {
    [Home] + (if isOverwriting then [] else [Clear]) + [SetFont(NormalFont)] + Body(lib, info)
  }

  /**
   * updateDisplaySettings: the contrast value of the level and the inversion
   * are pushed on the first frame (the previous mode is MODE_UNKNOWN) and
   * whenever they change, and not otherwise.
   */
  function SettingsOps(prev: ClockInfo, curr: ClockInfo): (r: seq<Op>)
    ensures SetContrast(ContrastValue(OledContrastValues, U8(curr.contrastLevel))) in r <==>
            prev.mode == Unknown || prev.contrastLevel != curr.contrastLevel
    ensures SetInvert(curr.invertState != 0) in r <==>
            prev.mode == Unknown || prev.invertState != curr.invertState
    ensures (prev.mode != Unknown && prev.contrastLevel == curr.contrastLevel &&
             prev.invertState == curr.invertState) ==> r == []
  {
    (if prev.mode == Unknown || prev.contrastLevel != curr.contrastLevel
     then [SetContrast(ContrastValue(OledContrastValues, U8(curr.contrastLevel)))] else []) +
    (if prev.mode == Unknown || prev.invertState != curr.invertState
     then [SetInvert(curr.invertState != 0)] else [])
  }

  /** updateDisplay: clear iff the mode changed, then push the settings and redraw iff the snapshot changed. */
  function UpdateOps(lib: TimeLib, isOverwriting: bool, curr: ClockInfo, prev: ClockInfo): (r: seq<Op>)
    ensures curr == prev ==> r == []
    ensures (r != [] && r[0] == Clear) <==> curr.mode != prev.mode
    ensures curr != prev ==> Home in r
  {
    (if curr.mode != prev.mode then [Clear] else []) +
    (if curr != prev then SettingsOps(prev, curr) + PrimaryOps(lib, isOverwriting, curr) else [])
  }

  /** A snapshot that differs only in a hidden minute or second draws the same screen. */
  lemma HiddenMinuteSecondNotDrawn(lib: TimeLib, info: ClockInfo, v: int)
    requires info.mode in {ChangeMinute, ChangeSecond} && !ShouldShowFor(info, info.mode)
    ensures var dt := info.dateTime;
      Body(lib, info.(dateTime := if info.mode == ChangeMinute then dt.(minute := v) else dt.(second := v))) ==
      Body(lib, info)
  {
  }

  /**
   * A hidden hour is not drawn, except through the AM/PM suffix of the
   * 12-hour mode, which still tells the half of the day.
   */
  lemma HiddenHourNotDrawn(lib: TimeLib, info: ClockInfo, h: int)
    requires info.mode == ChangeHour && !ShouldShowFor(info, ChangeHour)
    requires info.hourMode != Twelve || (h < 12) == (info.dateTime.hour < 12)
    ensures Body(lib, info.(dateTime := info.dateTime.(hour := h))) == Body(lib, info)
  {
    TextScreens.HiddenHourNotDrawn(info.dateTime, h, info.hourMode, true, true);
  }

  /** A shown second is drawn: a different second gives a different screen. */
  lemma ShownSecondDrawn(lib: TimeLib, info: ClockInfo, v: int)
    requires (info.mode == ViewDateTime || IsDateEdit(info.mode)) && !info.dateTime.isError
    requires ShouldShowFor(info, ChangeSecond) && v != info.dateTime.second
    ensures Body(lib, info.(dateTime := info.dateTime.(second := v))) != Body(lib, info)
  {
    var info2 := info.(dateTime := info.dateTime.(second := v));
    var a := DateTimeScreen(lib, info2);
    var b := DateTimeScreen(lib, info);
    assert Body(lib, info2) == a && Body(lib, info) == b;
    var ta := TimeText(info2.dateTime, info.hourMode, ShouldShowFor(info, ChangeHour), ShouldShowFor(info, ChangeMinute), true);
    var tb := TimeText(info.dateTime, info.hourMode, ShouldShowFor(info, ChangeHour), ShouldShowFor(info, ChangeMinute), true);
    assert ta[4] == PrintPad2(v, '0') && tb[4] == PrintPad2(info.dateTime.second, '0');
    assert a[11] == ta[4] && b[11] == tb[4];
  }

  /** A hidden contrast level or invert setting is not drawn. */
  lemma HiddenSettingNotDrawn(lib: TimeLib, info: ClockInfo, v: int)
    requires IsSettingsEdit(info.mode) && !ShouldShowFor(info, info.mode)
    ensures Body(lib, if info.mode == ChangeSettingsContrast then info.(contrastLevel := v)
                      else info.(invertDisplay := v)) == Body(lib, info)
  {
  }

  /** A shown invert setting is drawn: two of the five settings never look alike. */
  lemma ShownInvertDrawn(lib: TimeLib, info: ClockInfo, v: int)
    requires IsSettingsEdit(info.mode) && ShouldShowFor(info, ChangeInvertDisplay)
    requires 0 <= v < 5 && 0 <= info.invertDisplay < 5 && v != info.invertDisplay
    ensures Body(lib, info.(invertDisplay := v)) != Body(lib, info)
  {
    var a := Body(lib, info.(invertDisplay := v));
    var b := Body(lib, info);
    assert a[4] != b[4];
  }

  /** A hidden zone name is not drawn: the zone-name edit shows the same screen for every zone of the type. */
  lemma HiddenZoneNameNotDrawn(lib: TimeLib, info: ClockInfo, tz: TimeZone)
    requires info.mode == ChangeTimeZoneName && !ShouldShowFor(info, ChangeTimeZoneName)
    requires lib.zoneKind(tz) == lib.zoneKind(info.timeZone)
    ensures Body(lib, info.(timeZone := tz)) == Body(lib, info)
  {
  }

  /** A second frame with nothing new draws nothing. */
  lemma DisplayIdempotent(lib: TimeLib, isOverwriting: bool, info: ClockInfo)
    ensures UpdateOps(lib, isOverwriting, info, info) == []
  {
  }

  class Presenter {
    const lib: TimeLib
    /** True for the OLED, whose characters overwrite the old pixels. */
    const isOverwriting: bool
    var clockInfo: ClockInfo
    var prevClockInfo: ClockInfo
    /** Calls on the display, in order. */
    var ops: seq<Op>

    constructor (lib: TimeLib, isOverwriting: bool)
      ensures this.lib == lib && this.isOverwriting == isOverwriting
      ensures clockInfo == ZeroClockInfo && prevClockInfo == ZeroClockInfo && ops == []
    {
      this.lib := lib;
      this.isOverwriting := isOverwriting;
      clockInfo := ZeroClockInfo;
      prevClockInfo := ZeroClockInfo;
      ops := [];
    }

    method UpdateDisplay()
      modifies this`prevClockInfo, this`ops
      ensures prevClockInfo == clockInfo
      ensures ops == old(ops) + UpdateOps(lib, isOverwriting, clockInfo, old(prevClockInfo))
    {
      var drawn: seq<Op> := [];
      if clockInfo.mode != prevClockInfo.mode {
        drawn := [Clear];
      }
      if clockInfo != prevClockInfo {
        drawn := drawn + (SettingsOps(prevClockInfo, clockInfo) + PrimaryOps(lib, isOverwriting, clockInfo));
      }
      ops := ops + drawn;
      prevClockInfo := clockInfo;
    }

    method SetClockInfo(info: ClockInfo)
      modifies this`clockInfo
      ensures clockInfo == info
    {
      clockInfo := info;
    }
  }
}
