/**
 * The Presenter of MultiZoneClock (MultiZoneClock/Presenter.h): the large
 * time of zone 0 with its abbreviation, one line per other zone with a
 * marker when its date differs, the date, and the zone, settings, clock and
 * about screens. The screen is cleared only when the mode changes and drawn
 * only when the rendering info changed. The calls on the display are kept
 * as a trace of Ops; the LCD and OLED builds differ in the calls behind
 * home(), setFont(), clearToEOL(), renderDisplay() and the settings.
 */
module MultiZoneClockPresenter {
  import opened Widths
  import opened AceTime
  import opened Display
  import TextScreens
  import opened MultiZoneClockInfo
  import MultiZoneClockController
  import opened ScreenDrivers

  /** shouldShowFor: a field is hidden only in its own mode while the blink phase is off. */
  function ShouldShowFor(info: RenderingInfo, m: Mode): (r: bool)
    ensures !r <==> m == info.mode && !info.blinkShowState
  {
    m != info.mode || info.blinkShowState
  }

  /**
   * The controller folds mSuppressBlink into the flag it hands over, so a
   * field is shown whenever its button is held, whatever the blink phase.
   */
  lemma ControllerFoldsSuppress(lcd: bool, s: MultiZoneClockController.Ctl, m: Mode)
    ensures ShouldShowFor(MultiZoneClockController.RenderingOf(lcd, s), m) <==>
      m != MultiZoneClockController.CurMode(lcd, s) || s.suppressBlink || s.blink.showState
  {
  }

  /** clearToEOL(): nothing on the LCD, which is cleared before each frame; the OLED clears and ends the line. */
  function EolOps(lcd: bool): seq<Op>
  {
    if lcd then [] else [ClearToEol, Newline]
  }

  /**
   * updateDisplaySettings: each setting of the build is pushed on the first
   * frame (the previous mode is Unknown) and whenever it changed: on the LCD
   * the backlight PWM value, the contrast and the bias; on the OLED the
   * contrast value of the level and the inversion.
   */
  function SettingsOps(lcd: bool, prev: RenderingInfo, curr: RenderingInfo): (r: seq<Op>)
    ensures lcd ==>
      (SetBacklight(TextScreens.BacklightValue(TextScreens.LcdBacklightValues, U8(curr.clockInfo.backlightLevel))) in r <==>
         prev.mode == Unknown || prev.clockInfo.backlightLevel != curr.clockInfo.backlightLevel) &&
      (SetContrast(curr.clockInfo.contrast) in r <==>
         prev.mode == Unknown || prev.clockInfo.contrast != curr.clockInfo.contrast) &&
      (SetBias(curr.clockInfo.bias) in r <==> prev.mode == Unknown || prev.clockInfo.bias != curr.clockInfo.bias)
    ensures !lcd ==>
      (SetContrast(TextScreens.ContrastValue(TextScreens.OledContrastValues, U8(curr.clockInfo.contrastLevel))) in r <==>
         prev.mode == Unknown || prev.clockInfo.contrastLevel != curr.clockInfo.contrastLevel) &&
      (SetInvert(curr.clockInfo.invertDisplay != 0) in r <==>
         prev.mode == Unknown || prev.clockInfo.invertDisplay != curr.clockInfo.invertDisplay)
    ensures prev.mode != Unknown && prev.clockInfo == curr.clockInfo ==> r == []
  {
    var p := prev.clockInfo;
    var c := curr.clockInfo;
    var first := prev.mode == Unknown;
    if lcd then
      (if first || p.backlightLevel != c.backlightLevel
       then [SetBacklight(TextScreens.BacklightValue(TextScreens.LcdBacklightValues, U8(c.backlightLevel)))] else []) +
      (if first || p.contrast != c.contrast then [SetContrast(c.contrast)] else []) +
      (if first || p.bias != c.bias then [SetBias(c.bias)] else [])
    else
      (if first || p.contrastLevel != c.contrastLevel
       then [SetContrast(TextScreens.ContrastValue(TextScreens.OledContrastValues, U8(c.contrastLevel)))] else []) +
      (if first || p.invertDisplay != c.invertDisplay then [SetInvert(c.invertDisplay != 0)] else [])
  }

  /** The hour of a time line, hidden while the hour edit blinks off. */
  function HourOps(info: RenderingInfo, hour: int): seq<Op>
  {
    TextScreens.HourOps(ShouldShowFor(info, ChangeHour), info.clockInfo.hourMode, hour)
  }

  /** displayLargeTime: hh:mm in double size, AM/PM in 12-hour mode, and the abbreviation under it. */
  function LargeTimeOps(lcd: bool, lib: TimeLib, info: RenderingInfo, dt: ZonedDateTime): seq<Op>
  {
    SizeOps(lcd, 2) + HourOps(info, dt.hour) + [Print(":")] +
    TextScreens.Pad2OrBlank(ShouldShowFor(info, ChangeMinute), dt.minute, '0') +
    (if info.clockInfo.hourMode == Twelve
     then SizeOps(lcd, 1) + [Print(if dt.hour < 12 then "AM" else "PM"), ClearToEol] else []) +
    SizeOps(lcd, 1) + CursorUnderAmPm(lcd) + TextScreens.AbbrevOps(lib, dt) + EolOps(lcd)
  }

  /** displayTimeWithAbbrev: hh:mm, A or P in 12-hour mode, a space and the abbreviation. */
  function TimeWithAbbrevOps(lcd: bool, lib: TimeLib, info: RenderingInfo, dt: ZonedDateTime): seq<Op>
  {
    HourOps(info, dt.hour) + [Print(":")] +
    TextScreens.Pad2OrBlank(ShouldShowFor(info, ChangeMinute), dt.minute, '0') +
    (if info.clockInfo.hourMode == Twelve then [Print(if dt.hour < 12 then "A" else "P")] else []) +
    [Print(" ")] + TextScreens.AbbrevOps(lib, dt) + EolOps(lcd)
  }

  /** One line for zone k: its date-change marker against zone 0, then its time. */
  function AltZoneOps(lcd: bool, lib: TimeLib, info: RenderingInfo, dt: ZonedDateTime, k: int): seq<Op>
    requires 0 <= k < |info.clockInfo.zones|
  {
    var alt := lib.convertToTimeZone(dt, info.clockInfo.zones[k]);
    [Print([TextScreens.DateIndicator(dt, alt)])] + TimeWithAbbrevOps(lcd, lib, info, alt)
  }

  /** displayHumanDate: the weekday, the day, the month's short name and the year, each blanked while hidden. */
  function HumanDateOps(lcd: bool, lib: TimeLib, info: RenderingInfo, dt: ZonedDateTime): seq<Op>
  {
    [Print(lib.weekdayShortName(lib.dayOfWeek(dt.year, dt.month, dt.day))), Print(" ")] +
    TextScreens.Pad2OrBlank(ShouldShowFor(info, ChangeDay), dt.day, '0') +
    [if ShouldShowFor(info, ChangeMonth) then Print(lib.monthShortName(dt.month)) else Print("   ")] +
    [if ShouldShowFor(info, ChangeYear) then PrintNum(dt.year) else Print("    ")] +
    EolOps(lcd)
  }

  /** displayDateTimeMode: "<Error>" for an unset clock; otherwise zone 0 large, the three others, and the date. */
  function DateTimeScreen(lcd: bool, lib: TimeLib, info: RenderingInfo): seq<Op>
    requires |info.clockInfo.zones| == NumZones
  {
    var dt := info.clockInfo.dateTime;
    if dt.isError then [Print("<Error>"), Newline]
    else
      LargeTimeOps(lcd, lib, info, dt) +
      AltZoneOps(lcd, lib, info, dt, 1) + AltZoneOps(lcd, lib, info, dt, 2) + AltZoneOps(lcd, lib, info, dt, 3) +
      HumanDateOps(lcd, lib, info, dt)
  }

  /** displayAutoTimeZone: "k:" and the zone's short name (hidden while its edit blinks off), or "<unknown>". */
  function AutoZoneOps(lcd: bool, build: ZoneBuild, lib: TimeLib, info: RenderingInfo, k: int): (r: seq<Op>)
    requires 0 <= k < |info.clockInfo.zones|
    ensures |r| >= 2 && r[..2] == [PrintNum(k), Print(":")]
  {
    var tz := info.clockInfo.zones[k];
    [PrintNum(k), Print(":")] +
    if NamesKind(build, lib.zoneKind(tz)) then
      (if ShouldShowFor(info, ChangeTimeZoneName(k)) then [Print(lib.zoneShortName(tz))] else []) + EolOps(lcd)
    else
      [Print("<unknown>")] + EolOps(lcd)
  }

  /** displayTimeZoneMode: the zone type, then the four zones. */
  function TimeZoneScreen(lcd: bool, build: ZoneBuild, lib: TimeLib, info: RenderingInfo): seq<Op>
    requires |info.clockInfo.zones| == NumZones
  {
    [Print("TZ:"), Print(BuildLabel(build))] + EolOps(lcd) +
    AutoZoneOps(lcd, build, lib, info, 0) + AutoZoneOps(lcd, build, lib, info, 1) +
    AutoZoneOps(lcd, build, lib, info, 2) + AutoZoneOps(lcd, build, lib, info, 3)
  }

  /** displaySettingsMode: backlight, contrast and bias on the LCD; contrast level and invert on the OLED. */
  function SettingsScreen(lcd: bool, info: RenderingInfo): seq<Op>
  {
    var c := info.clockInfo;
    if lcd then
      SettingLine("Backlight:", ShouldShowFor(info, ChangeSettingsBacklight), c.backlightLevel) +
      SettingLine("Contrast:", ShouldShowFor(info, ChangeSettingsContrast), c.contrast) +
      SettingLine("Bias:", ShouldShowFor(info, ChangeSettingsBias), c.bias)
    else
      SettingLine("Contrast:", ShouldShowFor(info, ChangeSettingsContrast), c.contrastLevel) +
      SettingLine("Invert:", ShouldShowFor(info, ChangeInvertDisplay), c.invertDisplay)
  }

  /** displaySystemClockMode: the sync status, the last sync (as a negative period), the next one, and the skew. */
  function SysclockScreen(lcd: bool, info: RenderingInfo): seq<Op>
  {
    var c := info.clockInfo;
    [Print("SClkLoop:"), PrintNum(c.syncStatusCode)] + EolOps(lcd) +
    [Print("<:"), PrintPeriod(-c.prevSync)] + EolOps(lcd) +
    [Print(">:"), PrintPeriod(c.nextSync)] + EolOps(lcd) +
    [Print("S:"), PrintPeriod(c.clockSkew)] + EolOps(lcd)
  }

  /** The mode dispatch of displayData: each edit shares its view's screen; other modes draw nothing. */
  function Body(lcd: bool, build: ZoneBuild, lib: TimeLib, info: RenderingInfo): (r: seq<Op>)
    requires |info.clockInfo.zones| == NumZones
    ensures info.mode == ViewDateTime || IsDateEdit(info.mode) ==> r == DateTimeScreen(lcd, lib, info)
    ensures info.mode == ViewTimeZone || info.mode.ChangeTimeZoneName? ==> r == TimeZoneScreen(lcd, build, lib, info)
    ensures info.mode == ViewSettings || IsSettingsEdit(lcd, info.mode) ==> r == SettingsScreen(lcd, info)
    ensures info.mode == ViewSysclock ==> r == SysclockScreen(lcd, info)
    ensures info.mode == ViewAbout ==> r == [Screen("about")]
    ensures info.mode in {Unknown, ViewDateTime, ViewTimeZone, ViewSettings, ViewSysclock, ViewAbout} ||
            IsEdit(lcd, info.mode) || r == []
  {
    var m := info.mode;
    if m == ViewDateTime || IsDateEdit(m) then DateTimeScreen(lcd, lib, info)
    else if m == ViewTimeZone || m.ChangeTimeZoneName? then TimeZoneScreen(lcd, build, lib, info)
    else if m == ViewSettings || IsSettingsEdit(lcd, m) then SettingsScreen(lcd, info)
    else if m == ViewSysclock then SysclockScreen(lcd, info)
    else if m == ViewAbout then [Screen("about")]
    else []
  }

  /** displayData: home, a clear on a display that does not overwrite, the font, the screen, the render. */
  function DataOps(lcd: bool, build: ZoneBuild, lib: TimeLib, isOverwriting: bool, info: RenderingInfo): seq<Op>
    requires |info.clockInfo.zones| == NumZones
  {
    HomeOps(lcd) + (if isOverwriting then [] else [Clear]) + FontOps(lcd) + Body(lcd, build, lib, info) + RenderOps(lcd)
  }

  /**
   * updateDisplay: a clear iff the mode changed, then the settings and the
   * screen iff anything changed; an unchanged rendering info draws nothing.
   */
  function UpdateOps(lcd: bool, build: ZoneBuild, lib: TimeLib, isOverwriting: bool,
                     prev: RenderingInfo, curr: RenderingInfo): (r: seq<Op>)
    requires |curr.clockInfo.zones| == NumZones
    ensures curr == prev <==> r == []
    ensures (r[0] == Clear) <== curr.mode != prev.mode
    ensures curr.mode == prev.mode && curr != prev ==>
      r == SettingsOps(lcd, prev, curr) + DataOps(lcd, build, lib, isOverwriting, curr)
  {
    var head := HomeOps(lcd);
    assert curr != prev ==> DataOps(lcd, build, lib, isOverwriting, curr)[0] == head[0];
    (if curr.mode != prev.mode then [Clear] else []) +
    (if curr != prev then SettingsOps(lcd, prev, curr) + DataOps(lcd, build, lib, isOverwriting, curr) else [])
  }

  /** No line above the date prints a number: the hours and minutes are padded fields. */
  lemma TimeLinesPrintNoNumber(lcd: bool, lib: TimeLib, info: RenderingInfo, dt: ZonedDateTime)
    requires |info.clockInfo.zones| == NumZones
    ensures forall op :: op in LargeTimeOps(lcd, lib, info, dt) ==> !op.PrintNum?
    ensures forall k :: 1 <= k < NumZones ==>
      forall op :: op in AltZoneOps(lcd, lib, info, dt, k) ==> !op.PrintNum?
  {
    forall k | 1 <= k < NumZones
      ensures forall op :: op in AltZoneOps(lcd, lib, info, dt, k) ==> !op.PrintNum?
    {
      var alt := lib.convertToTimeZone(dt, info.clockInfo.zones[k]);
      assert forall op :: op in TimeWithAbbrevOps(lcd, lib, info, alt) ==> !op.PrintNum?;
    }
  }

  /** The date line prints a number, the year, exactly when the year is not blinking off. */
  lemma DateLineYear(lcd: bool, lib: TimeLib, info: RenderingInfo, dt: ZonedDateTime)
    ensures PrintNum(dt.year) in HumanDateOps(lcd, lib, info, dt) <==> ShouldShowFor(info, ChangeYear)
  {
    var date := HumanDateOps(lcd, lib, info, dt);
    if ShouldShowFor(info, ChangeYear) {
      assert date[|date| - |EolOps(lcd)| - 1] == PrintNum(dt.year);
    } else {
      assert forall op :: op in date ==> !op.PrintNum?;
    }
  }

  /** The year is printed on the date-time screens exactly when it is not blinking off. */
  lemma YearShownIffNotBlinkedOff(lcd: bool, lib: TimeLib, info: RenderingInfo)
    requires |info.clockInfo.zones| == NumZones && !info.clockInfo.dateTime.isError
    ensures PrintNum(info.clockInfo.dateTime.year) in DateTimeScreen(lcd, lib, info) <==>
            ShouldShowFor(info, ChangeYear)
  {
    var dt := info.clockInfo.dateTime;
    var a := LargeTimeOps(lcd, lib, info, dt);
    var b1 := AltZoneOps(lcd, lib, info, dt, 1);
    var b2 := AltZoneOps(lcd, lib, info, dt, 2);
    var b3 := AltZoneOps(lcd, lib, info, dt, 3);
    var date := HumanDateOps(lcd, lib, info, dt);
    assert DateTimeScreen(lcd, lib, info) == a + b1 + b2 + b3 + date;
    TimeLinesPrintNoNumber(lcd, lib, info, dt);
    DateLineYear(lcd, lib, info, dt);
  }

  /** In a named zone whose name is neither of the fixed strings, the name is drawn exactly when it is not blinking off. */
  lemma ZoneNameShownIff(lcd: bool, build: ZoneBuild, lib: TimeLib, info: RenderingInfo, k: int)
    requires 0 <= k < |info.clockInfo.zones|
    requires lib.zoneShortName(info.clockInfo.zones[k]) !in {":", "<unknown>"}
    ensures var tz := info.clockInfo.zones[k];
      Print(lib.zoneShortName(tz)) in AutoZoneOps(lcd, build, lib, info, k) <==>
        NamesKind(build, lib.zoneKind(tz)) && ShouldShowFor(info, ChangeTimeZoneName(k))
  {
    var tz := info.clockInfo.zones[k];
    var r := AutoZoneOps(lcd, build, lib, info, k);
    if NamesKind(build, lib.zoneKind(tz)) && ShouldShowFor(info, ChangeTimeZoneName(k)) {
      assert r[2] == Print(lib.zoneShortName(tz));
    }
  }

  /** In a zone-name edit while blinking off, that zone's line shows its position and nothing of its name. */
  lemma HiddenZoneNameNotDrawn(lcd: bool, build: ZoneBuild, lib: TimeLib, info: RenderingInfo, k: int)
    requires |info.clockInfo.zones| == NumZones && info.mode == ChangeTimeZoneName(k) && 0 <= k < NumZones
    requires !info.blinkShowState && NamesKind(build, lib.zoneKind(info.clockInfo.zones[k]))
    ensures AutoZoneOps(lcd, build, lib, info, k) == [PrintNum(k), Print(":")] + EolOps(lcd)
  {
  }

  class Presenter {
    const lib: TimeLib
    const lcd: bool
    const build: ZoneBuild
    /** True when characters overwrite the old pixels, so no clear is needed before drawing. */
    const isOverwriting: bool
    var renderingInfo: RenderingInfo
    var prevRenderingInfo: RenderingInfo
    /** Calls on the display, in order. */
    var ops: seq<Op>

    ghost predicate Valid()
      reads this
    {
      |renderingInfo.clockInfo.zones| == NumZones
    }

    constructor (lib: TimeLib, lcd: bool, build: ZoneBuild, isOverwriting: bool)
      ensures Valid()
      ensures (this.lib, this.lcd, this.build, this.isOverwriting) == (lib, lcd, build, isOverwriting)
      ensures renderingInfo == ZeroRenderingInfo && prevRenderingInfo == ZeroRenderingInfo && ops == []
    {
      this.lib := lib;
      this.lcd := lcd;
      this.build := build;
      this.isOverwriting := isOverwriting;
      renderingInfo := ZeroRenderingInfo;
      prevRenderingInfo := ZeroRenderingInfo;
      ops := [];
    }

    /** updateDisplay: draws what changed and remembers what it drew. */
    method Display()
      requires Valid()
      modifies this`prevRenderingInfo, this`ops
      ensures Valid() && prevRenderingInfo == renderingInfo
      ensures ops == old(ops) + UpdateOps(lcd, build, lib, isOverwriting, old(prevRenderingInfo), renderingInfo)
    {
      var clear: seq<Op> := [];
      if renderingInfo.mode != prevRenderingInfo.mode {
        clear := [Clear];
      }
      var body: seq<Op> := [];
      if renderingInfo != prevRenderingInfo {
        body := SettingsOps(lcd, prevRenderingInfo, renderingInfo) + DataOps(lcd, build, lib, isOverwriting, renderingInfo);
      }
      assert clear + body == UpdateOps(lcd, build, lib, isOverwriting, prevRenderingInfo, renderingInfo);
      ops := ops + (clear + body);
      prevRenderingInfo := renderingInfo;
    }

    /** The controller's hand-over: the mode, the folded blink flag and a snapshot. */
    method SetRenderingInfo(mode: Mode, blinkShowState: bool, clockInfo: ClockInfo)
      requires |clockInfo.zones| == NumZones
      modifies this`renderingInfo
      ensures Valid()
      ensures renderingInfo == RenderingInfo(mode, blinkShowState, clockInfo)
    {
      renderingInfo := RenderingInfo(mode, blinkShowState, clockInfo);
    }
  }
}
