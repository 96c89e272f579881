/**
 * The Presenter of WorldClockLcd (WorldClockLcd/Presenter.h): the large
 * time of zone 0 with its abbreviation, a line for each of the other three
 * zones with a marker when its date differs, the date, and the zone,
 * settings and about screens. The screen is cleared only when the mode
 * changes and drawn only when something it shows changed; a blink flip
 * while blinking is suppressed draws nothing. The calls on the display are
 * kept as a trace of Ops.
 */
module WorldClockLcdPresenter {
  import opened AceTime
  import opened Display
  import TextScreens
  import opened ScreenDrivers
  import opened WorldClockLcdInfo
  import ModeGroups
  import WorldClockLcdController

  /**
   * What the presenter keeps of a hand-over (RenderingInfo.h): the mode, the
   * two blink flags, the 12/24 mode, the zones, the time, and the settings
   * of the build (the fields of the other build are not read).
   */
  datatype RenderingInfo = RenderingInfo(
    mode: int, suppressBlink: bool, blinkShowState: bool,
    hourMode: int, zones: seq<TimeZone>, dateTime: ZonedDateTime,
    backlightLevel: int, contrast: int, bias: int, contrastLevel: int)

  /** The zero-initialised rendering info (the presenter is a global). */
  const ZeroRenderingInfo := RenderingInfo(ModeUnknown, false, false, 0, ZeroClockInfo.zones, ZeroDateTime, 0, 0, 0, 0)

  /** setRenderingInfo: the settings of the build, then the mode, the flags, the 12/24 mode, the zones and the time. */
  function Received(lcd: bool, info: RenderingInfo, mode: int, suppressBlink: bool, blinkShowState: bool,
                    c: ClockInfo): (r: RenderingInfo)
    ensures (r.mode, r.suppressBlink, r.blinkShowState, r.hourMode, r.zones, r.dateTime) ==
            (mode, suppressBlink, blinkShowState, c.hourMode, c.zones, c.dateTime)
    ensures lcd ==> (r.backlightLevel, r.contrast, r.bias, r.contrastLevel) ==
                    (c.backlightLevel, c.contrast, c.bias, info.contrastLevel)
    ensures !lcd ==> (r.backlightLevel, r.contrast, r.bias, r.contrastLevel) ==
                     (info.backlightLevel, info.contrast, info.bias, c.contrastLevel)
  {
    var t := if lcd then info.(backlightLevel := c.backlightLevel, contrast := c.contrast, bias := c.bias)
             else info.(contrastLevel := c.contrastLevel);
    t.(mode := mode, suppressBlink := suppressBlink, blinkShowState := blinkShowState,
       hourMode := c.hourMode, zones := c.zones, dateTime := c.dateTime)
  }

  /** shouldShowFor: a field is hidden only in its own mode, while blinking is not suppressed and its phase is off. */
  function ShouldShowFor(info: RenderingInfo, m: int): (r: bool)
    ensures !r <==> m == info.mode && !info.suppressBlink && !info.blinkShowState
  {
    m != info.mode || info.suppressBlink || info.blinkShowState
  }

  /** needsClear: the mode changed. */
  predicate NeedsClear(prev: RenderingInfo, curr: RenderingInfo)
  {
    curr.mode != prev.mode
  }

  /** needsUpdate: anything the screen shows changed; a blink flip counts only while blinking is not suppressed. */
  predicate NeedsUpdate(lcd: bool, prev: RenderingInfo, curr: RenderingInfo)
    requires |prev.zones| == NumZones && |curr.zones| == NumZones
  {
    curr.mode != prev.mode ||
    curr.suppressBlink != prev.suppressBlink ||
    (!curr.suppressBlink && curr.blinkShowState != prev.blinkShowState) ||
    (if lcd then curr.backlightLevel != prev.backlightLevel || curr.contrast != prev.contrast || curr.bias != prev.bias
     else curr.contrastLevel != prev.contrastLevel) ||
    curr.hourMode != prev.hourMode ||
    curr.zones[0] != prev.zones[0] || curr.zones[1] != prev.zones[1] ||
    curr.zones[2] != prev.zones[2] || curr.zones[3] != prev.zones[3] ||
    curr.dateTime != prev.dateTime
  }

  /**
   * What a frame shows: the rendering info with the blink phase read as
   * "shown" while blinking is suppressed and the other build's settings
   * zeroed.
   */
  function Visible(lcd: bool, info: RenderingInfo): (v: RenderingInfo)
    ensures forall m :: ShouldShowFor(v, m) == ShouldShowFor(info, m)
  {
    info.(blinkShowState := info.suppressBlink || info.blinkShowState,
          backlightLevel := if lcd then info.backlightLevel else 0,
          contrast := if lcd then info.contrast else 0,
          bias := if lcd then info.bias else 0,
          contrastLevel := if lcd then 0 else info.contrastLevel)
  }

  /** needsUpdate is exactly "what the frame shows changed", in both directions. */
  lemma NeedsUpdateIffVisibleChanged(lcd: bool, prev: RenderingInfo, curr: RenderingInfo)
    requires |prev.zones| == NumZones && |curr.zones| == NumZones
    ensures NeedsUpdate(lcd, prev, curr) <==> Visible(lcd, prev) != Visible(lcd, curr)
  {
    if !NeedsUpdate(lcd, prev, curr) {
      assert prev.zones == curr.zones by {
        forall k | 0 <= k < NumZones
          ensures prev.zones[k] == curr.zones[k]
        {
          assert k == 0 || k == 1 || k == 2 || k == 3;
        }
      }
    }
  }

  /** While a button is held, the blink timer's flips redraw nothing. */
  lemma SuppressedBlinkFlipNotDrawn(lcd: bool, prev: RenderingInfo, x: bool)
    requires |prev.zones| == NumZones && prev.suppressBlink
    ensures !NeedsUpdate(lcd, prev, prev.(blinkShowState := x))
  {
  }

  /** clearToEOL(): the OLED clears the rest of the line; the LCD needs nothing, being cleared before each frame. */
  function EolOps(lcd: bool): seq<Op>
  {
    if lcd then [] else [ClearToEol]
  }

  /** displayTimeZoneAbbrev: the abbreviation (or a manual zone's short name), then clearToEOL(). */
  function AbbrevLine(lcd: bool, lib: TimeLib, dt: ZonedDateTime): seq<Op>
  {
    TextScreens.AbbrevOps(lib, dt) + EolOps(lcd)
  }

  function HourOps(info: RenderingInfo, hour: int): seq<Op>
  {
    TextScreens.HourOps(ShouldShowFor(info, ModeChangeHour), info.hourMode, hour)
  }

  /** displayLargeTime: hh:mm in double size, AM/PM in 12-hour mode, and the abbreviation under it. */
  function LargeTimeOps(lcd: bool, lib: TimeLib, info: RenderingInfo, dt: ZonedDateTime): seq<Op>
  {
    SizeOps(lcd, 2) + HourOps(info, dt.hour) + [Print(":")] +
    TextScreens.Pad2OrBlank(ShouldShowFor(info, ModeChangeMinute), dt.minute, '0') +
    (if info.hourMode == Twelve
     then SizeOps(lcd, 1) + [Print(if dt.hour < 12 then "AM" else "PM")] + EolOps(lcd) else []) +
    SizeOps(lcd, 1) + CursorUnderAmPm(lcd) + AbbrevLine(lcd, lib, dt) + EolOps(lcd) + [Newline]
  }

  /** displayTimeWithAbbrev: hh:mm, A or P in 12-hour mode, a space and the abbreviation. */
  function TimeWithAbbrevOps(lcd: bool, lib: TimeLib, info: RenderingInfo, dt: ZonedDateTime): seq<Op>
  {
    HourOps(info, dt.hour) + [Print(":")] +
    TextScreens.Pad2OrBlank(ShouldShowFor(info, ModeChangeMinute), dt.minute, '0') +
    (if info.hourMode == Twelve then [Print(if dt.hour < 12 then "A" else "P")] else []) +
    [Print(" ")] + AbbrevLine(lcd, lib, dt) + [Newline]
  }

  /** The line of zone k: its date-change marker against zone 0, then its time. */
  function AltZoneOps(lcd: bool, lib: TimeLib, info: RenderingInfo, dt: ZonedDateTime, k: int): seq<Op>
    requires 0 <= k < |info.zones|
  {
    var alt := lib.convertToTimeZone(dt, info.zones[k]);
    [Print([TextScreens.DateIndicator(dt, alt)])] + TimeWithAbbrevOps(lcd, lib, info, alt)
  }

  /** displayHumanDate: the weekday, the day, the month's short name and the year, each blanked while hidden. */
  function HumanDateOps(lcd: bool, lib: TimeLib, info: RenderingInfo, dt: ZonedDateTime): seq<Op>
  {
    [Print(lib.weekdayShortName(lib.dayOfWeek(dt.year, dt.month, dt.day))), Print(" ")] +
    TextScreens.Pad2OrBlank(ShouldShowFor(info, ModeChangeDay), dt.day, '0') +
    [if ShouldShowFor(info, ModeChangeMonth) then Print(lib.monthShortName(dt.month)) else Print("   ")] +
    [if ShouldShowFor(info, ModeChangeYear) then PrintNum(dt.year) else Print("    ")] +
    EolOps(lcd) + [Newline]
  }

  /** displayDateTimeMode: "<Error>" for an unset clock; otherwise zone 0 large, the three others, and the date. */
  function DateTimeScreen(lcd: bool, lib: TimeLib, info: RenderingInfo): seq<Op>
    requires |info.zones| == NumZones
  {
    var dt := info.dateTime;
    if dt.isError then [Print("<Error>"), Newline]
    else
      LargeTimeOps(lcd, lib, info, dt) +
      AltZoneOps(lcd, lib, info, dt, 1) + AltZoneOps(lcd, lib, info, dt, 2) + AltZoneOps(lcd, lib, info, dt, 3) +
      HumanDateOps(lcd, lib, info, dt)
  }

  /** displayAutoTimeZone: "k:" and the zone's short name (hidden while its edit blinks off), or "<unknown>". */
  function AutoZoneOps(lcd: bool, build: ZoneBuild, lib: TimeLib, info: RenderingInfo, k: int): (r: seq<Op>)
    requires 0 <= k < |info.zones|
    ensures |r| >= 3 && r[..2] == [PrintNum(k), Print(":")] && r[|r| - 1] == Newline
  {
    var tz := info.zones[k];
    [PrintNum(k), Print(":")] +
    (if NamesKind(build, lib.zoneKind(tz)) then
       (if ShouldShowFor(info, ModeChangeTimeZone0Name + k) then [Print(lib.zoneShortName(tz))] else []) + EolOps(lcd)
     else
       [Print("<unknown>")] + EolOps(lcd)) +
    [Newline]
  }

  /** displayTimeZoneMode: the zone type, then the four zones. */
  function TimeZoneScreen(lcd: bool, build: ZoneBuild, lib: TimeLib, info: RenderingInfo): seq<Op>
    requires |info.zones| == NumZones
  {
    [Print("TZ:"), Print(BuildLabel(build))] + EolOps(lcd) + [Newline] +
    AutoZoneOps(lcd, build, lib, info, 0) + AutoZoneOps(lcd, build, lib, info, 1) +
    AutoZoneOps(lcd, build, lib, info, 2) + AutoZoneOps(lcd, build, lib, info, 3)
  }

  /** displaySettingsMode: backlight, contrast and bias on the LCD; the contrast level on the OLED. */
  function SettingsScreen(lcd: bool, info: RenderingInfo): seq<Op>
  {
    if lcd then
      SettingLine("Backlight:", ShouldShowFor(info, ModeChangeSettingsBacklight), info.backlightLevel) +
      SettingLine("Contrast:", ShouldShowFor(info, ModeChangeSettingsLcdContrast), info.contrast) +
      SettingLine("Bias:", ShouldShowFor(info, ModeChangeSettingsBias), info.bias)
    else
      SettingLine("Contrast:", ShouldShowFor(info, ModeChangeSettingsOledContrast), info.contrastLevel)
  }

  /** The mode dispatch of displayData: each edit shares its view's screen; other modes draw nothing. */
  function Body(lcd: bool, build: ZoneBuild, lib: TimeLib, info: RenderingInfo): (r: seq<Op>)
    requires |info.zones| == NumZones
    ensures info.mode == ModeDateTime || IsDateTimeEdit(info.mode) ==> r == DateTimeScreen(lcd, lib, info)
    ensures info.mode == ModeTimeZone || IsZoneEdit(info.mode) ==> r == TimeZoneScreen(lcd, build, lib, info)
    ensures info.mode == ModeSettings || IsSettingsEdit(lcd, info.mode) ==> r == SettingsScreen(lcd, info)
    ensures info.mode == ModeAbout ==> r == [Screen("about")]
    ensures info.mode !in {ModeDateTime, ModeTimeZone, ModeSettings, ModeAbout} && !IsEdit(lcd, info.mode) ==> r == []
  {
    var m := info.mode;
    if m == ModeDateTime || IsDateTimeEdit(m) then DateTimeScreen(lcd, lib, info)
    else if m == ModeTimeZone || IsZoneEdit(m) then TimeZoneScreen(lcd, build, lib, info)
    else if m == ModeSettings || IsSettingsEdit(lcd, m) then SettingsScreen(lcd, info)
    else if m == ModeAbout then [Screen("about")]
    else []
  }

  /** displayData: home, a clear on a display that does not overwrite, the font, the screen, the render. */
  function DataOps(lcd: bool, build: ZoneBuild, lib: TimeLib, isOverwriting: bool, info: RenderingInfo): seq<Op>
    requires |info.zones| == NumZones
  {
    HomeOps(lcd) + (if isOverwriting then [] else [Clear]) + FontOps(lcd) + Body(lcd, build, lib, info) + RenderOps(lcd)
  }

  /**
   * display: a clear iff the mode changed, then the frame iff needsUpdate;
   * a frame in which nothing shown changed emits no call at all.
   */
  function FrameOps(lcd: bool, build: ZoneBuild, lib: TimeLib, isOverwriting: bool,
                    prev: RenderingInfo, curr: RenderingInfo): (r: seq<Op>)
    requires |prev.zones| == NumZones && |curr.zones| == NumZones
    ensures r == [] <==> Visible(lcd, prev) == Visible(lcd, curr)
    ensures (|r| > 0 && r[0] == Clear) <== NeedsClear(prev, curr)
    ensures !NeedsClear(prev, curr) && NeedsUpdate(lcd, prev, curr) ==> r == DataOps(lcd, build, lib, isOverwriting, curr)
  {
    NeedsUpdateIffVisibleChanged(lcd, prev, curr);
    var head := HomeOps(lcd);
    assert NeedsUpdate(lcd, prev, curr) ==> DataOps(lcd, build, lib, isOverwriting, curr)[0] == head[0];
    (if NeedsClear(prev, curr) then [Clear] else []) +
    (if NeedsUpdate(lcd, prev, curr) then DataOps(lcd, build, lib, isOverwriting, curr) else [])
  }

  /** No line above the date prints a number: the hours and minutes are padded fields. */
  lemma TimeLinesPrintNoNumber(lcd: bool, lib: TimeLib, info: RenderingInfo, dt: ZonedDateTime)
    requires |info.zones| == NumZones
    ensures forall op :: op in LargeTimeOps(lcd, lib, info, dt) ==> !op.PrintNum?
    ensures forall k :: 1 <= k < NumZones ==>
      forall op :: op in AltZoneOps(lcd, lib, info, dt, k) ==> !op.PrintNum?
  {
    forall k | 1 <= k < NumZones
      ensures forall op :: op in AltZoneOps(lcd, lib, info, dt, k) ==> !op.PrintNum?
    {
      var alt := lib.convertToTimeZone(dt, info.zones[k]);
      assert forall op :: op in TimeWithAbbrevOps(lcd, lib, info, alt) ==> !op.PrintNum?;
    }
  }

  /** The date line prints a number, the year, exactly when the year is not blinking off. */
  lemma DateLineYear(lcd: bool, lib: TimeLib, info: RenderingInfo, dt: ZonedDateTime)
    ensures PrintNum(dt.year) in HumanDateOps(lcd, lib, info, dt) <==> ShouldShowFor(info, ModeChangeYear)
  {
    var date := HumanDateOps(lcd, lib, info, dt);
    if ShouldShowFor(info, ModeChangeYear) {
      assert date[|date| - |EolOps(lcd)| - 2] == PrintNum(dt.year);
    } else {
      assert forall op :: op in date ==> !op.PrintNum?;
    }
  }

  /**
   * On the date-time screens the year is printed exactly when it is not
   * blinking off: always outside the year edit and while the button is held,
   * and in the on phase of the blink otherwise.
   */
  lemma YearShownIffNotBlinkedOff(lcd: bool, lib: TimeLib, info: RenderingInfo)
    requires |info.zones| == NumZones && !info.dateTime.isError
    ensures PrintNum(info.dateTime.year) in DateTimeScreen(lcd, lib, info) <==>
            info.mode != ModeChangeYear || info.suppressBlink || info.blinkShowState
  {
    var dt := info.dateTime;
    var a := LargeTimeOps(lcd, lib, info, dt);
    var b1 := AltZoneOps(lcd, lib, info, dt, 1);
    var b2 := AltZoneOps(lcd, lib, info, dt, 2);
    var b3 := AltZoneOps(lcd, lib, info, dt, 3);
    var date := HumanDateOps(lcd, lib, info, dt);
    assert DateTimeScreen(lcd, lib, info) == a + b1 + b2 + b3 + date;
    TimeLinesPrintNoNumber(lcd, lib, info, dt);
    DateLineYear(lcd, lib, info, dt);
  }

  /** In a named zone whose name is neither of the fixed strings, the name is drawn exactly when it is not blinking off. */
  lemma ZoneNameShownIff(lcd: bool, build: ZoneBuild, lib: TimeLib, info: RenderingInfo, k: int)
    requires 0 <= k < |info.zones|
    requires lib.zoneShortName(info.zones[k]) !in {":", "<unknown>"}
    ensures var tz := info.zones[k];
      Print(lib.zoneShortName(tz)) in AutoZoneOps(lcd, build, lib, info, k) <==>
        NamesKind(build, lib.zoneKind(tz)) && ShouldShowFor(info, ModeChangeTimeZone0Name + k)
  {
    var tz := info.zones[k];
    var r := AutoZoneOps(lcd, build, lib, info, k);
    if NamesKind(build, lib.zoneKind(tz)) && ShouldShowFor(info, ModeChangeTimeZone0Name + k) {
      assert r[2] == Print(lib.zoneShortName(tz));
    }
  }

  /** Each settings line shows its value exactly when that setting is not blinking off. */
  lemma SettingShownIff(lcd: bool, info: RenderingInfo)
    ensures var r := SettingsScreen(lcd, info);
      if lcd then
        |r| == 9 &&
        (r[1] == PrintNum(info.backlightLevel) <==> ShouldShowFor(info, ModeChangeSettingsBacklight)) &&
        (r[4] == PrintNum(info.contrast) <==> ShouldShowFor(info, ModeChangeSettingsLcdContrast)) &&
        (r[7] == PrintNum(info.bias) <==> ShouldShowFor(info, ModeChangeSettingsBias))
      else
        |r| == 3 && (r[1] == PrintNum(info.contrastLevel) <==> ShouldShowFor(info, ModeChangeSettingsOledContrast))
  {
    if lcd {
      var a := SettingLine("Backlight:", ShouldShowFor(info, ModeChangeSettingsBacklight), info.backlightLevel);
      var b := SettingLine("Contrast:", ShouldShowFor(info, ModeChangeSettingsLcdContrast), info.contrast);
      var c := SettingLine("Bias:", ShouldShowFor(info, ModeChangeSettingsBias), info.bias);
      assert SettingsScreen(lcd, info) == a + b + c;
    }
  }

  /**
   * The controller and the presenter together: after a change press in an
   * edit mode and the update() that follows it, the field being edited is
   * drawn, whatever the phase of the blink.
   */
  lemma EditedFieldShownAfterPress(root: ModeGroups.ModeGroup, lib: TimeLib, cfg: WorldClockLcdController.Config,
                                   nowSeconds: int, nowMillis: int, s: WorldClockLcdController.Ctl, prev: RenderingInfo)
    requires WorldClockLcdController.Inv(root, s) && WorldClockLcdController.ConfigOk(cfg)
    requires IsEdit(cfg.lcd, s.mode) && !s.isPreparingToSleep
    ensures var h := WorldClockLcdController.UpdateStep(lib, nowSeconds, nowMillis,
                       WorldClockLcdController.ChangeStep(root, lib, cfg, s)).presented;
      ShouldShowFor(Received(cfg.lcd, prev, h.mode, h.suppressBlink, h.blinkShowState, h.clockInfo), s.mode)
  {
    WorldClockLcdController.HeldButtonSuppressesBlink(root, lib, cfg, nowSeconds, nowMillis, s);
  }

  class Presenter {
    const lib: TimeLib
    const lcd: bool
    const build: ZoneBuild
    /** True when characters overwrite the old pixels, so no clear is needed before drawing. */
    const isOverwriting: bool
    var renderingInfo: RenderingInfo
    var prevRenderingInfo: RenderingInfo
    /** Calls on the display and the backlight pin, in order. */
    var ops: seq<Op>

    ghost predicate Valid()
      reads this
    {
      |renderingInfo.zones| == NumZones && |prevRenderingInfo.zones| == NumZones
    }

    constructor (lib: TimeLib, lcd: bool, build: ZoneBuild, isOverwriting: bool)
      ensures Valid()
      ensures (this.lib, this.lcd, this.build, this.isOverwriting) == (lib, lcd, build, isOverwriting)
      ensures renderingInfo == ZeroRenderingInfo && prevRenderingInfo == ZeroRenderingInfo && ops == []
    {
      this.lib := lib;
      this.lcd := lcd;
      this.build := build;
      this.isOverwriting := isOverwriting;
      renderingInfo := ZeroRenderingInfo;
      prevRenderingInfo := ZeroRenderingInfo;
      ops := [];
    }

    /** display: draws what changed and remembers what it was given. */
    method Display()
      requires Valid()
      modifies this`prevRenderingInfo, this`ops
      ensures Valid() && prevRenderingInfo == renderingInfo
      ensures ops == old(ops) + FrameOps(lcd, build, lib, isOverwriting, old(prevRenderingInfo), renderingInfo)
    {
      var clear: seq<Op> := [];
      if NeedsClear(prevRenderingInfo, renderingInfo) {
        clear := [Clear];
      }
      var data: seq<Op> := [];
      if NeedsUpdate(lcd, prevRenderingInfo, renderingInfo) {
        data := DataOps(lcd, build, lib, isOverwriting, renderingInfo);
      }
      ops := ops + (clear + data);
      prevRenderingInfo := renderingInfo;
    }

    method SetRenderingInfo(mode: int, suppressBlink: bool, blinkShowState: bool, clockInfo: ClockInfo)
      requires Valid() && |clockInfo.zones| == NumZones
      modifies this`renderingInfo
      ensures Valid()
      ensures renderingInfo == Received(lcd, old(renderingInfo), mode, suppressBlink, blinkShowState, clockInfo)
    {
      if lcd {
        renderingInfo := renderingInfo.(backlightLevel := clockInfo.backlightLevel, contrast := clockInfo.contrast,
                                        bias := clockInfo.bias);
      } else {
        renderingInfo := renderingInfo.(contrastLevel := clockInfo.contrastLevel);
      }
      renderingInfo := renderingInfo.(mode := mode, suppressBlink := suppressBlink, blinkShowState := blinkShowState,
                                      hourMode := clockInfo.hourMode, zones := clockInfo.zones,
                                      dateTime := clockInfo.dateTime);
    }

    /** setBrightness: the PWM value on the LCD's backlight pin. */
    method SetBrightness(value: int)
      modifies this`ops
      ensures ops == old(ops) + [SetBacklight(value)]
    {
      ops := ops + [SetBacklight(value)];
    }

    method SetContrastValue(value: int)
      modifies this`ops
      ensures ops == old(ops) + [SetContrast(value)]
    {
      ops := ops + [SetContrast(value)];
    }

    method SetBiasValue(value: int)
      modifies this`ops
      ensures ops == old(ops) + [SetBias(value)]
    {
      ops := ops + [SetBias(value)];
    }
  }
}
