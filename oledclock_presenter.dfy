/**
 * The Presenter of OledClock (OledClock/Presenter.h): draws the rendering
 * info the controller hands it, clearing the screen only when the mode
 * changes and redrawing only when something it shows changed. The calls on
 * the display and on the subclass hooks (home, clearDisplay, setFont,
 * clearToEOL, renderDisplay) are kept as a trace of Ops.
 */
module OledClockPresenter {
  import opened AceTime
  import opened Display
  import opened TextScreens
  import opened OledClockInfo

  /** The font the OLED subclass selects before each frame. */
  const FixedBold10x15 := 0

  /** shouldShowFor: a field is hidden only in its own mode, while blinking off and not suppressed. */
  function ShouldShowFor(info: RenderingInfo, m: int): (r: bool)
    ensures !r <==> m == info.mode && !info.suppressBlink && !info.blinkShowState
  {
    m != info.mode || info.suppressBlink || info.blinkShowState
  }

  /**
   * needsUpdate: any change of what is rendered, except that a change of the
   * blink phase alone is ignored while blinking is suppressed.
   */
  function NeedsUpdate(curr: RenderingInfo, prev: RenderingInfo): (r: bool)
    ensures !curr.suppressBlink ==> (r <==> curr != prev)
    ensures curr.suppressBlink ==> (r <==> curr.(blinkShowState := prev.blinkShowState) != prev)
  {
    curr.mode != prev.mode
    || curr.suppressBlink != prev.suppressBlink
    || (!curr.suppressBlink && curr.blinkShowState != prev.blinkShowState)
    || curr.hourMode != prev.hourMode
    || curr.timeZone != prev.timeZone
    || curr.dateTime != prev.dateTime
  }

  /** The weekday line. */
  function WeekdayText(lib: TimeLib, dt: ZonedDateTime): seq<Op>
  {
    [Print(lib.weekdayLongName(lib.dayOfWeek(dt.year, dt.month, dt.day))), ClearToEol]
  }

  /** displayDateTime: "<Error>" alone for an error date-time; else the time, date and weekday lines. */
  function DateTimeScreen(lib: TimeLib, info: RenderingInfo): seq<Op>
  {
    var dt := info.dateTime;
    if dt.isError then [Print("<Error>"), Newline]
    else
      TimeText(dt, info.hourMode, ShouldShowFor(info, ModeChangeHour), ShouldShowFor(info, ModeChangeMinute),
               ShouldShowFor(info, ModeChangeSecond)) + [ClearToEol, Newline] +
      DateText(dt, ShouldShowFor(info, ModeChangeYear), ShouldShowFor(info, ModeChangeMonth),
               ShouldShowFor(info, ModeChangeDay)) + [ClearToEol, Newline] +
      WeekdayText(lib, dt)
  }

  /** The zone-type label of the first zone line. */
  function ManagedZoneTypeLabel(kind: ZoneKind): (s: string)
    ensures s == "manual" <==> kind == KindManual
    ensures s == "basic" <==> kind in {KindBasic, KindBasicManaged}
    ensures s == "extd" <==> kind in {KindExtended, KindExtendedManaged}
    ensures s == "unknown" <==> kind in {KindBasicDb, KindExtendedDb, KindOther}
  {
    match kind
    case KindManual => "manual"
    case KindBasic => "basic"
    case KindBasicManaged => "basic"
    case KindExtended => "extd"
    case KindExtendedManaged => "extd"
    case _ => "unknown"
  }

  /**
   * displayTimeZone, built for named zones: the type label, then the zone's
   * short name (blinking in the zone-name edit) and a cleared second line;
   * a zone of another type shows "<unknown>".
   */
  function TimeZoneScreen(lib: TimeLib, info: RenderingInfo): seq<Op>
  {
    var tz := info.timeZone;
    var kind := lib.zoneKind(tz);
    [Print("TZ: "), Print(ManagedZoneTypeLabel(kind)), ClearToEol] +
    if kind in {KindBasic, KindExtended, KindBasicManaged, KindExtendedManaged} then
      [Newline] + (if ShouldShowFor(info, ModeChangeTimeZoneName) then [Print(lib.zoneShortName(tz))] else []) +
      [ClearToEol, Newline, ClearToEol]
    else
      [Newline, Print("<unknown>"), ClearToEol, Newline, ClearToEol]
  }

  /** The mode dispatch of displayData: each edit mode shares its view's screen. */
  function Body(lib: TimeLib, info: RenderingInfo): (r: seq<Op>)
    ensures info.mode == ModeDateTime || IsDateTimeEdit(info.mode) ==> r == DateTimeScreen(lib, info)
    ensures info.mode in {ModeTimeZone, ModeChangeTimeZoneName} ==> r == TimeZoneScreen(lib, info)
    ensures info.mode == ModeAbout ==> r == [Screen("about")]
    ensures info.mode !in {ModeDateTime, ModeTimeZone, ModeAbout} && !IsEdit(info.mode) ==> r == []
  {
    var m := info.mode;
    if m == ModeDateTime || IsDateTimeEdit(m) then DateTimeScreen(lib, info)
    else if m == ModeTimeZone || m == ModeChangeTimeZoneName then TimeZoneScreen(lib, info)
    else if m == ModeAbout then [Screen("about")]
    else []
  }

  /** displayData: home, a clear on a display that does not overwrite, the font, the screen, and the render. */
  function DataOps(lib: TimeLib, isOverwriting: bool, info: RenderingInfo): seq<Op>
  {
    [Home] + (if isOverwriting then [] else [Clear]) + [SetFont(FixedBold10x15)] + Body(lib, info) + [RenderDisplay]
  }

  /** display: clear iff the mode changed, then redraw iff needsUpdate. */
  function DisplayOps(lib: TimeLib, isOverwriting: bool, curr: RenderingInfo, prev: RenderingInfo): (r: seq<Op>)
    ensures curr == prev ==> r == []
    ensures (r != [] && r[0] == Clear) <==> curr.mode != prev.mode
    ensures NeedsUpdate(curr, prev) ==> |r| > 0 && r[|r| - 1] == RenderDisplay
    ensures !NeedsUpdate(curr, prev) ==> r == []
  {
    (if curr.mode != prev.mode then [Clear] else []) +
    (if NeedsUpdate(curr, prev) then DataOps(lib, isOverwriting, curr) else [])
  }

  /**
   * Skipping a redraw never leaves a stale screen: when needsUpdate is false
   * the screen that would be drawn is the one already drawn.
   */
  lemma SkippedRedrawIsCurrent(lib: TimeLib, curr: RenderingInfo, prev: RenderingInfo)
    requires !NeedsUpdate(curr, prev)
    ensures Body(lib, curr) == Body(lib, prev)
  {
    if curr != prev {
      assert curr.suppressBlink && prev.suppressBlink;
      assert forall m :: ShouldShowFor(curr, m) && ShouldShowFor(prev, m);
      assert curr == prev.(blinkShowState := curr.blinkShowState);
    }
  }

  /**
   * A hidden minute or second is not drawn: in its edit mode, while blinking
   * off, the screen does not depend on it.
   */
  lemma HiddenMinuteSecondNotDrawn(lib: TimeLib, info: RenderingInfo, v: int)
    requires info.mode in {ModeChangeMinute, ModeChangeSecond} && !ShouldShowFor(info, info.mode)
    ensures var dt := info.dateTime;
      Body(lib, info.(dateTime := if info.mode == ModeChangeMinute then dt.(minute := v) else dt.(second := v))) ==
      Body(lib, info)
  {
  }

  /**
   * A hidden hour is not drawn, except through the AM/PM suffix of the
   * 12-hour mode, which still tells the half of the day.
   */
  lemma HiddenHourNotDrawn(lib: TimeLib, info: RenderingInfo, h: int)
    requires info.mode == ModeChangeHour && !ShouldShowFor(info, ModeChangeHour)
    requires info.hourMode != Twelve || (h < 12) == (info.dateTime.hour < 12)
    ensures Body(lib, info.(dateTime := info.dateTime.(hour := h))) == Body(lib, info)
  {
    TextScreens.HiddenHourNotDrawn(info.dateTime, h, info.hourMode, true, true);
  }

  /**
   * A hidden year, month or day is blanked on the date line (the weekday
   * line below it still follows the date).
   */
  lemma HiddenDateFieldBlanked(info: RenderingInfo, v: int)
    requires IsDateTimeEdit(info.mode) && info.mode <= ModeChangeDay && !ShouldShowFor(info, info.mode)
    ensures var dt := info.dateTime;
      var dt' := if info.mode == ModeChangeYear then dt.(year := v)
                 else if info.mode == ModeChangeMonth then dt.(month := v) else dt.(day := v);
      DateText(dt', ShouldShowFor(info, ModeChangeYear), ShouldShowFor(info, ModeChangeMonth),
               ShouldShowFor(info, ModeChangeDay)) ==
      DateText(dt, ShouldShowFor(info, ModeChangeYear), ShouldShowFor(info, ModeChangeMonth),
               ShouldShowFor(info, ModeChangeDay))
  {
  }

  /** A shown minute is drawn: a different minute gives a different screen. */
  lemma ShownMinuteDrawn(lib: TimeLib, info: RenderingInfo, v: int)
    requires (info.mode == ModeDateTime || IsDateTimeEdit(info.mode)) && !info.dateTime.isError
    requires ShouldShowFor(info, ModeChangeMinute) && v != info.dateTime.minute
    ensures Body(lib, info.(dateTime := info.dateTime.(minute := v))) != Body(lib, info)
  {
    var a := Body(lib, info.(dateTime := info.dateTime.(minute := v)));
    var b := Body(lib, info);
    assert a[2] != b[2];
  }

  /** A second frame with nothing new draws nothing. */
  lemma DisplayIdempotent(lib: TimeLib, isOverwriting: bool, info: RenderingInfo)
    ensures DisplayOps(lib, isOverwriting, info, info) == []
  {
  }

  class Presenter {
    const lib: TimeLib
    /** True for the OLED, whose characters overwrite the old pixels; false for the LCD. */
    const isOverwriting: bool
    var renderingInfo: RenderingInfo
    var prevRenderingInfo: RenderingInfo
    /** Calls on the display and on the subclass hooks, in order. */
    var ops: seq<Op>

    constructor (lib: TimeLib, isOverwriting: bool)
      ensures this.lib == lib && this.isOverwriting == isOverwriting
      ensures renderingInfo == ZeroRenderingInfo && prevRenderingInfo == ZeroRenderingInfo && ops == []
    {
      this.lib := lib;
      this.isOverwriting := isOverwriting;
      renderingInfo := ZeroRenderingInfo;
      prevRenderingInfo := ZeroRenderingInfo;
      ops := [];
    }

    /** display: draws what changed and remembers what it was given. */
    method Display()
      modifies this`prevRenderingInfo, this`ops
      ensures prevRenderingInfo == renderingInfo
      ensures ops == old(ops) + DisplayOps(lib, isOverwriting, renderingInfo, old(prevRenderingInfo))
    {
      var drawn: seq<Op> := [];
      if renderingInfo.mode != prevRenderingInfo.mode {
        drawn := [Clear];
      }
      if NeedsUpdate(renderingInfo, prevRenderingInfo) {
        drawn := drawn + DataOps(lib, isOverwriting, renderingInfo);
      }
      assert drawn == DisplayOps(lib, isOverwriting, renderingInfo, prevRenderingInfo);
      ops := ops + drawn;
      prevRenderingInfo := renderingInfo;
    }

    /** setRenderingInfo copies the mode, the two blink flags and the snapshot's three fields. */
    method SetRenderingInfo(mode: int, suppressBlink: bool, blinkShowState: bool, clockInfo: ClockInfo)
      modifies this`renderingInfo
      ensures renderingInfo ==
        RenderingInfo(mode, suppressBlink, blinkShowState, clockInfo.hourMode, clockInfo.timeZone, clockInfo.dateTime)
    {
      renderingInfo := RenderingInfo(mode, suppressBlink, blinkShowState,
                                     clockInfo.hourMode, clockInfo.timeZone, clockInfo.dateTime);
    }
  }
}
