/**
 * The presenter of the Go LED clock (ledclockgo/presenter.go): keeps the
 * snapshot it last drew and redraws only when the current one differs.
 */
module LedClockGoPresenter {
  import opened Widths
  import opened AceTime
  import opened Display
  import opened LedClockGoInfo

  /** The edited field of an edit mode, or -1 outside the edit modes. */
  function EditedField(info: ClockInfo): int
  {
    match info.clockMode
    case ChangeHour => info.dateTime.hour
    case ChangeMinute => info.dateTime.minute
    case ChangeSecond => info.dateTime.second
    case ChangeYear => info.dateTime.year
    case ChangeMonth => info.dateTime.month
    case ChangeDay => info.dateTime.day
    case ChangeTimeZone => info.zoneIndex
    case ChangeBrightness => info.brightness
    case _ => -1
  }

  /** The snapshot with the edited field of its mode set to v. */
  function WithEditedField(info: ClockInfo, v: int): (r: ClockInfo)
    ensures IsChangeMode(info.clockMode) ==> EditedField(r) == v
  {
    var dt := info.dateTime;
    match info.clockMode
    case ChangeHour => info.(dateTime := dt.(hour := v))
    case ChangeMinute => info.(dateTime := dt.(minute := v))
    case ChangeSecond => info.(dateTime := dt.(second := v))
    case ChangeYear => info.(dateTime := dt.(year := v))
    case ChangeMonth => info.(dateTime := dt.(month := v))
    case ChangeDay => info.(dateTime := dt.(day := v))
    case ChangeTimeZone => info.(zoneIndex := v)
    case ChangeBrightness => info.(brightness := v)
    case _ => info
  }

  /** The view mode an edit mode's frame reproduces while the field is shown. */
  function ViewOf(m: ClockMode): ClockMode
  {
    match m
    case ChangeHour => ViewHourMinute
    case ChangeMinute => ViewHourMinute
    case ChangeYear => ViewYear
    case ChangeMonth => ViewMonth
    case ChangeDay => ViewDay
    case ChangeTimeZone => ViewTimeZone
    case ChangeBrightness => ViewBrightness
    case _ => m
  }

  /** The temperature digits: int8(centi / 100), truncated toward zero. */
  function TempDegrees(centi: int): (r: int)
    ensures -128 <= r < 128
    ensures 0 <= centi < 12800 ==> 0 <= r && r * 100 <= centi < r * 100 + 100
    ensures -12800 < centi < 0 ==> r <= 0 && r * 100 - 100 < centi <= r * 100
  {
    I8(DivTrunc100(centi))
  }

  /** WriteHourMinute24 of the snapshot's time. */
  function HourMinute(dt: ZonedDateTime): seq<Op>
  {
    [WriteHourMinute24(dt.hour, dt.minute)]
  }

  /** The three-letter weekday and the zone name are the inputs the frame needs beyond the snapshot. */
  function Frame(info: ClockInfo, weekdayName: string, zoneName: string): seq<Op>
  {
    var dt := info.dateTime;
    var shown := FieldShown(info);
    var blank2 := [WriteDigit(Space), WriteDigit(Space)];
    match info.clockMode
    case ViewHourMinute => HourMinute(dt)
    case ChangeHour =>
      if shown then HourMinute(dt)
      else blank2 + [WriteDec2(dt.minute, Hex(0)), WriteColon(true)]
    case ChangeMinute =>
      if shown then HourMinute(dt)
      else [WriteDec2(dt.hour, Hex(0)), WriteColon(true)] + blank2
    case ViewSecond => blank2 + [WriteColon(true), WriteDec2(dt.second, Hex(0))]
    case ChangeSecond =>
      if shown then blank2 + [WriteDec2(dt.second, Hex(0)), WriteColon(true)]
      else [Clear]
    case ViewYear => [WriteDec4(U16(dt.year), Hex(0))]
    case ChangeYear => if shown then [WriteDec4(U16(dt.year), Hex(0))] else [Clear]
    case ViewMonth => blank2 + [WriteDec2(dt.month, Hex(0))]
    case ChangeMonth => if shown then blank2 + [WriteDec2(dt.month, Hex(0))] else [Clear]
    case ViewDay => blank2 + [WriteDec2(dt.day, Hex(0))]
    case ChangeDay => if shown then blank2 + [WriteDec2(dt.day, Hex(0))] else [Clear]
    case ViewWeekday => [WriteString(weekdayName), ClearToEnd]
    case ViewTimeZone => [WriteString(zoneName), ClearToEnd]
    case ChangeTimeZone => if shown then [WriteString(zoneName), ClearToEnd] else [Clear]
    case ViewBrightness =>
      [WriteString("br"), SetDecimalPoint(1, true), WriteDec2(info.brightness, Space)]
    case ChangeBrightness =>
      [WriteString("br"), SetDecimalPoint(1, true)] +
      (if shown then [WriteDec2(info.brightness, Space)] else [ClearToEnd])
    case ViewTempC => [WriteSignedDec3(TempDegrees(info.tempCentiC), Space), WriteDigit(Hex(0xC))]
    case ViewTempF => [WriteSignedDec3(TempDegrees(info.tempCentiF), Space), WriteDigit(Hex(0xF))]
    case Unknown => []
  }

  /**
   * While an edit mode's field is hidden, the frame does not depend on the
   * field's value: the field is blanked, and nothing else is.
   */
  lemma HiddenFieldNotDrawn(info: ClockInfo, v: int, weekdayName: string, zoneName: string)
    requires IsChangeMode(info.clockMode) && !FieldShown(info)
    ensures Frame(WithEditedField(info, v), weekdayName, zoneName) == Frame(info, weekdayName, zoneName)
  {
  }

  /**
   * While the field is shown, every edit mode but ChangeSecond draws exactly
   * the frame of its view mode (ChangeSecond writes the colon after the digits).
   */
  lemma ShownFieldDrawnAsView(info: ClockInfo, weekdayName: string, zoneName: string)
    requires IsChangeMode(info.clockMode) && info.clockMode != ChangeSecond && FieldShown(info)
    ensures Frame(info, weekdayName, zoneName) ==
            Frame(info.(clockMode := ViewOf(info.clockMode)), weekdayName, zoneName)
  {
  }

  /** While shown, a different hour, minute, month, day or brightness gives a different frame. */
  lemma ShownFieldDrawn(info: ClockInfo, v: int, weekdayName: string, zoneName: string)
    requires info.clockMode in {ChangeHour, ChangeMinute, ChangeSecond, ChangeMonth, ChangeDay, ChangeBrightness}
    requires FieldShown(info) && v != EditedField(info)
    ensures Frame(WithEditedField(info, v), weekdayName, zoneName) != Frame(info, weekdayName, zoneName)
  {
    var f := Frame(info, weekdayName, zoneName);
    var g := Frame(WithEditedField(info, v), weekdayName, zoneName);
    match info.clockMode
    case ChangeBrightness => assert g[2] != f[2];
    case ChangeHour => assert g[0] != f[0];
    case ChangeMinute => assert g[0] != f[0];
    case ChangeSecond => assert g[2] != f[2];
    case ChangeMonth => assert g[2] != f[2];
    case ChangeDay => assert g[2] != f[2];
  }

  /** The brightness push that precedes a redraw. */
  function BrightnessOps(prev: ClockInfo, curr: ClockInfo): (r: seq<Op>)
    ensures r != [] <==> prev.brightness != curr.brightness
    ensures r != [] ==> r == [SetBrightness(curr.brightness)]
  {
    if prev.brightness != curr.brightness then [SetBrightness(curr.brightness)] else []
  }

  /**
   * UpdateDisplay's output: nothing for the snapshot drawn last; otherwise a
   * changed brightness, then the frame from the home position.
   */
  function UpdateOps(prev: ClockInfo, curr: ClockInfo, weekdayName: string, zoneName: string): (r: seq<Op>)
    ensures r == [] <==> prev == curr
    ensures prev != curr ==>
      |r| > |BrightnessOps(prev, curr)| && r[..|BrightnessOps(prev, curr)|] == BrightnessOps(prev, curr) &&
      r[|BrightnessOps(prev, curr)|] == Home
  {
    if prev == curr then [] else BrightnessOps(prev, curr) + [Home] + Frame(curr, weekdayName, zoneName)
  }

  /** Two updates with no SetClockInfo between them draw at most once: the second draws nothing. */
  lemma UpdateIdempotent(info: ClockInfo, weekdayName: string, zoneName: string)
    ensures UpdateOps(info, info, weekdayName, zoneName) == []
  {
  }

  class Presenter {
    /** The zone catalog's names, indexed by zoneIndex. */
    const zoneNames: seq<string>
    /** acetime.LocalDateToWeekday(y, m, d).Name(). */
    const weekdayName: (int, int, int) -> string
    var currInfo: ClockInfo
    var prevInfo: ClockInfo
    /** Calls on the LED module and its number and character writers, in order. */
    var ops: seq<Op>

    constructor (zoneNames: seq<string>, weekdayName: (int, int, int) -> string)
      ensures this.zoneNames == zoneNames && this.weekdayName == weekdayName
      ensures currInfo == ZeroInfo && prevInfo == ZeroInfo && ops == []
    {
      this.zoneNames := zoneNames;
      this.weekdayName := weekdayName;
      currInfo := ZeroInfo;
      prevInfo := ZeroInfo;
      ops := [];
    }

    /**
     * The three-letter weekday name of a date. Go's name[:3] needs three
     * letters, which every time.Weekday name has; a shorter name, which
     * weekdayName never returns, is kept whole.
     */
    function WeekdayAbbrev(dt: ZonedDateTime): string
      reads this
    {
      var name := weekdayName(dt.year, dt.month, dt.day);
      if |name| >= 3 then name[..3] else name
    }

    /** The zone name a frame shows, for the modes that show one. */
    function ZoneName(info: ClockInfo): string
      reads this
    {
      if 0 <= info.zoneIndex < |zoneNames| then zoneNames[info.zoneIndex] else ""
    }

    /** SetClockInfo copies the snapshot by value. */
    method SetClockInfo(info: ClockInfo)
      modifies this`currInfo
      ensures currInfo == info
    {
      currInfo := info;
    }

    /**
     * UpdateDisplay: nothing when the snapshot equals the last one drawn;
     * otherwise push a changed brightness, remember the snapshot, and draw it.
     * The zone catalog is indexed only in the time-zone modes, which the
     * source leaves to panic on a bad index.
     */
    method UpdateDisplay()
      requires currInfo.clockMode in {ViewTimeZone, ChangeTimeZone} ==> 0 <= currInfo.zoneIndex < |zoneNames|
      modifies this`prevInfo, this`ops
      ensures prevInfo == currInfo
      ensures ops == old(ops) + UpdateOps(old(prevInfo), currInfo, WeekdayAbbrev(currInfo.dateTime), ZoneName(currInfo))
    {
      if prevInfo == currInfo {
        return;
      }
      var frame := BrightnessOps(prevInfo, currInfo) + [Home] + Frame(currInfo, WeekdayAbbrev(currInfo.dateTime), ZoneName(currInfo));
      prevInfo := currInfo;
      ops := ops + frame;
    }

  }
}
