/**
 * The presenter of the earlier Go LED clock (presenter.go). It draws through
 * positional calls of the segwriter package, and its frame has no case for
 * the brightness view or for the time-zone and brightness edits.
 */
module GoPresenter {
  import opened Widths
  import opened AceTime
  import opened Display
  import opened GoClockInfo
  import LP = LedClockGoPresenter

  /** The edited date or time field of an edit mode, or -1 in the other modes. */
  function EditedField(info: ClockInfo): int
  {
    match info.clockMode
    case ChangeYear => info.dateTime.year
    case ChangeMonth => info.dateTime.month
    case ChangeDay => info.dateTime.day
    case ChangeHour => info.dateTime.hour
    case ChangeMinute => info.dateTime.minute
    case ChangeSecond => info.dateTime.second
    case _ => -1
  }

  function WithEditedField(info: ClockInfo, v: int): (r: ClockInfo)
    ensures info.clockMode in DrawnEdits ==> EditedField(r) == v
    ensures r.clockMode == info.clockMode && FieldShown(r) == FieldShown(info)
  {
    var dt := info.dateTime;
    match info.clockMode
    case ChangeYear => info.(dateTime := dt.(year := v))
    case ChangeMonth => info.(dateTime := dt.(month := v))
    case ChangeDay => info.(dateTime := dt.(day := v))
    case ChangeHour => info.(dateTime := dt.(hour := v))
    case ChangeMinute => info.(dateTime := dt.(minute := v))
    case ChangeSecond => info.(dateTime := dt.(second := v))
    case _ => info
  }

  /** The edit modes the frame has a case for. */
  const DrawnEdits := {ChangeYear, ChangeMonth, ChangeDay, ChangeHour, ChangeMinute, ChangeSecond}

  function ViewOf(m: ClockMode): ClockMode
  {
    match m
    case ChangeYear => ViewYear
    case ChangeMonth => ViewMonth
    case ChangeDay => ViewDay
    case ChangeHour => ViewHourMinute
    case ChangeMinute => ViewHourMinute
    case ChangeSecond => ViewSecond
    case _ => m
  }

  /** Two blank digits at positions 0 and 1, then a two-digit value at position 2. */
  function RightDec2(v: int): seq<Op>
  {
    [WriteHexCharAt(0, Space), WriteHexCharAt(1, Space), WriteDec2At(2, v, Hex(0))]
  }

  /** The calls UpdateDisplay makes for a snapshot; abbrev is the zone abbreviation. */
  function Frame(info: ClockInfo, abbrev: string): (r: seq<Op>)
    ensures info.clockMode in {Unknown, ViewBrightness, ChangeTimeZone, ChangeBrightness} ==> r == []
  {
    var dt := info.dateTime;
    var shown := FieldShown(info);
    match info.clockMode
    case ViewYear => [WriteDec4At(0, U16(dt.year), Hex(0))]
    case ChangeYear => if shown then [WriteDec4At(0, U16(dt.year), Hex(0))] else [Clear]
    case ViewMonth => RightDec2(dt.month)
    case ChangeMonth => if shown then RightDec2(dt.month) else [Clear]
    case ViewDay => RightDec2(dt.day)
    case ChangeDay => if shown then RightDec2(dt.day) else [Clear]
    case ViewHourMinute => [WriteHourMinute24(dt.hour, dt.minute)]
    case ChangeHour =>
      if shown then [WriteHourMinute24(dt.hour, dt.minute)]
      else [Clear, WriteDec2At(2, dt.minute, Hex(0)), WriteColon(true)]
    case ChangeMinute =>
      if shown then [WriteHourMinute24(dt.hour, dt.minute)]
      else [Clear, WriteDec2At(0, dt.hour, Hex(0)), WriteColon(true)]
    case ViewSecond => RightDec2(dt.second) + [WriteColon(true)]
    case ChangeSecond => if shown then RightDec2(dt.second) + [WriteColon(true)] else [Clear]
    case ViewTimeZone => [WriteStringAt(0, abbrev), ClearToEndFrom(U8(|abbrev|))]
    case ViewTemperature =>
      [WriteSignedDec3At(0, LP.TempDegrees(info.tempCentiC), Space), WriteHexCharAt(3, Hex(0xC))]
    case _ => []
  }

  /** While an edit mode's field is hidden, the frame does not depend on the field. */
  lemma HiddenFieldNotDrawn(info: ClockInfo, v: int, abbrev: string)
    requires info.clockMode in DrawnEdits && !FieldShown(info)
    ensures Frame(WithEditedField(info, v), abbrev) == Frame(info, abbrev)
  {
  }

  /** While the field is shown, each drawn edit mode draws exactly its view's frame. */
  lemma ShownFieldDrawnAsView(info: ClockInfo, abbrev: string)
    requires info.clockMode in DrawnEdits && FieldShown(info)
    ensures Frame(info, abbrev) == Frame(info.(clockMode := ViewOf(info.clockMode)), abbrev)
  {
  }

  /** While shown, a different month, day, hour, minute or second gives a different frame. */
  lemma ShownFieldDrawn(info: ClockInfo, v: int, abbrev: string)
    requires info.clockMode in DrawnEdits - {ChangeYear} && FieldShown(info)
    requires v != EditedField(info)
    ensures Frame(WithEditedField(info, v), abbrev) != Frame(info, abbrev)
  {
    var f := Frame(info, abbrev);
    var g := Frame(WithEditedField(info, v), abbrev);
    match info.clockMode
    case ChangeHour => assert g[0] != f[0];
    case ChangeMinute => assert g[0] != f[0];
    case ChangeMonth => assert g[2] != f[2];
    case ChangeDay => assert g[2] != f[2];
    case ChangeSecond => assert g[2] != f[2];
  }

  /** The year is drawn as uint16, so two years 65536 apart look the same. */
  lemma YearDrawnModulo(info: ClockInfo, abbrev: string)
    requires info.clockMode == ViewYear
    ensures Frame(info.(dateTime := info.dateTime.(year := info.dateTime.year + 65536)), abbrev) ==
            Frame(info, abbrev)
  {
  }

  class Presenter {
    /** NewZonedExtraFromEpochSeconds(...).Abbrev, as a function of the snapshot's date-time. */
    const abbreviation: ZonedDateTime -> string
    var currInfo: ClockInfo
    var prevInfo: ClockInfo
    /** Calls on the number and character writers, in order. */
    var ops: seq<Op>

    constructor (abbreviation: ZonedDateTime -> string)
      ensures this.abbreviation == abbreviation
      ensures currInfo == ZeroInfo && prevInfo == ZeroInfo && ops == []
    {
      this.abbreviation := abbreviation;
      currInfo := ZeroInfo;
      prevInfo := ZeroInfo;
      ops := [];
    }

    method SetClockInfo(info: ClockInfo)
      modifies this`currInfo
      ensures currInfo == info
    {
      currInfo := info;
    }

    /** Nothing when the snapshot equals the last one drawn; otherwise remember it and draw it. */
    method UpdateDisplay()
      modifies this`prevInfo, this`ops
      ensures old(prevInfo) == currInfo ==> prevInfo == old(prevInfo) && ops == old(ops)
      ensures old(prevInfo) != currInfo ==>
        prevInfo == currInfo &&
        ops == old(ops) + Frame(currInfo, abbreviation(currInfo.dateTime))
    {
      if prevInfo == currInfo {
        return;
      }
      prevInfo := currInfo;
      ops := ops + Frame(currInfo, abbreviation(currInfo.dateTime));
    }
  }
}
