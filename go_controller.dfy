/**
 * The controller of the earlier Go LED clock (controller.go). It has the
 * structure of the later one (ledclockgo/controller.go): a different view
 * ring with a single temperature view, the edit ring starting at the year,
 * and a saveRTC that sets the century flag. The per-field wrap rules are the
 * same and are taken from LedClockGoController.
 */
module GoController {
  import opened Widths
  import opened AceTime
  import opened Cycles
  import opened Ds3231
  import opened GoClockInfo
  import L = LedClockGoController

  datatype Effect = RtcWrite(dt: RtcDateTime) | AdjustTimeOffset(nanos: int) | FlushLedModule

  const ViewCycle := [ViewYear, ViewMonth, ViewDay, ViewHourMinute, ViewSecond,
                      ViewTimeZone, ViewBrightness, ViewTemperature]
  const EditCycle := [ChangeYear, ChangeMonth, ChangeDay, ChangeHour, ChangeMinute, ChangeSecond]

  /** The mode after a short press of the Mode button. */
  function NextMode(m: ClockMode): ClockMode
  {
    match m
    case ViewYear => ViewMonth
    case ViewMonth => ViewDay
    case ViewDay => ViewHourMinute
    case ViewHourMinute => ViewSecond
    case ViewSecond => ViewTimeZone
    case ViewTimeZone => ViewBrightness
    case ViewBrightness => ViewTemperature
    case ViewTemperature => ViewYear
    case ChangeYear => ChangeMonth
    case ChangeMonth => ChangeDay
    case ChangeDay => ChangeHour
    case ChangeHour => ChangeMinute
    case ChangeMinute => ChangeSecond
    case ChangeSecond => ChangeYear
    case _ => m
  }

  /** Eight presses walk the view ring and come back, and no fewer do. */
  lemma ViewCyclePeriod(i: nat)
    requires i < |ViewCycle|
    ensures Iterate(NextMode, ViewCycle[i], 8) == ViewCycle[i]
    ensures forall k :: 0 < k < 8 ==> Iterate(NextMode, ViewCycle[i], k) != ViewCycle[i]
  {
    assert AdvancesAlong(NextMode, ViewCycle);
    RingExactPeriod(NextMode, ViewCycle, i);
  }

  /** Six presses walk the edit ring and come back, and no fewer do. */
  lemma EditCyclePeriod(i: nat)
    requires i < |EditCycle|
    ensures Iterate(NextMode, EditCycle[i], 6) == EditCycle[i]
    ensures forall k :: 0 < k < 6 ==> Iterate(NextMode, EditCycle[i], k) != EditCycle[i]
  {
    assert AdvancesAlong(NextMode, EditCycle);
    RingExactPeriod(NextMode, EditCycle, i);
  }

  predicate HasEditMode(m: ClockMode)
  {
    m in {ViewYear, ViewMonth, ViewDay, ViewHourMinute, ViewSecond, ViewTimeZone, ViewBrightness}
  }

  /** The mode after a long press of the Mode button; ViewTemperature has none. */
  function LongPressMode(m: ClockMode): (r: ClockMode)
    ensures HasEditMode(m) ==> IsChangeMode(r)
    ensures IsChangeMode(m) ==> HasEditMode(r)
    ensures !HasEditMode(m) && !IsChangeMode(m) ==> r == m
  {
    match m
    case ViewYear => ChangeYear
    case ViewMonth => ChangeMonth
    case ViewDay => ChangeDay
    case ViewHourMinute => ChangeHour
    case ViewSecond => ChangeSecond
    case ViewTimeZone => ChangeTimeZone
    case ViewBrightness => ChangeBrightness
    case ChangeYear => ViewYear
    case ChangeMonth => ViewMonth
    case ChangeDay => ViewDay
    case ChangeHour => ViewHourMinute
    case ChangeMinute => ViewHourMinute
    case ChangeSecond => ViewSecond
    case ChangeTimeZone => ViewTimeZone
    case ChangeBrightness => ViewBrightness
    case _ => m
  }

  /** Into an edit and back out returns to the view; ChangeMinute comes back as ChangeHour. */
  lemma LongPressRoundTrip(m: ClockMode)
    ensures HasEditMode(m) ==> LongPressMode(LongPressMode(m)) == m
    ensures IsChangeMode(m) && m != ChangeMinute ==> LongPressMode(LongPressMode(m)) == m
    ensures LongPressMode(LongPressMode(ChangeMinute)) == ChangeHour
  {
  }

  /** The scratch snapshot after a change press in mode m: only m's field moves. */
  function Incremented(info: ClockInfo, m: ClockMode, numZones: int): (r: ClockInfo)
    ensures !IsChangeMode(m) ==> r == info
    ensures m == ChangeYear ==> r == info.(dateTime := info.dateTime.(year := L.NextYear(info.dateTime.year)))
    ensures m == ChangeMonth ==> r == info.(dateTime := info.dateTime.(month := L.NextMonth(info.dateTime.month)))
    ensures m == ChangeDay ==> r == info.(dateTime := info.dateTime.(day := L.NextDay(info.dateTime.day)))
    ensures m == ChangeHour ==> r == info.(dateTime := info.dateTime.(hour := L.NextHour(info.dateTime.hour)))
    ensures m == ChangeMinute ==> r == info.(dateTime := info.dateTime.(minute := L.NextMinuteOrSecond(info.dateTime.minute)))
    ensures m == ChangeSecond ==> r == info.(dateTime := info.dateTime.(second := L.NextMinuteOrSecond(info.dateTime.second)))
    ensures m == ChangeTimeZone ==> r == info.(zoneIndex := L.NextZoneIndex(info.zoneIndex, numZones))
    ensures m == ChangeBrightness ==> r == info.(brightness := L.NextBrightness(info.brightness))
  {
    var dt := info.dateTime;
    match m
    case ChangeYear => info.(dateTime := dt.(year := L.NextYear(dt.year)))
    case ChangeMonth => info.(dateTime := dt.(month := L.NextMonth(dt.month)))
    case ChangeDay => info.(dateTime := dt.(day := L.NextDay(dt.day)))
    case ChangeHour => info.(dateTime := dt.(hour := L.NextHour(dt.hour)))
    case ChangeMinute => info.(dateTime := dt.(minute := L.NextMinuteOrSecond(dt.minute)))
    case ChangeSecond => info.(dateTime := dt.(second := L.NextMinuteOrSecond(dt.second)))
    case ChangeTimeZone => info.(zoneIndex := L.NextZoneIndex(info.zoneIndex, numZones))
    case ChangeBrightness => info.(brightness := L.NextBrightness(info.brightness))
    case _ => info
  }

  /** Every edited field stays inside its range after a press, whatever it held before. */
  lemma IncrementedInRange(info: ClockInfo, m: ClockMode, numZones: int)
    requires 0 < numZones
    ensures var r := Incremented(info, m, numZones);
      (m == ChangeYear ==> r.dateTime.year < 2100) &&
      (m == ChangeMonth ==> r.dateTime.month <= 12) &&
      (m == ChangeDay ==> r.dateTime.day <= 31) &&
      (m == ChangeHour ==> 0 <= r.dateTime.hour < 24) &&
      (m == ChangeMinute ==> 0 <= r.dateTime.minute < 60) &&
      (m == ChangeSecond ==> 0 <= r.dateTime.second < 60) &&
      (m == ChangeTimeZone ==> 0 <= r.zoneIndex < numZones) &&
      (m == ChangeBrightness ==> 0 <= r.brightness < 8)
  {
  }

  /** saveClockInfo's committed snapshot, as in the later Go clock. */
  function Committed(curr: ClockInfo, changing: ClockInfo, zones: seq<L.Zone>, lib: TimeLib): (r: ClockInfo)
    requires 0 <= changing.zoneIndex < |zones|
    ensures r.(dateTime := changing.dateTime) == changing
    ensures curr.zoneIndex == changing.zoneIndex ==> r == changing
    ensures curr.zoneIndex != changing.zoneIndex ==>
      r.dateTime == lib.convertToTimeZone(curr.dateTime, zones[changing.zoneIndex].tz)
  {
    if curr.zoneIndex != changing.zoneIndex then
      changing.(dateTime := lib.convertToTimeZone(curr.dateTime, zones[changing.zoneIndex].tz))
    else
      changing
  }

  /** saveRTC's register image: the century flag is set exactly when the year is 2100 or later. */
  function RtcDateTimeOf(udt: ZonedDateTime, lib: TimeLib): (r: RtcDateTime)
    ensures r.century == (if udt.year - 2000 >= 100 then 1 else 0)
    ensures 2000 <= udt.year < 2256 ==> r.year == udt.year - 2000
    ensures (r.month, r.day, r.hour, r.minute, r.second) ==
            (udt.month, udt.day, udt.hour, udt.minute, udt.second)
  {
    var year := udt.year - 2000;
    var century := if year >= 100 then 1 else 0;
    RtcDateTime(U8(year), udt.month, udt.day, udt.hour, udt.minute, udt.second,
                lib.dayOfWeek(udt.year, udt.month, udt.day), century)
  }

  /** Reading back ignores the century flag, and still recovers years 2000 to 2255. */
  lemma RtcRoundTrip(udt: ZonedDateTime, lib: TimeLib)
    requires 2000 <= udt.year < 2256
    ensures L.RtcFields(RtcDateTimeOf(udt, lib)) ==
            (udt.year, udt.month, udt.day, udt.hour, udt.minute, udt.second)
  {
  }

  function AdjustEffects(read: RtcRead, nowNanos: int, lib: TimeLib): (r: seq<Effect>)
    ensures read.RtcError? ==> r == []
    ensures read.RtcOk? ==> |r| == 1 && r[0].AdjustTimeOffset?
  {
    match read
    case RtcError => []
    case RtcOk(dt) =>
      var f := L.RtcFields(dt);
      [AdjustTimeOffset(lib.utcEpochSeconds(f.0, f.1, f.2, f.3, f.4, f.5) * 1_000_000_000 - nowNanos)]
  }

  class Controller {
    const zones: seq<L.Zone>
    const lib: TimeLib
    var currInfo: ClockInfo
    var changingInfo: ClockInfo
    /** The snapshot last handed to presenter.SetClockInfo. */
    var presented: ClockInfo
    var effects: seq<Effect>

    ghost predicate Valid()
      reads this
    {
      |zones| > 0 &&
      0 <= currInfo.zoneIndex < |zones| &&
      0 <= changingInfo.zoneIndex < |zones|
    }

    function Displayed(): (r: ClockInfo)
      reads this
    {
      if IsChangeMode(currInfo.clockMode) then changingInfo else currInfo
    }

    constructor (zones: seq<L.Zone>, lib: TimeLib)
      requires |zones| > 0
      ensures Valid()
      ensures this.zones == zones && this.lib == lib
      ensures currInfo == ZeroInfo.(hourMode := HourMode24, clockMode := ViewHourMinute, brightness := 1)
      ensures changingInfo == ZeroInfo && presented == ZeroInfo && effects == []
    {
      this.zones := zones;
      this.lib := lib;
      currInfo := ZeroInfo.(hourMode := HourMode24, clockMode := ViewHourMinute, brightness := 1);
      changingInfo := ZeroInfo;
      presented := ZeroInfo;
      effects := [];
    }

    method UpdatePresenter()
      modifies this`presented
      ensures presented == Displayed()
    {
      if IsChangeMode(currInfo.clockMode) {
        presented := changingInfo;
      } else {
        presented := currInfo;
      }
    }

    method HandleModePress()
      requires Valid()
      modifies this`currInfo, this`changingInfo, this`presented
      ensures Valid()
      ensures currInfo == old(currInfo).(clockMode := NextMode(old(currInfo.clockMode)))
      ensures changingInfo == old(changingInfo).(clockMode := currInfo.clockMode)
      ensures presented == Displayed()
    {
      currInfo := currInfo.(clockMode := NextMode(currInfo.clockMode));
      changingInfo := changingInfo.(clockMode := currInfo.clockMode);
      UpdatePresenter();
    }

    method SaveRtc(info: ClockInfo)
      modifies this`effects
      ensures effects == old(effects) + [RtcWrite(RtcDateTimeOf(lib.convertToTimeZone(info.dateTime, lib.utc), lib))]
    {
      var udt := lib.convertToTimeZone(info.dateTime, lib.utc);
      effects := effects + [RtcWrite(RtcDateTimeOf(udt, lib))];
    }

    method SetupSystemTimeFromRtc(read: RtcRead, nowNanos: int)
      modifies this`effects
      ensures effects == old(effects) + AdjustEffects(read, nowNanos, lib)
    {
      if read.RtcError? {
        return;
      }
      var f := L.RtcFields(read.dt);
      var nowRtc := lib.utcEpochSeconds(f.0, f.1, f.2, f.3, f.4, f.5);
      effects := effects + [AdjustTimeOffset(nowRtc * 1_000_000_000 - nowNanos)];
    }

    method SaveClockInfo(read: RtcRead, nowNanos: int)
      requires Valid()
      modifies this`currInfo, this`effects
      ensures Valid()
      ensures currInfo == Committed(old(currInfo), old(changingInfo), zones, lib)
      ensures effects == old(effects)
        + [RtcWrite(RtcDateTimeOf(lib.convertToTimeZone(currInfo.dateTime, lib.utc), lib))]
        + AdjustEffects(read, nowNanos, lib)
    {
      if currInfo.zoneIndex != changingInfo.zoneIndex {
        var newTz := zones[changingInfo.zoneIndex].tz;
        var newZdt := lib.convertToTimeZone(currInfo.dateTime, newTz);
        currInfo := changingInfo;
        currInfo := currInfo.(dateTime := newZdt);
      } else {
        currInfo := changingInfo;
      }
      SaveRtc(currInfo);
      SetupSystemTimeFromRtc(read, nowNanos);
    }

    method HandleModeLongPress(read: RtcRead, nowNanos: int)
      requires Valid()
      modifies this`currInfo, this`changingInfo, this`presented, this`effects
      ensures Valid()
      ensures currInfo.clockMode == LongPressMode(old(currInfo.clockMode))
      ensures changingInfo.clockMode == currInfo.clockMode
      ensures HasEditMode(old(currInfo.clockMode)) ==>
        currInfo == old(currInfo).(clockMode := currInfo.clockMode) &&
        changingInfo == currInfo && effects == old(effects)
      ensures IsChangeMode(old(currInfo.clockMode)) ==>
        currInfo == Committed(old(currInfo), old(changingInfo), zones, lib).(clockMode := currInfo.clockMode) &&
        changingInfo == old(changingInfo).(clockMode := currInfo.clockMode) &&
        effects == old(effects)
          + [RtcWrite(RtcDateTimeOf(lib.convertToTimeZone(currInfo.dateTime, lib.utc), lib))]
          + AdjustEffects(read, nowNanos, lib)
      ensures !HasEditMode(old(currInfo.clockMode)) && !IsChangeMode(old(currInfo.clockMode)) ==>
        currInfo == old(currInfo) &&
        changingInfo == old(changingInfo).(clockMode := currInfo.clockMode) &&
        effects == old(effects)
      ensures presented == Displayed()
    {
      var m := currInfo.clockMode;
      if HasEditMode(m) {
        currInfo := currInfo.(clockMode := LongPressMode(m));
        changingInfo := currInfo;
      } else if IsChangeMode(m) {
        SaveClockInfo(read, nowNanos);
        currInfo := currInfo.(clockMode := LongPressMode(m));
      }
      changingInfo := changingInfo.(clockMode := currInfo.clockMode);
      UpdatePresenter();
    }

    method HandleChangePress()
      requires Valid()
      modifies this`currInfo, this`changingInfo, this`presented, this`effects
      ensures Valid()
      ensures currInfo == old(currInfo).(blinkSuppressed := true)
      ensures changingInfo ==
        Incremented(old(changingInfo), currInfo.clockMode, |zones|)
          .(blinkSuppressed := true, clockMode := currInfo.clockMode)
      ensures presented == Displayed()
      ensures effects == old(effects) + [FlushLedModule]
    {
      currInfo := currInfo.(blinkSuppressed := true);
      changingInfo := changingInfo.(blinkSuppressed := true);
      changingInfo := Incremented(changingInfo, currInfo.clockMode, |zones|);
      changingInfo := changingInfo.(clockMode := currInfo.clockMode);
      UpdatePresenter();
      effects := effects + [FlushLedModule];
    }

    method HandleChangeRelease()
      requires Valid()
      modifies this`currInfo, this`changingInfo
      ensures Valid()
      ensures currInfo == old(currInfo).(blinkSuppressed := false)
      ensures changingInfo == old(changingInfo).(blinkSuppressed := false)
    {
      currInfo := currInfo.(blinkSuppressed := false);
      changingInfo := changingInfo.(blinkSuppressed := false);
    }

    method SyncSystemTime(nowSeconds: int)
      requires Valid()
      modifies this`currInfo, this`presented
      ensures Valid()
      ensures currInfo == old(currInfo).(dateTime :=
        lib.forEpochSeconds(nowSeconds, zones[old(currInfo.zoneIndex)].tz))
      ensures presented == Displayed()
    {
      var tz := zones[currInfo.zoneIndex].tz;
      currInfo := currInfo.(dateTime := lib.forEpochSeconds(nowSeconds, tz));
      UpdatePresenter();
    }

    method Blink()
      requires Valid()
      modifies this`currInfo, this`changingInfo, this`presented
      ensures Valid()
      ensures currInfo == old(currInfo).(blinkShowState := !old(currInfo.blinkShowState))
      ensures changingInfo == old(changingInfo).(blinkShowState := !old(changingInfo.blinkShowState))
      ensures presented == Displayed()
    {
      currInfo := currInfo.(blinkShowState := !currInfo.blinkShowState);
      changingInfo := changingInfo.(blinkShowState := !changingInfo.blinkShowState);
      UpdatePresenter();
    }

    method ReadTemp(read: TempRead)
      requires Valid()
      modifies this`currInfo, this`presented
      ensures Valid()
      ensures read.TempError? ==> currInfo == old(currInfo) && presented == old(presented)
      ensures read.TempOk? ==>
        currInfo == old(currInfo).(tempCentiC := read.centiC, tempCentiF := read.centiF) &&
        presented == Displayed()
    {
      if read.TempError? {
        return;
      }
      currInfo := currInfo.(tempCentiC := read.centiC, tempCentiF := read.centiF);
      UpdatePresenter();
    }
  }
}
