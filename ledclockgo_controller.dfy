/**
 * The controller of the Go LED clock (ledclockgo/controller.go): a state
 * machine over two ClockInfo snapshots, the committed `currInfo` and the
 * scratch `changingInfo` that edits work on, driven by button events.
 */
module LedClockGoController {
  import opened Widths
  import opened AceTime
  import opened Cycles
  import opened LedClockGoInfo
  import opened Ds3231

  /** An entry of the fixed zone catalog `zones`. */
  datatype Zone = Zone(name: string, tz: TimeZone)

  /** Effects on devices other than the presenter, in the order issued. */
  datatype Effect = RtcWrite(dt: RtcDateTime) | AdjustTimeOffset(nanos: int) | FlushLedModule

  const ViewCycle := [ViewHourMinute, ViewSecond, ViewYear, ViewMonth, ViewDay,
                      ViewWeekday, ViewTimeZone, ViewBrightness, ViewTempC, ViewTempF]
  const EditCycle := [ChangeHour, ChangeMinute, ChangeSecond, ChangeYear, ChangeMonth, ChangeDay]

  /** The mode after a short press of the Mode button. */
  function NextMode(m: ClockMode): ClockMode
  {
    match m
    case ViewHourMinute => ViewSecond
    case ViewSecond => ViewYear
    case ViewYear => ViewMonth
    case ViewMonth => ViewDay
    case ViewDay => ViewWeekday
    case ViewWeekday => ViewTimeZone
    case ViewTimeZone => ViewBrightness
    case ViewBrightness => ViewTempC
    case ViewTempC => ViewTempF
    case ViewTempF => ViewHourMinute
    case ChangeHour => ChangeMinute
    case ChangeMinute => ChangeSecond
    case ChangeSecond => ChangeYear
    case ChangeYear => ChangeMonth
    case ChangeMonth => ChangeDay
    case ChangeDay => ChangeHour
    case _ => m
  }

  /** Ten presses walk all ten view modes and come back, and no fewer do. */
  lemma ViewCyclePeriod(i: nat)
    requires i < |ViewCycle|
    ensures Iterate(NextMode, ViewCycle[i], 10) == ViewCycle[i]
    ensures forall k :: 0 < k < 10 ==> Iterate(NextMode, ViewCycle[i], k) != ViewCycle[i]
  {
    assert AdvancesAlong(NextMode, ViewCycle);
    RingExactPeriod(NextMode, ViewCycle, i);
  }

  /** Six presses walk the six date/time edit modes and come back, and no fewer do. */
  lemma EditCyclePeriod(i: nat)
    requires i < |EditCycle|
    ensures Iterate(NextMode, EditCycle[i], 6) == EditCycle[i]
    ensures forall k :: 0 < k < 6 ==> Iterate(NextMode, EditCycle[i], k) != EditCycle[i]
  {
    assert AdvancesAlong(NextMode, EditCycle);
    RingExactPeriod(NextMode, EditCycle, i);
  }

  /** The view modes from which a long press starts an edit. */
  predicate HasEditMode(m: ClockMode)
  {
    m in {ViewHourMinute, ViewSecond, ViewYear, ViewMonth, ViewDay, ViewTimeZone, ViewBrightness}
  }

  /** The mode after a long press of the Mode button. */
  function LongPressMode(m: ClockMode): (r: ClockMode)
    ensures HasEditMode(m) ==> IsChangeMode(r)
    ensures IsChangeMode(m) ==> HasEditMode(r)
    ensures !HasEditMode(m) && !IsChangeMode(m) ==> r == m
  {
    match m
    case ViewHourMinute => ChangeHour
    case ViewSecond => ChangeSecond
    case ViewYear => ChangeYear
    case ViewMonth => ChangeMonth
    case ViewDay => ChangeDay
    case ViewTimeZone => ChangeTimeZone
    case ViewBrightness => ChangeBrightness
    case ChangeHour => ViewHourMinute
    case ChangeMinute => ViewHourMinute
    case ChangeSecond => ViewSecond
    case ChangeYear => ViewYear
    case ChangeMonth => ViewMonth
    case ChangeDay => ViewDay
    case ChangeTimeZone => ViewTimeZone
    case ChangeBrightness => ViewBrightness
    case _ => m
  }

  /**
   * A long press into an edit and a long press out of it return to the
   * starting view; out of an edit and back in returns to the same edit,
   * except ChangeMinute, which comes back as ChangeHour.
   */
  lemma LongPressRoundTrip(m: ClockMode)
    ensures HasEditMode(m) ==> LongPressMode(LongPressMode(m)) == m
    ensures IsChangeMode(m) && m != ChangeMinute ==> LongPressMode(LongPressMode(m)) == m
    ensures LongPressMode(LongPressMode(ChangeMinute)) == ChangeHour
  {
  }

  /** Hour field after a change press: uint8 increment, 24 wraps to 0. */
  function NextHour(h: int): (r: int)
    ensures 0 <= r < 24
    ensures 0 <= h < 23 ==> r == h + 1
    ensures h == 23 ==> r == 0
  {
    var n := U8(h + 1);
    if n >= 24 then 0 else n
  }

  /** Minute and second fields: uint8 increment, 60 wraps to 0. */
  function NextMinuteOrSecond(x: int): (r: int)
    ensures 0 <= r < 60
    ensures 0 <= x < 59 ==> r == x + 1
    ensures x == 59 ==> r == 0
  {
    var n := U8(x + 1);
    if n >= 60 then 0 else n
  }

  /** Year field: int16 increment, 2100 wraps to 2000. */
  function NextYear(y: int): (r: int)
    ensures r < 2100
    ensures 2000 <= y < 2099 ==> r == y + 1
    ensures y == 2099 ==> r == 2000
  {
    var n := I16(y + 1);
    if n >= 2100 then 2000 else n
  }

  /** Month field: uint8 increment, 13 wraps to 1. */
  function NextMonth(mo: int): (r: int)
    ensures 0 <= r <= 12
    ensures 0 <= mo < 255 ==> 1 <= r
    ensures 0 <= mo < 12 ==> r == mo + 1
    ensures mo == 12 ==> r == 1
  {
    var n := U8(mo + 1);
    if n > 12 then 1 else n
  }

  /** Day field: uint8 increment, 32 wraps to 1 (the month's length is not consulted). */
  function NextDay(d: int): (r: int)
    ensures 0 <= r <= 31
    ensures 0 <= d < 255 ==> 1 <= r
    ensures 0 <= d < 31 ==> r == d + 1
    ensures d == 31 ==> r == 1
  {
    var n := U8(d + 1);
    if n > 31 then 1 else n
  }

  /** Zone index: uint8 increment, wrapping to 0 at the catalog size. */
  function NextZoneIndex(z: int, numZones: int): (r: int)
    ensures 0 <= r && (r < numZones || r == 0)
    ensures 0 <= z && z + 1 < numZones && numZones <= 256 ==> r == z + 1
    ensures 0 < numZones <= 256 && z == numZones - 1 ==> r == 0
  {
    var n := U8(z + 1);
    if n >= numZones then 0 else n
  }

  /** Brightness: uint8 increment, 8 wraps to 0. */
  function NextBrightness(b: int): (r: int)
    ensures 0 <= r < 8
    ensures 0 <= b < 7 ==> r == b + 1
    ensures b == 7 ==> r == 0
  {
    var n := U8(b + 1);
    if n >= 8 then 0 else n
  }

  /** Each edited field returns to its value after one full round of presses, and not before. */
  lemma HourPeriod(h: int)
    requires 0 <= h < 24
    ensures Iterate(NextHour, h, 24) == h
  {
    CounterPeriod(NextHour, 0, 24, h);
  }

  lemma MinuteOrSecondPeriod(x: int)
    requires 0 <= x < 60
    ensures Iterate(NextMinuteOrSecond, x, 60) == x
  {
    CounterPeriod(NextMinuteOrSecond, 0, 60, x);
  }

  lemma YearPeriod(y: int)
    requires 2000 <= y < 2100
    ensures Iterate(NextYear, y, 100) == y
  {
    CounterPeriod(NextYear, 2000, 2100, y);
  }

  lemma MonthPeriod(mo: int)
    requires 1 <= mo <= 12
    ensures Iterate(NextMonth, mo, 12) == mo
  {
    CounterPeriod(NextMonth, 1, 13, mo);
  }

  lemma DayPeriod(d: int)
    requires 1 <= d <= 31
    ensures Iterate(NextDay, d, 31) == d
  {
    CounterPeriod(NextDay, 1, 32, d);
  }

  lemma BrightnessPeriod(b: int)
    requires 0 <= b < 8
    ensures Iterate(NextBrightness, b, 8) == b
  {
    CounterPeriod(NextBrightness, 0, 8, b);
  }

  /** The zone index returns after as many presses as the catalog has zones. */
  lemma ZoneIndexPeriod(z: int, numZones: int)
    requires 0 <= z < numZones <= 256
    ensures Iterate((x: int) => NextZoneIndex(x, numZones), z, numZones) == z
  {
    CounterPeriod((x: int) => NextZoneIndex(x, numZones), 0, numZones, z);
  }

  /** The scratch snapshot after a change press in mode m: only m's field moves. */
  function Incremented(info: ClockInfo, m: ClockMode, numZones: int): (r: ClockInfo)
    ensures !IsChangeMode(m) ==> r == info
    ensures m == ChangeHour ==> r == info.(dateTime := info.dateTime.(hour := NextHour(info.dateTime.hour)))
    ensures m == ChangeMinute ==> r == info.(dateTime := info.dateTime.(minute := NextMinuteOrSecond(info.dateTime.minute)))
    ensures m == ChangeSecond ==> r == info.(dateTime := info.dateTime.(second := NextMinuteOrSecond(info.dateTime.second)))
    ensures m == ChangeYear ==> r == info.(dateTime := info.dateTime.(year := NextYear(info.dateTime.year)))
    ensures m == ChangeMonth ==> r == info.(dateTime := info.dateTime.(month := NextMonth(info.dateTime.month)))
    ensures m == ChangeDay ==> r == info.(dateTime := info.dateTime.(day := NextDay(info.dateTime.day)))
    ensures m == ChangeTimeZone ==> r == info.(zoneIndex := NextZoneIndex(info.zoneIndex, numZones))
    ensures m == ChangeBrightness ==> r == info.(brightness := NextBrightness(info.brightness))
  {
    var dt := info.dateTime;
    match m
    case ChangeHour => info.(dateTime := dt.(hour := NextHour(dt.hour)))
    case ChangeMinute => info.(dateTime := dt.(minute := NextMinuteOrSecond(dt.minute)))
    case ChangeSecond => info.(dateTime := dt.(second := NextMinuteOrSecond(dt.second)))
    case ChangeYear => info.(dateTime := dt.(year := NextYear(dt.year)))
    case ChangeMonth => info.(dateTime := dt.(month := NextMonth(dt.month)))
    case ChangeDay => info.(dateTime := dt.(day := NextDay(dt.day)))
    case ChangeTimeZone => info.(zoneIndex := NextZoneIndex(info.zoneIndex, numZones))
    case ChangeBrightness => info.(brightness := NextBrightness(info.brightness))
    case _ => info
  }

  /**
   * saveClockInfo's new committed snapshot: the scratch snapshot, except
   * that after a zone change the date-time is the old committed instant
   * re-expressed in the new zone.
   */
  function Committed(curr: ClockInfo, changing: ClockInfo, zones: seq<Zone>, lib: TimeLib): (r: ClockInfo)
    requires 0 <= changing.zoneIndex < |zones|
    ensures r.(dateTime := changing.dateTime) == changing
    ensures curr.zoneIndex == changing.zoneIndex ==> r == changing
    ensures curr.zoneIndex != changing.zoneIndex ==>
      r.dateTime == lib.convertToTimeZone(curr.dateTime, zones[changing.zoneIndex].tz)
  {
    if curr.zoneIndex != changing.zoneIndex then
      changing.(dateTime := lib.convertToTimeZone(curr.dateTime, zones[changing.zoneIndex].tz))
    else
      changing
  }

  /** saveRTC's register image of a UTC date-time: year minus 2000 as uint8, century always 0. */
  function RtcDateTimeOf(udt: ZonedDateTime, lib: TimeLib): (r: RtcDateTime)
    ensures r.century == 0 && 0 <= r.year < 256
    ensures 2000 <= udt.year < 2256 ==> r.year == udt.year - 2000
    ensures (r.month, r.day, r.hour, r.minute, r.second) ==
            (udt.month, udt.day, udt.hour, udt.minute, udt.second)
  {
    RtcDateTime(U8(udt.year - 2000), udt.month, udt.day, udt.hour, udt.minute, udt.second,
                U8(lib.dayOfWeek(udt.year, udt.month, udt.day)), 0)
  }

  /** The UTC date-time SetupSystemTimeFromRTC reads back from a register image. */
  function RtcFields(dt: RtcDateTime): (int, int, int, int, int, int)
  {
    (2000 + dt.year, dt.month, dt.day, dt.hour, dt.minute, dt.second)
  }

  /** Writing the RTC and reading it back gives the same UTC fields, for years 2000 to 2255. */
  lemma RtcRoundTrip(udt: ZonedDateTime, lib: TimeLib)
    requires 2000 <= udt.year < 2256
    ensures RtcFields(RtcDateTimeOf(udt, lib)) ==
            (udt.year, udt.month, udt.day, udt.hour, udt.minute, udt.second)
  {
  }

  /** The effects of SetupSystemTimeFromRTC: nothing on a read error, else one clock adjustment. */
  function AdjustEffects(read: RtcRead, nowNanos: int, lib: TimeLib): (r: seq<Effect>)
    ensures read.RtcError? ==> r == []
    ensures read.RtcOk? ==> |r| == 1 && r[0].AdjustTimeOffset?
  {
    match read
    case RtcError => []
    case RtcOk(dt) =>
      var f := RtcFields(dt);
      [AdjustTimeOffset(lib.utcEpochSeconds(f.0, f.1, f.2, f.3, f.4, f.5) * 1_000_000_000 - nowNanos)]
  }

  class Controller {
    const zones: seq<Zone>
    const lib: TimeLib
    var currInfo: ClockInfo
    var changingInfo: ClockInfo
    /** The snapshot last handed to presenter.SetClockInfo. */
    var presented: ClockInfo
    var effects: seq<Effect>

    ghost predicate Valid()
      reads this
    {
      |zones| > 0 &&
      0 <= currInfo.zoneIndex < |zones| &&
      0 <= changingInfo.zoneIndex < |zones|
    }

    /** The snapshot updatePresenter hands over: the scratch one exactly in the eight edit modes. */
    function Displayed(): (r: ClockInfo)
      reads this
    {
      if IsChangeMode(currInfo.clockMode) then changingInfo else currInfo
    }

    /** NewController: 24-hour mode, ViewHourMinute, brightness 1; the scratch snapshot is zero. */
    constructor (zones: seq<Zone>, lib: TimeLib)
      requires |zones| > 0
      ensures Valid()
      ensures this.zones == zones && this.lib == lib
      ensures currInfo == ZeroInfo.(hourMode := HourMode24, clockMode := ViewHourMinute, brightness := 1)
      ensures changingInfo == ZeroInfo && presented == ZeroInfo && effects == []
    {
      this.zones := zones;
      this.lib := lib;
      currInfo := ZeroInfo.(hourMode := HourMode24, clockMode := ViewHourMinute, brightness := 1);
      changingInfo := ZeroInfo;
      presented := ZeroInfo;
      effects := [];
    }

    method UpdatePresenter()
      modifies this`presented
      ensures presented == Displayed()
    {
      if IsChangeMode(currInfo.clockMode) {
        presented := changingInfo;
      } else {
        presented := currInfo;
      }
    }

    /** Short press of Mode: next mode of the current ring, no data field changes. */
    method HandleModePress()
      requires Valid()
      modifies this`currInfo, this`changingInfo, this`presented
      ensures Valid()
      ensures currInfo == old(currInfo).(clockMode := NextMode(old(currInfo.clockMode)))
      ensures changingInfo == old(changingInfo).(clockMode := currInfo.clockMode)
      ensures presented == Displayed()
    {
      currInfo := currInfo.(clockMode := NextMode(currInfo.clockMode));
      changingInfo := changingInfo.(clockMode := currInfo.clockMode);
      UpdatePresenter();
    }

    method SaveRtc(info: ClockInfo)
      modifies this`effects
      ensures effects == old(effects) + [RtcWrite(RtcDateTimeOf(lib.convertToTimeZone(info.dateTime, lib.utc), lib))]
    {
      var udt := lib.convertToTimeZone(info.dateTime, lib.utc);
      // A failed write is only logged.
      effects := effects + [RtcWrite(RtcDateTimeOf(udt, lib))];
    }

    /** Reads the RTC (result `read`) and adjusts the system clock, whose time is `nowNanos`. */
    method SetupSystemTimeFromRtc(read: RtcRead, nowNanos: int)
      modifies this`effects
      ensures effects == old(effects) + AdjustEffects(read, nowNanos, lib)
    {
      if read.RtcError? {
        return;
      }
      var f := RtcFields(read.dt);
      var nowRtc := lib.utcEpochSeconds(f.0, f.1, f.2, f.3, f.4, f.5);
      effects := effects + [AdjustTimeOffset(nowRtc * 1_000_000_000 - nowNanos)];
    }

    method SaveClockInfo(read: RtcRead, nowNanos: int)
      requires Valid()
      modifies this`currInfo, this`effects
      ensures Valid()
      ensures currInfo == Committed(old(currInfo), old(changingInfo), zones, lib)
      ensures effects == old(effects)
        + [RtcWrite(RtcDateTimeOf(lib.convertToTimeZone(currInfo.dateTime, lib.utc), lib))]
        + AdjustEffects(read, nowNanos, lib)
    {
      if currInfo.zoneIndex != changingInfo.zoneIndex {
        var newTz := zones[changingInfo.zoneIndex].tz;
        var newZdt := lib.convertToTimeZone(currInfo.dateTime, newTz);
        currInfo := changingInfo;
        currInfo := currInfo.(dateTime := newZdt);
      } else {
        currInfo := changingInfo;
      }
      SaveRtc(currInfo);
      SetupSystemTimeFromRtc(read, nowNanos);
    }

    /**
     * Long press of Mode: from a view with an edit counterpart, enter the edit
     * with a fresh copy of the committed snapshot; from an edit, commit and
     * return to the view; otherwise stay. `read` and `nowNanos` are what the
     * RTC and system clock give during the commit.
     */
    method HandleModeLongPress(read: RtcRead, nowNanos: int)
      requires Valid()
      modifies this`currInfo, this`changingInfo, this`presented, this`effects
      ensures Valid()
      ensures currInfo.clockMode == LongPressMode(old(currInfo.clockMode))
      ensures changingInfo.clockMode == currInfo.clockMode
      ensures HasEditMode(old(currInfo.clockMode)) ==>
        currInfo == old(currInfo).(clockMode := currInfo.clockMode) &&
        changingInfo == currInfo && effects == old(effects)
      ensures IsChangeMode(old(currInfo.clockMode)) ==>
        currInfo == Committed(old(currInfo), old(changingInfo), zones, lib).(clockMode := currInfo.clockMode) &&
        changingInfo == old(changingInfo).(clockMode := currInfo.clockMode) &&
        effects == old(effects)
          + [RtcWrite(RtcDateTimeOf(lib.convertToTimeZone(currInfo.dateTime, lib.utc), lib))]
          + AdjustEffects(read, nowNanos, lib)
      ensures !HasEditMode(old(currInfo.clockMode)) && !IsChangeMode(old(currInfo.clockMode)) ==>
        currInfo == old(currInfo) &&
        changingInfo == old(changingInfo).(clockMode := currInfo.clockMode) &&
        effects == old(effects)
      ensures presented == Displayed()
    {
      var m := currInfo.clockMode;
      if HasEditMode(m) {
        currInfo := currInfo.(clockMode := LongPressMode(m));
        changingInfo := currInfo;
      } else if IsChangeMode(m) {
        SaveClockInfo(read, nowNanos);
        currInfo := currInfo.(clockMode := LongPressMode(m));
      }
      changingInfo := changingInfo.(clockMode := currInfo.clockMode);
      UpdatePresenter();
    }

    /** Press of Change: suppress blinking and advance the edited field of the scratch snapshot. */
    method HandleChangePress()
      requires Valid()
      modifies this`currInfo, this`changingInfo, this`presented, this`effects
      ensures Valid()
      ensures currInfo == old(currInfo).(blinkSuppressed := true)
      ensures changingInfo ==
        Incremented(old(changingInfo), currInfo.clockMode, |zones|)
          .(blinkSuppressed := true, clockMode := currInfo.clockMode)
      ensures presented == Displayed()
      ensures effects == old(effects) + [FlushLedModule]
    {
      currInfo := currInfo.(blinkSuppressed := true);
      changingInfo := changingInfo.(blinkSuppressed := true);
      changingInfo := Incremented(changingInfo, currInfo.clockMode, |zones|);
      changingInfo := changingInfo.(clockMode := currInfo.clockMode);
      UpdatePresenter();
      effects := effects + [FlushLedModule];
    }

    /** Release of Change: blinking resumes; the presenter is not told. */
    method HandleChangeRelease()
      requires Valid()
      modifies this`currInfo, this`changingInfo
      ensures Valid()
      ensures currInfo == old(currInfo).(blinkSuppressed := false)
      ensures changingInfo == old(changingInfo).(blinkSuppressed := false)
    {
      currInfo := currInfo.(blinkSuppressed := false);
      changingInfo := changingInfo.(blinkSuppressed := false);
    }

    /** SyncSystemTime: the committed date-time becomes the system time `nowSeconds` in the current zone. */
    method SyncSystemTime(nowSeconds: int)
      requires Valid()
      modifies this`currInfo, this`presented
      ensures Valid()
      ensures currInfo == old(currInfo).(dateTime :=
        lib.forEpochSeconds(nowSeconds, zones[old(currInfo.zoneIndex)].tz))
      ensures presented == Displayed()
    {
      var tz := zones[currInfo.zoneIndex].tz;
      currInfo := currInfo.(dateTime := lib.forEpochSeconds(nowSeconds, tz));
      UpdatePresenter();
    }

    /** Blink: both snapshots flip their show state. */
    method Blink()
      requires Valid()
      modifies this`currInfo, this`changingInfo, this`presented
      ensures Valid()
      ensures currInfo == old(currInfo).(blinkShowState := !old(currInfo.blinkShowState))
      ensures changingInfo == old(changingInfo).(blinkShowState := !old(changingInfo.blinkShowState))
      ensures presented == Displayed()
    {
      currInfo := currInfo.(blinkShowState := !currInfo.blinkShowState);
      changingInfo := changingInfo.(blinkShowState := !changingInfo.blinkShowState);
      UpdatePresenter();
    }

    /** ReadTemp: on a sensor error nothing changes, not even the presenter's snapshot. */
    method ReadTemp(read: TempRead)
      requires Valid()
      modifies this`currInfo, this`presented
      ensures Valid()
      ensures read.TempError? ==> currInfo == old(currInfo) && presented == old(presented)
      ensures read.TempOk? ==>
        currInfo == old(currInfo).(tempCentiC := read.centiC, tempCentiF := read.centiF) &&
        presented == Displayed()
    {
      if read.TempError? {
        return;
      }
      currInfo := currInfo.(tempCentiC := read.centiC, tempCentiF := read.centiF);
      UpdatePresenter();
    }
  }
}
