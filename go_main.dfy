/**
 * The main loop of the earlier Go LED clock (main.go): package globals
 * become fields of one MainLoop object, and each of the loop's tasks runs
 * only when its uint16 millisecond timer says enough time has passed.
 * The mode numbers follow the order of updateDisplay's cases.
 */
module GoMain {
  import opened Widths
  import opened AceTime
  import opened Cycles
  import opened Display
  import opened Ds3231
  import opened Blink

  const ModeYear := 0
  const ModeMonth := 1
  const ModeDay := 2
  const ModeHourMinute := 3
  const ModeSecond := 4
  const NumModes := 5
  const HourMode24 := 1

  const FlushIntervalMillis := 100
  const RtcIntervalMillis := 100
  const ButtonIntervalMillis := 5

  datatype MainInfo = MainInfo(hourMode: int, clockMode: int, brightness: int, dateTime: ZonedDateTime)

  const ZeroMainInfo := MainInfo(0, 0, 0, ZeroDateTime)
  const InitialInfo := MainInfo(HourMode24, ModeHourMinute, 1, ZeroDateTime)

  datatype Pin = ModePin | ChangePin
  datatype ButtonEvent = Pressed | Released | LongPressed | RepeatPressed | LongReleased | Clicked | DoubleClicked
  /** What one Check() of a button reported: nothing, or one event. */
  datatype Polled = NoEvent | Fired(event: ButtonEvent)

  datatype Effect = ModuleClear | ModuleFlush | RtcWrite(dt: RtcDateTime)

  /** The date setupRTC writes at every start: 2023-02-24 11:21:00, weekday 5. */
  const SetupRtcDateTime := RtcDateTime(23, 2, 24, 11, 21, 0, 5, 0)

  /** A throttled task runs when more than threshold ms have passed, as measured in uint16. */
  predicate Due(nowMillis: int, lastMillis: int, threshold: int)
  {
    Elapsed(nowMillis, lastMillis) > threshold
  }

  /** A task that has just run is not due again at the same instant, nor before threshold ms. */
  lemma NotDueRightAfter(t: int, d: int, threshold: int)
    requires 0 <= d <= threshold < 65536
    ensures !Due(t + d, U16(t), threshold)
  {
    ElapsedAcrossWrap(t, d);
  }

  /** It is due once more than threshold ms (and less than 65536 ms) have passed, across any wrap. */
  lemma DueAfterInterval(t: int, d: int, threshold: int)
    requires 0 <= threshold < d < 65536
    ensures Due(t + d, U16(t), threshold)
  {
    ElapsedAcrossWrap(t, d);
  }

  /** nextClockMode: uint8(clockMode + 1) % 5. */
  function NextClockMode(m: int): (r: int)
    ensures 0 <= r < NumModes
    ensures 0 <= m < NumModes - 1 ==> r == m + 1
    ensures m == NumModes - 1 ==> r == 0
  {
    U8(m + 1) % NumModes
  }

  /** Five mode presses return to the starting mode, and no fewer do. */
  lemma ModeCyclePeriod(m: int)
    requires 0 <= m < NumModes
    ensures Iterate(NextClockMode, m, NumModes) == m
    ensures forall k :: 0 < k < NumModes ==> Iterate(NextClockMode, m, k) != m
  {
    CounterPeriod(NextClockMode, 0, NumModes, m);
  }

  /** Two blanks and a two-digit value at the right. */
  function RightDec2(v: int): seq<Op>
  {
    [WriteHexCharAt(0, Space), WriteHexCharAt(1, Space), WriteDec2At(2, v, Hex(0))]
  }

  /** The writes of updateDisplay for a snapshot; a mode outside 0..4 draws nothing. */
  function Frame(info: MainInfo): (r: seq<Op>)
    ensures !(0 <= info.clockMode < NumModes) ==> r == []
    ensures 0 <= info.clockMode < NumModes ==> r != []
  {
    var dt := info.dateTime;
    if info.clockMode == ModeYear then [WriteDec4At(0, U16(dt.year), Hex(0))]
    else if info.clockMode == ModeMonth then RightDec2(dt.month)
    else if info.clockMode == ModeDay then RightDec2(dt.day)
    else if info.clockMode == ModeHourMinute then [WriteHourMinute24(dt.hour, dt.minute)]
    else if info.clockMode == ModeSecond then RightDec2(dt.second) + [WriteColon(true)]
    else []
  }

  /** The local year syncRTC builds: 2000 + int16(dt.Year), itself an int16. */
  function RtcYear(dt: RtcDateTime): (y: int)
    ensures 0 <= dt.year < 256 ==> y == 2000 + dt.year
  {
    I16(2000 + I16(dt.year))
  }

  class MainLoop {
    const lib: TimeLib
    /** The zone of America/Los_Angeles. */
    const tz: TimeZone
    var clockInfo: MainInfo
    var prevClockInfo: MainInfo
    var lastFlushMillis: int
    var lastRtcMillis: int
    var lastButtonMillis: int
    /** Calls on the number writer, in order. */
    var ops: seq<Op>
    /** Calls on the LED module and the RTC, in order. */
    var effects: seq<Effect>

    ghost predicate Valid()
      reads this
    {
      0 <= lastFlushMillis < 65536 &&
      0 <= lastRtcMillis < 65536 &&
      0 <= lastButtonMillis < 65536
    }

    constructor (lib: TimeLib, tz: TimeZone)
      ensures Valid()
      ensures this.lib == lib && this.tz == tz
      ensures clockInfo == InitialInfo && prevClockInfo == ZeroMainInfo
      ensures lastFlushMillis == 0 && lastRtcMillis == 0 && lastButtonMillis == 0
      ensures ops == [] && effects == []
    {
      this.lib := lib;
      this.tz := tz;
      clockInfo := InitialInfo;
      prevClockInfo := ZeroMainInfo;
      lastFlushMillis := 0;
      lastRtcMillis := 0;
      lastButtonMillis := 0;
      ops := [];
      effects := [];
    }

    /** setupDisplay and setupRTC, then the first flush of main(). */
    method Setup()
      modifies this`effects
      ensures effects == old(effects) + [ModuleClear, RtcWrite(SetupRtcDateTime), ModuleFlush]
    {
      effects := effects + [ModuleClear];
      effects := effects + [RtcWrite(SetupRtcDateTime)];
      effects := effects + [ModuleFlush];
    }

    method FlushDisplay(nowMillis: int)
      requires Valid()
      modifies this`lastFlushMillis, this`effects
      ensures Valid()
      ensures Due(nowMillis, old(lastFlushMillis), FlushIntervalMillis) ==>
        lastFlushMillis == U16(nowMillis) && effects == old(effects) + [ModuleFlush]
      ensures !Due(nowMillis, old(lastFlushMillis), FlushIntervalMillis) ==>
        lastFlushMillis == old(lastFlushMillis) && effects == old(effects)
    {
      var millis := U16(nowMillis);
      if U16(millis - lastFlushMillis) > FlushIntervalMillis {
        lastFlushMillis := millis;
        effects := effects + [ModuleFlush];
      }
    }

    method UpdateDisplay()
      modifies this`prevClockInfo, this`ops
      ensures old(prevClockInfo) == clockInfo ==> prevClockInfo == old(prevClockInfo) && ops == old(ops)
      ensures old(prevClockInfo) != clockInfo ==> prevClockInfo == clockInfo && ops == old(ops) + Frame(clockInfo)
    {
      if prevClockInfo == clockInfo {
        return;
      }
      prevClockInfo := clockInfo;
      ops := ops + Frame(clockInfo);
    }

    /**
     * syncRTC: when due, the timer restarts before the RTC is read, so a
     * read error waits a full interval too.
     */
    method SyncRtc(nowMillis: int, read: RtcRead)
      requires Valid()
      modifies this`lastRtcMillis, this`clockInfo, this`prevClockInfo, this`ops
      ensures Valid()
      ensures !Due(nowMillis, old(lastRtcMillis), RtcIntervalMillis) ==>
        lastRtcMillis == old(lastRtcMillis) && clockInfo == old(clockInfo) &&
        prevClockInfo == old(prevClockInfo) && ops == old(ops)
      ensures Due(nowMillis, old(lastRtcMillis), RtcIntervalMillis) ==> lastRtcMillis == U16(nowMillis)
      ensures Due(nowMillis, old(lastRtcMillis), RtcIntervalMillis) && read.RtcError? ==>
        clockInfo == old(clockInfo) && prevClockInfo == old(prevClockInfo) && ops == old(ops)
      ensures Due(nowMillis, old(lastRtcMillis), RtcIntervalMillis) && read.RtcOk? ==>
        clockInfo == old(clockInfo).(dateTime := lib.forLocalDateTime(RtcYear(read.dt),
          read.dt.month, read.dt.day, read.dt.hour, read.dt.minute, read.dt.second, tz)) &&
        (old(prevClockInfo) == clockInfo ==> prevClockInfo == old(prevClockInfo) && ops == old(ops)) &&
        (old(prevClockInfo) != clockInfo ==> prevClockInfo == clockInfo && ops == old(ops) + Frame(clockInfo))
    {
      var millis := U16(nowMillis);
      if U16(millis - lastRtcMillis) > RtcIntervalMillis {
        lastRtcMillis := millis;
        if read.RtcError? {
          return;
        }
        var dt := read.dt;
        clockInfo := clockInfo.(dateTime := lib.forLocalDateTime(RtcYear(dt),
          dt.month, dt.day, dt.hour, dt.minute, dt.second, tz));
        UpdateDisplay();
      }
    }

    method NextMode()
      modifies this`clockInfo
      ensures clockInfo == old(clockInfo).(clockMode := NextClockMode(old(clockInfo.clockMode)))
    {
      clockInfo := clockInfo.(clockMode := NextClockMode(clockInfo.clockMode));
    }

    /** Only a release of the Mode button does anything: it moves to the next mode. */
    method Handle(pin: Pin, event: ButtonEvent)
      modifies this`clockInfo
      ensures pin == ModePin && event == Released ==>
        clockInfo == old(clockInfo).(clockMode := NextClockMode(old(clockInfo.clockMode)))
      ensures !(pin == ModePin && event == Released) ==> clockInfo == old(clockInfo)
    {
      if pin == ModePin && event == Released {
        NextMode();
      }
    }

    /** checkButtons: when due, poll the Mode button and then the Change button. */
    method CheckButtons(nowMillis: int, modePolled: Polled, changePolled: Polled)
      requires Valid()
      modifies this`lastButtonMillis, this`clockInfo
      ensures Valid()
      ensures !Due(nowMillis, old(lastButtonMillis), ButtonIntervalMillis) ==>
        lastButtonMillis == old(lastButtonMillis) && clockInfo == old(clockInfo)
      ensures Due(nowMillis, old(lastButtonMillis), ButtonIntervalMillis) ==>
        lastButtonMillis == U16(nowMillis) &&
        clockInfo == old(clockInfo).(clockMode :=
          if modePolled == Fired(Released) then NextClockMode(old(clockInfo.clockMode))
          else old(clockInfo.clockMode))
    {
      var millis := U16(nowMillis);
      if U16(millis - lastButtonMillis) > ButtonIntervalMillis {
        lastButtonMillis := millis;
        if modePolled.Fired? {
          Handle(ModePin, modePolled.event);
        }
        if changePolled.Fired? {
          Handle(ChangePin, changePolled.event);
        }
      }
    }
  }
}
