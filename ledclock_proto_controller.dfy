/**
 * The Controller of the LED clock prototype at the top of the repository
 * (Controller.h): a flat Mode enum walked by switch statements, six view
 * modes and five date-time edit modes, a committed ClockInfo and a scratch
 * copy that the edits change, a blink timer, and the rendering info handed
 * to the presenter.
 *
 * The clock's setNow() calls, the EEPROM writes and the presenter's
 * display() calls are kept as traces; the current epoch seconds and
 * millis() are parameters of the operations that read them.
 */
module LedClockProtoController {
  import opened AceTime
  import opened Cycles
  import Blink

  /** The MODE_* constants the prototype switches on. */
  datatype Mode =
    | Unknown
    | HourMinute | MinuteSecond | Year | Month | Day | Weekday
    | ChangeYear | ChangeMonth | ChangeDay | ChangeHour | ChangeMinute | ChangeSecond
    | ChangeTimeZoneOffset | ChangeTimeZoneDst | ChangeHourMode

  /** The six view modes. */
  predicate IsView(m: Mode)
  {
    m in {HourMinute, MinuteSecond, Year, Month, Day, Weekday}
  }

  /** The five edit modes that the buttons reach and whose field a change press increments. */
  predicate IsFieldEdit(m: Mode)
  {
    m in {ChangeHour, ChangeMinute, ChangeYear, ChangeMonth, ChangeDay}
  }

  /** The date-time edits of updateDateTime's switch, whose seconds follow the clock. */
  predicate IsDateTimeEdit(m: Mode)
  {
    m in {ChangeYear, ChangeMonth, ChangeDay, ChangeHour, ChangeMinute, ChangeSecond}
  }

  /** The modes of changeButtonRelease's switch. */
  predicate ReleaseClears(m: Mode)
  {
    IsDateTimeEdit(m) || m == ChangeTimeZoneOffset
  }

  /** The modes of updateRenderingInfo's switch, which show the scratch snapshot. */
  predicate ShowsScratch(m: Mode)
  {
    IsDateTimeEdit(m) || m in {ChangeTimeZoneOffset, ChangeTimeZoneDst, ChangeHourMode}
  }

  /** The hour mode, the zone and the current time. */
  datatype ClockInfo = ClockInfo(hourMode: int, timeZone: TimeZone, dateTime: ZonedDateTime)

  const ZeroClockInfo := ClockInfo(0, ZeroTimeZone, ZeroDateTime)

  /** ClockInfo::kTwentyFour. */
  const TwentyFour := 1

  /** What the EEPROM keeps: the hour mode and the zone. */
  datatype StoredInfo = StoredInfo(hourMode: int, timeZone: TimeZone)

  /** readWithCrc(): a record that passed the CRC check, or none. */
  datatype StoreRead = StoreOk(stored: StoredInfo) | StoreBad

  /** storedInfoFromClockInfo: the two persisted fields of a snapshot. */
  function StoredOf(c: ClockInfo): (st: StoredInfo)
    ensures st.hourMode == c.hourMode && st.timeZone == c.timeZone
  {
    StoredInfo(c.hourMode, c.timeZone)
  }

  /** clockInfoFromStoredInfo: the two persisted fields replaced, the time kept. */
  function WithStored(c: ClockInfo, st: StoredInfo): (r: ClockInfo)
    ensures StoredOf(r) == st && r.dateTime == c.dateTime
  {
    c.(hourMode := st.hourMode, timeZone := st.timeZone)
  }

  /** A snapshot restored from its own record is the snapshot. */
  lemma StoredRoundTrip(c: ClockInfo)
    ensures WithStored(c, StoredOf(c)) == c
  {
  }

  /** setRenderingInfo's arguments: the mode, the blink flag and the snapshot to draw. */
  datatype Handover = Handover(mode: Mode, blinkShowState: bool, clockInfo: ClockInfo)

  const ZeroHandover := Handover(Unknown, false, ZeroClockInfo)

  /** modeButtonPress's switch: the view ring and the edit ring; other modes stay. */
  function NextMode(m: Mode): Mode
  {
    match m
    case HourMinute => MinuteSecond
    case MinuteSecond => Year
    case Year => Month
    case Month => Day
    case Day => Weekday
    case Weekday => HourMinute
    case ChangeHour => ChangeMinute
    case ChangeMinute => ChangeYear
    case ChangeYear => ChangeMonth
    case ChangeMonth => ChangeDay
    case ChangeDay => ChangeHour
    case _ => m
  }

  const ViewCycle := [HourMinute, MinuteSecond, Year, Month, Day, Weekday]
  const EditCycle := [ChangeHour, ChangeMinute, ChangeYear, ChangeMonth, ChangeDay]

  /** Six presses bring a view back, and no fewer do. */
  lemma ViewCyclePeriod(i: nat)
    requires i < |ViewCycle|
    ensures Iterate(NextMode, ViewCycle[i], 6) == ViewCycle[i]
    ensures forall k :: 0 < k < 6 ==> Iterate(NextMode, ViewCycle[i], k) != ViewCycle[i]
  {
    assert AdvancesAlong(NextMode, ViewCycle);
    RingExactPeriod(NextMode, ViewCycle, i);
  }

  /** Five presses bring an edit field back, and no fewer do. */
  lemma EditCyclePeriod(i: nat)
    requires i < |EditCycle|
    ensures Iterate(NextMode, EditCycle[i], 5) == EditCycle[i]
    ensures forall k :: 0 < k < 5 ==> Iterate(NextMode, EditCycle[i], k) != EditCycle[i]
  {
    assert AdvancesAlong(NextMode, EditCycle);
    RingExactPeriod(NextMode, EditCycle, i);
  }

  /**
   * modeButtonLongPress's mode: a view enters the edit of its first field
   * (MINUTE_SECOND the minute), WEEKDAY has none; an edit goes back to its
   * view, the hour and the minute both to HOUR_MINUTE.
   */
  function LongPressMode(m: Mode): (r: Mode)
    ensures IsView(m) && m != Weekday ==> IsFieldEdit(r)
    ensures IsFieldEdit(m) ==> IsView(r) && r != Weekday
    ensures !IsFieldEdit(m) && (!IsView(m) || m == Weekday) ==> r == m
  {
    match m
    case HourMinute => ChangeHour
    case MinuteSecond => ChangeMinute
    case Year => ChangeYear
    case Month => ChangeMonth
    case Day => ChangeDay
    case ChangeYear => Year
    case ChangeMonth => Month
    case ChangeDay => Day
    case ChangeHour => HourMinute
    case ChangeMinute => HourMinute
    case _ => m
  }

  /**
   * Two long presses come back to the view they left, except from
   * MINUTE_SECOND, whose minute edit returns to HOUR_MINUTE.
   */
  lemma LongPressRoundTrip(m: Mode)
    requires IsView(m)
    ensures m != MinuteSecond ==> LongPressMode(LongPressMode(m)) == m
    ensures LongPressMode(LongPressMode(MinuteSecond)) == HourMinute
  {
  }

  /** The controller's fields as one value; the class below keeps them in place. */
  datatype Ctl = Ctl(
    mode: Mode, clockInfo: ClockInfo, changingInfo: ClockInfo,
    secondFieldCleared: bool, suppressBlink: bool, blink: Blink.Timer,
    presented: Handover, displayCalls: seq<Handover>,
    clockWrites: seq<int>, storeWrites: seq<StoredInfo>)

  /**
   * The buttons only reach the views and the five field edits, and nothing
   * ever sets mSecondFieldCleared; the blink timer's start is a uint16.
   */
  ghost predicate Inv(s: Ctl)
  {
    (IsView(s.mode) || IsFieldEdit(s.mode)) && !s.secondFieldCleared &&
    0 <= s.blink.cycleStartMillis < 65536
  }

  /** modeButtonPress: the next mode of the ring, nothing else. */
  function ModePressStep(s: Ctl): (r: Ctl)
    requires Inv(s)
    ensures Inv(r) && IsView(r.mode) == IsView(s.mode)
    ensures r == s.(mode := NextMode(s.mode))
  {
    s.(mode := NextMode(s.mode))
  }

  /**
   * modeButtonLongPress: from a view other than WEEKDAY the scratch snapshot
   * becomes a copy of the committed one; from an edit the clock is set to
   * the scratch date-time (not normalized) and the committed snapshot is
   * left alone.
   */
  function LongPressStep(lib: TimeLib, s: Ctl): (r: Ctl)
    requires Inv(s)
    ensures Inv(r) && r.mode == LongPressMode(s.mode)
    ensures IsView(s.mode) && s.mode != Weekday ==>
      r == s.(mode := r.mode, changingInfo := s.clockInfo, secondFieldCleared := false)
    ensures IsFieldEdit(s.mode) ==>
      r == s.(mode := r.mode, clockWrites := s.clockWrites + [lib.toEpochSeconds(s.changingInfo.dateTime)])
    ensures s.mode == Weekday ==> r == s
  {
    if IsFieldEdit(s.mode) then
      s.(mode := LongPressMode(s.mode), clockWrites := s.clockWrites + [lib.toEpochSeconds(s.changingInfo.dateTime)])
    else if s.mode == Weekday then s
    else s.(mode := LongPressMode(s.mode), changingInfo := s.clockInfo, secondFieldCleared := false)
  }

  /** The scratch date-time after one press in a field edit: that field moves on. */
  function IncrementField(lib: TimeLib, m: Mode, dt: ZonedDateTime): ZonedDateTime
  {
    match m
    case ChangeHour => lib.incrementHour(dt)
    case ChangeMinute => lib.incrementMinute(dt)
    case ChangeYear => lib.incrementYear(dt)
    case ChangeMonth => lib.incrementMonth(dt)
    case ChangeDay => lib.incrementDay(dt)
    case _ => dt
  }

  /**
   * changeButtonPress's switch: in a field edit the blink is held and only
   * the scratch date-time's field changes; in a view nothing changes.
   */
  function ChangeField(lib: TimeLib, s: Ctl): (r: Ctl)
    requires Inv(s)
    ensures Inv(r) && r.mode == s.mode
    ensures IsFieldEdit(s.mode) ==>
      r.suppressBlink &&
      r.changingInfo == s.changingInfo.(dateTime := IncrementField(lib, s.mode, s.changingInfo.dateTime)) &&
      r == s.(suppressBlink := true, changingInfo := r.changingInfo)
    ensures !IsFieldEdit(s.mode) ==> r == s
  {
    if IsFieldEdit(s.mode) then
      s.(suppressBlink := true,
         changingInfo := s.changingInfo.(dateTime := IncrementField(lib, s.mode, s.changingInfo.dateTime)))
    else s
  }

  /** changeButtonRelease: the blink resumes in the modes of its switch. */
  function ReleaseStep(s: Ctl): (r: Ctl)
    ensures ReleaseClears(s.mode) ==> r == s.(suppressBlink := false)
    ensures !ReleaseClears(s.mode) ==> r == s
  {
    if ReleaseClears(s.mode) then s.(suppressBlink := false) else s
  }

  /**
   * updateDateTime: the committed time is read from the clock in the
   * committed zone; in a date-time edit whose second was not cleared, the
   * scratch second follows it.
   */
  function DateTimeStep(lib: TimeLib, nowSeconds: int, s: Ctl): (r: Ctl)
    ensures r.clockInfo == s.clockInfo.(dateTime := lib.forEpochSeconds(nowSeconds, s.clockInfo.timeZone))
    ensures IsDateTimeEdit(s.mode) && !s.secondFieldCleared ==>
      r.changingInfo == s.changingInfo.(dateTime := WithSecond(s.changingInfo.dateTime, r.clockInfo.dateTime.second))
    ensures !IsDateTimeEdit(s.mode) || s.secondFieldCleared ==> r.changingInfo == s.changingInfo
    ensures r == s.(clockInfo := r.clockInfo, changingInfo := r.changingInfo)
  {
    var dt := lib.forEpochSeconds(nowSeconds, s.clockInfo.timeZone);
    var t := s.(clockInfo := s.clockInfo.(dateTime := dt));
    if IsDateTimeEdit(s.mode) && !s.secondFieldCleared then
      t.(changingInfo := t.changingInfo.(dateTime := t.changingInfo.dateTime.(second := dt.second)))
    else t
  }

  /** updateRenderingInfo: the scratch snapshot in its modes, the committed one otherwise; blinking is `suppress || show`. */
  function RenderStep(s: Ctl): (r: Ctl)
    ensures r.presented.mode == s.mode
    ensures r.presented.blinkShowState == (s.suppressBlink || s.blink.showState)
    ensures r.presented.clockInfo == if ShowsScratch(s.mode) then s.changingInfo else s.clockInfo
    ensures r == s.(presented := r.presented)
  {
    s.(presented := Handover(s.mode, s.suppressBlink || s.blink.showState,
                             if ShowsScratch(s.mode) then s.changingInfo else s.clockInfo))
  }

  /**
   * update: nothing in MODE_UNKNOWN; otherwise read the time, run the blink
   * timer, hand the presenter its info and call display().
   */
  function UpdateStep(lib: TimeLib, nowSeconds: int, nowMillis: int, s: Ctl): (r: Ctl)
    requires Inv(s)
    ensures Inv(r)
    ensures r.mode == s.mode && r.suppressBlink == s.suppressBlink && r.clockWrites == s.clockWrites &&
            r.storeWrites == s.storeWrites
    ensures r.blink == Blink.Update(s.blink, nowMillis)
    ensures r.clockInfo == s.clockInfo.(dateTime := lib.forEpochSeconds(nowSeconds, s.clockInfo.timeZone))
    ensures r.displayCalls == s.displayCalls + [r.presented]
    ensures r == RenderStep(DateTimeStep(lib, nowSeconds, s).(blink := r.blink)).(displayCalls := r.displayCalls)
  {
    if s.mode == Unknown then s
    else
      Blink.StartStaysInRange(s.blink, nowMillis);
      var t := RenderStep(DateTimeStep(lib, nowSeconds, s).(blink := Blink.Update(s.blink, nowMillis)));
      t.(displayCalls := t.displayCalls + [t.presented])
  }

  /**
   * mSecondFieldCleared is never set, so in every date-time edit the second
   * on the screen is the clock's current second.
   */
  lemma EditedSecondFollowsClock(lib: TimeLib, nowSeconds: int, nowMillis: int, s: Ctl)
    requires Inv(s) && IsFieldEdit(s.mode)
    ensures var r := UpdateStep(lib, nowSeconds, nowMillis, s);
      r.presented.clockInfo.dateTime.second == lib.forEpochSeconds(nowSeconds, s.clockInfo.timeZone).second &&
      r.presented.clockInfo.dateTime.(second := s.changingInfo.dateTime.second) == s.changingInfo.dateTime
  {
  }

  /**
   * The presenter sees what the mode edits: in a field edit, the scratch
   * snapshot with the edited field moved on and the blink held, whatever the
   * blink timer says.
   */
  lemma PressIsShownAtOnce(lib: TimeLib, nowSeconds: int, nowMillis: int, s: Ctl)
    requires Inv(s) && IsFieldEdit(s.mode)
    ensures var r := UpdateStep(lib, nowSeconds, nowMillis, ChangeField(lib, s));
      var shown := r.presented.clockInfo;
      r.presented.blinkShowState &&
      shown.timeZone == s.changingInfo.timeZone && shown.hourMode == s.changingInfo.hourMode &&
      shown.dateTime == WithSecond(IncrementField(lib, s.mode, s.changingInfo.dateTime),
                                   lib.forEpochSeconds(nowSeconds, s.clockInfo.timeZone).second)
  {
  }

  /** A press and its release in a field edit leave the blink running again. */
  lemma PressReleaseUnsuppresses(lib: TimeLib, s: Ctl)
    requires Inv(s) && IsFieldEdit(s.mode)
    ensures !ReleaseStep(ChangeField(lib, s)).suppressBlink
  {
  }

  /**
   * Entering an edit and leaving it straight away sets the clock to the
   * time on the screen when the edit was entered, and returns to a view.
   */
  lemma EnterAndLeaveWritesShownTime(lib: TimeLib, s: Ctl)
    requires Inv(s) && IsView(s.mode) && s.mode != Weekday
    ensures var r := LongPressStep(lib, LongPressStep(lib, s));
      IsView(r.mode) &&
      r.clockWrites == s.clockWrites + [lib.toEpochSeconds(s.clockInfo.dateTime)] &&
      r.clockInfo == s.clockInfo && r.storeWrites == s.storeWrites
  {
  }

  /**
   * setup's restore: a valid stored record supplies the hour mode and the
   * zone; otherwise the defaults (24-hour, the initial zone) are set and
   * written.
   */
  function RestoreStep(initialTimeZone: TimeZone, read: StoreRead, s: Ctl): (r: Ctl)
    ensures read.StoreOk? ==> r == s.(clockInfo := WithStored(s.clockInfo, read.stored))
    ensures read.StoreBad? ==>
      r.clockInfo == s.clockInfo.(hourMode := TwentyFour, timeZone := initialTimeZone) &&
      r == s.(clockInfo := r.clockInfo, storeWrites := s.storeWrites + [StoredInfo(TwentyFour, initialTimeZone)])
  {
    if read.StoreOk? then s.(clockInfo := WithStored(s.clockInfo, read.stored))
    else
      var info := s.clockInfo.(hourMode := TwentyFour, timeZone := initialTimeZone);
      s.(clockInfo := info, storeWrites := s.storeWrites + [StoredOf(info)])
  }

  /**
   * The record written on a first boot restores the same hour mode and
   * zone on the next boot.
   */
  lemma FirstBootSurvivesReboot(initialTimeZone: TimeZone, s: Ctl, t: Ctl)
    ensures var first := RestoreStep(initialTimeZone, StoreBad, s);
      var written := first.storeWrites[|first.storeWrites| - 1];
      StoredOf(RestoreStep(initialTimeZone, StoreOk(written), t).clockInfo) == StoredOf(first.clockInfo)
  {
  }

  /** The state after construction. */
  const InitialCtl := Ctl(HourMinute, ZeroClockInfo, ZeroClockInfo, false, false, Blink.Timer(true, 0),
                          ZeroHandover, [], [], [])

  class Controller {
    const lib: TimeLib
    const initialTimeZone: TimeZone

    var mode: Mode
    var clockInfo: ClockInfo
    var changingInfo: ClockInfo
    var secondFieldCleared: bool
    var suppressBlink: bool
    var blinkShowState: bool
    var blinkCycleStartMillis: int
    /** The arguments of the last setRenderingInfo() call. */
    var presented: Handover
    /** The presenter's display() calls, each with the info it then held. */
    var displayCalls: seq<Handover>
    /** The clock's setNow() calls, in epoch seconds. */
    var clockWrites: seq<int>
    /** The records written to the EEPROM. */
    var storeWrites: seq<StoredInfo>

    function State(): Ctl
      reads this
    {
      Ctl(mode, clockInfo, changingInfo, secondFieldCleared, suppressBlink,
          Blink.Timer(blinkShowState, blinkCycleStartMillis), presented, displayCalls, clockWrites, storeWrites)
    }

    ghost predicate Valid()
      reads this
    {
      Inv(State())
    }

    /** A statically allocated controller: MODE_HOUR_MINUTE, the flags false, the blink shown. */
    constructor (lib: TimeLib, initialTimeZone: TimeZone)
      ensures Valid()
      ensures this.lib == lib && this.initialTimeZone == initialTimeZone
      ensures State() == InitialCtl
    {
      this.lib := lib;
      this.initialTimeZone := initialTimeZone;
      mode := HourMinute;
      clockInfo := ZeroClockInfo;
      changingInfo := ZeroClockInfo;
      secondFieldCleared := false;
      suppressBlink := false;
      blinkShowState := true;
      blinkCycleStartMillis := 0;
      presented := ZeroHandover;
      displayCalls := [];
      clockWrites := [];
      storeWrites := [];
    }

    /** setup: restore the stored info, or write the defaults; then read the time. */
    method Setup(read: StoreRead, nowSeconds: int)
      requires Valid()
      modifies this
      ensures Valid()
      ensures State() == DateTimeStep(lib, nowSeconds, RestoreStep(initialTimeZone, read, old(State())))
    {
      if read.StoreOk? {
        clockInfo := WithStored(clockInfo, read.stored);
      } else {
        SetupClockInfo();
        PreserveClockInfo(clockInfo);
      }
      UpdateDateTime(nowSeconds);
    }

    /** update: called every 0.1 s from the loop. */
    method Update(nowSeconds: int, nowMillis: int)
      requires Valid()
      modifies this
      ensures Valid()
      ensures State() == UpdateStep(lib, nowSeconds, nowMillis, old(State()))
    {
      if mode == Unknown {
        return;
      }
      UpdateDateTime(nowSeconds);
      UpdateBlinkState(nowMillis);
      UpdateRenderingInfo();
      displayCalls := displayCalls + [presented];
    }

    method ModeButtonPress()
      requires Valid()
      modifies this`mode
      ensures Valid()
      ensures State() == ModePressStep(old(State()))
    {
      mode := NextMode(mode);
    }

    method ModeButtonLongPress()
      requires Valid()
      modifies this
      ensures Valid()
      ensures State() == LongPressStep(lib, old(State()))
    {
      if IsFieldEdit(mode) {
        SaveDateTime();
        mode := LongPressMode(mode);
      } else if mode != Weekday {
        changingInfo := clockInfo;
        secondFieldCleared := false;
        mode := LongPressMode(mode);
      }
    }

    /** changeButtonPress: change the field, then update the display at once. */
    method ChangeButtonPress(nowSeconds: int, nowMillis: int)
      requires Valid()
      modifies this
      ensures Valid()
      ensures State() == UpdateStep(lib, nowSeconds, nowMillis, ChangeField(lib, old(State())))
    {
      if IsFieldEdit(mode) {
        suppressBlink := true;
        changingInfo := changingInfo.(dateTime := IncrementField(lib, mode, changingInfo.dateTime));
      }
      Update(nowSeconds, nowMillis);
    }

    method ChangeButtonRepeatPress(nowSeconds: int, nowMillis: int)
      requires Valid()
      modifies this
      ensures Valid()
      ensures State() == UpdateStep(lib, nowSeconds, nowMillis, ChangeField(lib, old(State())))
    {
      ChangeButtonPress(nowSeconds, nowMillis);
    }

    method ChangeButtonRelease()
      modifies this`suppressBlink
      ensures State() == ReleaseStep(old(State()))
    {
      if ReleaseClears(mode) {
        suppressBlink := false;
      }
    }

    method UpdateDateTime(nowSeconds: int)
      modifies this`clockInfo, this`changingInfo
      ensures State() == DateTimeStep(lib, nowSeconds, old(State()))
    {
      clockInfo := clockInfo.(dateTime := lib.forEpochSeconds(nowSeconds, clockInfo.timeZone));
      if IsDateTimeEdit(mode) && !secondFieldCleared {
        changingInfo := changingInfo.(dateTime := changingInfo.dateTime.(second := clockInfo.dateTime.second));
      }
    }

    method UpdateBlinkState(nowMillis: int)
      modifies this`blinkShowState, this`blinkCycleStartMillis
      ensures State() == old(State()).(blink := Blink.Update(old(State()).blink, nowMillis))
    {
      var now := nowMillis % 65536;
      var duration := (now - blinkCycleStartMillis) % 65536;
      if duration < 500 {
        blinkShowState := true;
      } else if duration < 1000 {
        blinkShowState := false;
      } else {
        blinkCycleStartMillis := now;
      }
    }

    method UpdateRenderingInfo()
      modifies this`presented
      ensures State() == RenderStep(old(State()))
    {
      var info := if ShowsScratch(mode) then changingInfo else clockInfo;
      presented := Handover(mode, suppressBlink || blinkShowState, info);
    }

    /** saveDateTime: the clock is set to the scratch date-time. */
    method SaveDateTime()
      modifies this`clockWrites
      ensures State() == old(State()).(clockWrites := old(clockWrites) + [lib.toEpochSeconds(changingInfo.dateTime)])
    {
      clockWrites := clockWrites + [lib.toEpochSeconds(changingInfo.dateTime)];
    }

    /** saveClockInfo: commit the scratch snapshot and persist it (no handler calls it). */
    method SaveClockInfo()
      modifies this`clockInfo, this`storeWrites
      ensures State() == old(State()).(clockInfo := old(changingInfo),
                                       storeWrites := old(storeWrites) + [StoredOf(old(changingInfo))])
    {
      clockInfo := changingInfo;
      PreserveClockInfo(clockInfo);
    }

    method SetupClockInfo()
      modifies this`clockInfo
      ensures State() == old(State()).(clockInfo := old(clockInfo).(hourMode := TwentyFour, timeZone := initialTimeZone))
    {
      clockInfo := clockInfo.(hourMode := TwentyFour, timeZone := initialTimeZone);
    }

    method PreserveClockInfo(info: ClockInfo)
      modifies this`storeWrites
      ensures State() == old(State()).(storeWrites := old(storeWrites) + [StoredOf(info)])
    {
      storeWrites := storeWrites + [StoredOf(info)];
    }
  }
}
