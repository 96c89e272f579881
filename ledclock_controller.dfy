/**
 * The Controller of LedClock (LedClock/Controller.h): a ring of seven
 * views, a ring of six date and time edits, a brightness edit, a committed
 * ClockInfo and a scratch copy that the date and time edits change, and a
 * blink timer. Its setRenderingInfo() calls are the presenter's (see
 * LedClockPresenter).
 *
 * The clock's setNow() calls, the EEPROM writes and the presenter calls are
 * kept as traces; the clock's current epoch seconds and millis() are
 * parameters of the operations that read them.
 */
module LedClockController {
  import opened AceTime
  import opened Cycles
  import opened LedClockInfo
  import AceCommon
  import Blink
  import opened LedBrightness

  /** The views the mode button walks (kViewDateTime and kViewTimeZone are declared but not reached). */
  predicate IsView(m: Mode)
  {
    m in {ViewHourMinute, ViewSecond, ViewYear, ViewMonth, ViewDay, ViewWeekday, ViewBrightness}
  }

  /** The edits the buttons reach: the date and time edits and the brightness edit. */
  predicate IsEdit(m: Mode)
  {
    IsDateTimeEdit(m) || m == ChangeBrightness
  }

  /**
   * The modes of changeButtonRelease's switch: the reachable edits and
   * kChangeTimeZoneOffset.
   */
  predicate ReleaseClears(m: Mode)
  {
    IsEdit(m) || m == ChangeTimeZoneOffset
  }

  /**
   * The modes of updateRenderingInfo's switch, which show the scratch
   * snapshot: the date and time edits and the zone and hour-mode edits.
   */
  predicate ShowsScratch(m: Mode)
  {
    IsDateTimeEdit(m) || m in {ChangeTimeZoneOffset, ChangeTimeZoneDst, ChangeHourMode}
  }

  /** The views whose long press enters a date or time edit. */
  predicate EntersDateTimeEdit(m: Mode)
  {
    m in {ViewHourMinute, ViewSecond, ViewYear, ViewMonth, ViewDay}
  }

  /** setRenderingInfo's arguments: the mode, the blink flag and the snapshot to draw. */
  datatype Handover = Handover(mode: Mode, blinkShowState: bool, clockInfo: ClockInfo)

  const ZeroHandover := Handover(Unknown, false, InitialClockInfo)

  /** modeButtonPress's switch: the view ring and the edit ring; other modes stay. */
  function NextMode(m: Mode): Mode
  {
    match m
    case ViewHourMinute => ViewSecond
    case ViewSecond => ViewYear
    case ViewYear => ViewMonth
    case ViewMonth => ViewDay
    case ViewDay => ViewWeekday
    case ViewWeekday => ViewBrightness
    case ViewBrightness => ViewHourMinute
    case ChangeHour => ChangeMinute
    case ChangeMinute => ChangeSecond
    case ChangeSecond => ChangeYear
    case ChangeYear => ChangeMonth
    case ChangeMonth => ChangeDay
    case ChangeDay => ChangeHour
    case _ => m
  }

  const ViewCycle := [ViewHourMinute, ViewSecond, ViewYear, ViewMonth, ViewDay, ViewWeekday, ViewBrightness]
  const EditCycle := [ChangeHour, ChangeMinute, ChangeSecond, ChangeYear, ChangeMonth, ChangeDay]

  /** Seven presses bring a view back, and no fewer do. */
  lemma ViewCyclePeriod(i: nat)
    requires i < |ViewCycle|
    ensures Iterate(NextMode, ViewCycle[i], 7) == ViewCycle[i]
    ensures forall k :: 0 < k < 7 ==> Iterate(NextMode, ViewCycle[i], k) != ViewCycle[i]
  {
    assert AdvancesAlong(NextMode, ViewCycle);
    RingExactPeriod(NextMode, ViewCycle, i);
  }

  /** Six presses bring a date or time edit back, and no fewer do. */
  lemma EditCyclePeriod(i: nat)
    requires i < |EditCycle|
    ensures Iterate(NextMode, EditCycle[i], 6) == EditCycle[i]
    ensures forall k :: 0 < k < 6 ==> Iterate(NextMode, EditCycle[i], k) != EditCycle[i]
  {
    assert AdvancesAlong(NextMode, EditCycle);
    RingExactPeriod(NextMode, EditCycle, i);
  }

  /**
   * modeButtonLongPress's mode: a view enters the edit of its first field
   * (the weekday has none), the brightness view the
   * brightness edit; an edit goes back to its view, the hour and the minute
   * both to the hour-minute view.
   */
  function LongPressMode(m: Mode): (r: Mode)
    ensures EntersDateTimeEdit(m) ==> IsDateTimeEdit(r) && r != ChangeMinute
    ensures IsEdit(m) ==> IsView(r) && (EntersDateTimeEdit(r) || r == ViewBrightness)
    ensures (m == ViewBrightness) == (r == ChangeBrightness)
    ensures !IsEdit(m) && !EntersDateTimeEdit(m) && m != ViewBrightness ==> r == m
  {
    match m
    case ViewHourMinute => ChangeHour
    case ViewSecond => ChangeSecond
    case ViewYear => ChangeYear
    case ViewMonth => ChangeMonth
    case ViewDay => ChangeDay
    case ViewBrightness => ChangeBrightness
    case ChangeYear => ViewYear
    case ChangeMonth => ViewMonth
    case ChangeDay => ViewDay
    case ChangeHour => ViewHourMinute
    case ChangeMinute => ViewHourMinute
    case ChangeSecond => ViewSecond
    case ChangeBrightness => ViewBrightness
    case _ => m
  }

  /** Two long presses come back to the view they left. */
  lemma LongPressRoundTrip(m: Mode)
    requires EntersDateTimeEdit(m) || m == ViewBrightness
    ensures LongPressMode(LongPressMode(m)) == m
  {
  }

  /** The controller's fields as one value; the class below keeps them in place. */
  datatype Ctl = Ctl(
    mode: Mode, clockInfo: ClockInfo, changingInfo: ClockInfo,
    secondFieldCleared: bool, suppressBlink: bool, blink: Blink.Timer,
    presented: Handover, displayCalls: seq<Handover>,
    clockWrites: seq<int>, storeWrites: seq<StoredInfo>)

  /** The buttons only reach the views and the edits; the blink timer's start is a uint16. */
  ghost predicate Inv(s: Ctl)
  {
    (IsView(s.mode) || IsEdit(s.mode)) && 0 <= s.blink.cycleStartMillis < 65536
  }

  /** modeButtonPress: the next mode of the ring, nothing else. */
  function ModePressStep(s: Ctl): (r: Ctl)
    requires Inv(s)
    ensures Inv(r) && IsView(r.mode) == IsView(s.mode)
    ensures r == s.(mode := NextMode(s.mode))
  {
    s.(mode := NextMode(s.mode))
  }

  /** saveDateTime: the scratch date-time is normalized in place and the clock set to it. */
  function SaveDateTimeStep(lib: TimeLib, s: Ctl): (r: Ctl)
    ensures r.changingInfo == s.changingInfo.(dateTime := lib.normalize(s.changingInfo.dateTime))
    ensures r.clockWrites == s.clockWrites + [lib.toEpochSeconds(r.changingInfo.dateTime)]
    ensures r == s.(changingInfo := r.changingInfo, clockWrites := r.clockWrites)
  {
    var info := s.changingInfo.(dateTime := lib.normalize(s.changingInfo.dateTime));
    s.(changingInfo := info, clockWrites := s.clockWrites + [lib.toEpochSeconds(info.dateTime)])
  }

  /**
   * modeButtonLongPress: entering a date or time edit copies the committed
   * snapshot into the scratch one as it is and re-arms the seconds; leaving one saves the scratch date-time to the
   * clock; leaving the brightness edit writes the settings to the EEPROM.
   */
  function LongPressStep(lib: TimeLib, s: Ctl): (r: Ctl)
    requires Inv(s)
    ensures Inv(r) && r.mode == LongPressMode(s.mode)
    ensures EntersDateTimeEdit(s.mode) ==>
      r == s.(mode := r.mode, secondFieldCleared := false,
              changingInfo := s.clockInfo)
    ensures IsDateTimeEdit(s.mode) ==> r == SaveDateTimeStep(lib, s).(mode := r.mode)
    ensures s.mode == ChangeBrightness ==> r == s.(mode := r.mode, storeWrites := s.storeWrites + [StoredOf(s.clockInfo)])
    ensures !IsEdit(s.mode) && !EntersDateTimeEdit(s.mode) ==> r == s.(mode := r.mode)
  {
    var m := LongPressMode(s.mode);
    if EntersDateTimeEdit(s.mode) then
      s.(mode := m, secondFieldCleared := false,
         changingInfo := s.clockInfo)
    else if IsDateTimeEdit(s.mode) then SaveDateTimeStep(lib, s).(mode := m)
    else if s.mode == ChangeBrightness then s.(mode := m, storeWrites := s.storeWrites + [StoredOf(s.clockInfo)])
    else s.(mode := m)
  }

  /** The scratch date-time after one press in a date or time edit: that field moves on, the second is zeroed. */
  function IncrementField(lib: TimeLib, m: Mode, dt: ZonedDateTime): ZonedDateTime
  {
    match m
    case ChangeHour => lib.incrementHour(dt)
    case ChangeMinute => lib.incrementMinute(dt)
    case ChangeSecond => WithSecond(dt, 0)
    case ChangeYear => lib.incrementYear(dt)
    case ChangeMonth => lib.incrementMonth(dt)
    case ChangeDay => lib.incrementDay(dt)
    case _ => dt
  }

  /**
   * changeButtonPress's switch: in an edit the blink is held; a date or
   * time edit moves its field of the scratch date-time (the second edit
   * also stops the second following the clock); the brightness edit steps
   * the committed brightness through the module's levels. In a view nothing
   * changes.
   */
  function ChangeField(lib: TimeLib, b: Levels, s: Ctl): (r: Ctl)
    requires LevelsOk(b) && Inv(s)
    ensures Inv(r) && r.mode == s.mode
    ensures IsEdit(s.mode) ==> r.suppressBlink
    ensures IsDateTimeEdit(s.mode) ==>
      r == s.(suppressBlink := true, secondFieldCleared := s.secondFieldCleared || s.mode == ChangeSecond,
              changingInfo := s.changingInfo.(dateTime := IncrementField(lib, s.mode, s.changingInfo.dateTime)))
    ensures s.mode == ChangeBrightness ==>
      r == s.(suppressBlink := true, clockInfo := s.clockInfo.(
        brightness := Next(s.clockInfo.brightness, b.count, b.min, b.max)))
    ensures !IsEdit(s.mode) ==> r == s
  {
    if IsDateTimeEdit(s.mode) then
      s.(suppressBlink := true, secondFieldCleared := s.secondFieldCleared || s.mode == ChangeSecond,
         changingInfo := s.changingInfo.(dateTime := IncrementField(lib, s.mode, s.changingInfo.dateTime)))
    else if s.mode == ChangeBrightness then
      s.(suppressBlink := true,
         clockInfo := s.clockInfo.(brightness := Next(s.clockInfo.brightness, b.count, b.min, b.max)))
    else s
  }

  /** changeButtonRelease: the blink resumes in the modes of its switch. */
  function ReleaseStep(s: Ctl): (r: Ctl)
    ensures ReleaseClears(s.mode) ==> r == s.(suppressBlink := false)
    ensures !ReleaseClears(s.mode) ==> r == s
  {
    if ReleaseClears(s.mode) then s.(suppressBlink := false) else s
  }

  /**
   * updateDateTime: the committed time is read from the clock in the
   * committed zone; in a date or time edit whose second was not cleared,
   * the scratch second follows it.
   */
  function DateTimeStep(lib: TimeLib, nowSeconds: int, s: Ctl): (r: Ctl)
    ensures r.clockInfo == s.clockInfo.(dateTime := lib.forEpochSeconds(nowSeconds, s.clockInfo.timeZone))
    ensures IsDateTimeEdit(s.mode) && !s.secondFieldCleared ==>
      r.changingInfo == s.changingInfo.(dateTime := WithSecond(s.changingInfo.dateTime, r.clockInfo.dateTime.second))
    ensures !IsDateTimeEdit(s.mode) || s.secondFieldCleared ==> r.changingInfo == s.changingInfo
    ensures r == s.(clockInfo := r.clockInfo, changingInfo := r.changingInfo)
  {
    var dt := lib.forEpochSeconds(nowSeconds, s.clockInfo.timeZone);
    var t := s.(clockInfo := s.clockInfo.(dateTime := dt));
    if IsDateTimeEdit(s.mode) && !s.secondFieldCleared then
      t.(changingInfo := t.changingInfo.(dateTime := t.changingInfo.dateTime.(second := dt.second)))
    else t
  }

  /**
   * updateRenderingInfo: the scratch snapshot in the modes of its switch,
   * the committed one otherwise (so the brightness edit shows the committed
   * brightness); the blink flag is `suppress || show`.
   */
  function RenderStep(s: Ctl): (r: Ctl)
    ensures r.presented.mode == s.mode
    ensures r.presented.blinkShowState == (s.suppressBlink || s.blink.showState)
    ensures r.presented.clockInfo == if ShowsScratch(s.mode) then s.changingInfo else s.clockInfo
    ensures r == s.(presented := r.presented)
  {
    s.(presented := Handover(s.mode, s.suppressBlink || s.blink.showState,
                             if ShowsScratch(s.mode) then s.changingInfo else s.clockInfo))
  }

  /**
   * update: nothing in kUnknown; otherwise read the time, run the blink
   * timer, hand the presenter its info and call display().
   */
  function UpdateStep(lib: TimeLib, nowSeconds: int, nowMillis: int, s: Ctl): (r: Ctl)
    requires Inv(s)
    ensures Inv(r)
    ensures r.mode == s.mode && r.suppressBlink == s.suppressBlink && r.secondFieldCleared == s.secondFieldCleared
    ensures r.clockWrites == s.clockWrites && r.storeWrites == s.storeWrites
    ensures r.blink == Blink.Update(s.blink, nowMillis)
    ensures r.clockInfo == s.clockInfo.(dateTime := lib.forEpochSeconds(nowSeconds, s.clockInfo.timeZone))
    ensures r.displayCalls == s.displayCalls + [r.presented]
    ensures r == RenderStep(DateTimeStep(lib, nowSeconds, s).(blink := r.blink)).(displayCalls := r.displayCalls)
  {
    if s.mode == Unknown then s
    else
      Blink.StartStaysInRange(s.blink, nowMillis);
      var t := RenderStep(DateTimeStep(lib, nowSeconds, s).(blink := Blink.Update(s.blink, nowMillis)));
      t.(displayCalls := t.displayCalls + [t.presented])
  }

  /**
   * setup's restore: a valid stored record supplies the hour mode, the
   * clamped brightness and the zone; otherwise 24-hour mode and the initial
   * zone are set (the brightness keeps its initial value) and written.
   */
  function RestoreStep(b: Levels, initialTimeZone: TimeZone, read: StoreRead, s: Ctl): (r: Ctl)
    ensures read.StoreOk? ==> r == s.(clockInfo := WithStored(s.clockInfo, read.stored, b.min, b.max))
    ensures read.StoreBad? ==>
      r.clockInfo == s.clockInfo.(hourMode := TwentyFour, timeZone := initialTimeZone) &&
      r == s.(clockInfo := r.clockInfo, storeWrites := s.storeWrites + [StoredOf(r.clockInfo)])
  {
    if read.StoreOk? then s.(clockInfo := WithStored(s.clockInfo, read.stored, b.min, b.max))
    else
      var info := s.clockInfo.(hourMode := TwentyFour, timeZone := initialTimeZone);
      s.(clockInfo := info, storeWrites := s.storeWrites + [StoredOf(info)])
  }

  /**
   * A brightness press in the brightness edit is shown at once: the
   * presenter gets the committed snapshot with the next level, in range,
   * and the blink held.
   */
  lemma BrightnessPressIsShown(lib: TimeLib, b: Levels, nowSeconds: int, nowMillis: int, s: Ctl)
    requires LevelsOk(b) && b.min <= b.max && Inv(s) && s.mode == ChangeBrightness
    ensures var r := UpdateStep(lib, nowSeconds, nowMillis, ChangeField(lib, b, s));
      var next := Next(s.clockInfo.brightness, b.count, b.min, b.max);
      r.presented.blinkShowState && r.presented.clockInfo.brightness == next &&
      b.min <= next <= b.max &&
      r.presented.clockInfo == s.clockInfo.(brightness := next, dateTime := r.presented.clockInfo.dateTime)
  {
  }

  /**
   * A brightness chosen in the brightness edit and saved by the long press
   * comes back unchanged from the EEPROM on the next boot.
   */
  lemma ChosenBrightnessSurvivesReboot(lib: TimeLib, b: Levels, s: Ctl, t: Ctl)
    requires LevelsOk(b) && b.min <= b.max && Inv(s) && s.mode == ChangeBrightness
    ensures var chosen := ChangeField(lib, b, s);
      var saved := LongPressStep(lib, chosen);
      var written := saved.storeWrites[|saved.storeWrites| - 1];
      RestoreStep(b, ZeroTimeZone, StoreOk(written), t).clockInfo.brightness == chosen.clockInfo.brightness
  {
    var chosen := ChangeField(lib, b, s);
    assert b.min <= chosen.clockInfo.brightness <= b.max;
  }

  /**
   * Once the second was zeroed in the second edit, the scratch second no
   * longer follows the clock: the presenter keeps seeing 0.
   */
  lemma ClearedSecondStaysZero(lib: TimeLib, b: Levels, nowSeconds: int, nowMillis: int, s: Ctl)
    requires LevelsOk(b) && Inv(s) && s.mode == ChangeSecond
    ensures var r := UpdateStep(lib, nowSeconds, nowMillis, ChangeField(lib, b, s));
      r.secondFieldCleared && r.presented.clockInfo.dateTime.second == 0 &&
      UpdateStep(lib, nowSeconds + 1, nowMillis + 100, r).presented.clockInfo.dateTime.second == 0
  {
  }

  /**
   * Until then, in every date or time edit the scratch second is the
   * clock's current second and the other fields are the scratch ones.
   */
  lemma EditedSecondFollowsClock(lib: TimeLib, nowSeconds: int, nowMillis: int, s: Ctl)
    requires Inv(s) && IsDateTimeEdit(s.mode) && !s.secondFieldCleared
    ensures var r := UpdateStep(lib, nowSeconds, nowMillis, s);
      r.presented.clockInfo.dateTime.second == lib.forEpochSeconds(nowSeconds, s.clockInfo.timeZone).second &&
      r.presented.clockInfo.dateTime.(second := s.changingInfo.dateTime.second) == s.changingInfo.dateTime
  {
  }

  /** Entering an edit re-arms the seconds, however the previous edit ended. */
  lemma EnteringEditRearmsSecond(lib: TimeLib, s: Ctl)
    requires Inv(s) && EntersDateTimeEdit(s.mode)
    ensures !LongPressStep(lib, s).secondFieldCleared
  {
  }

  /** A press and its release in an edit leave the blink running again. */
  lemma PressReleaseUnsuppresses(lib: TimeLib, b: Levels, s: Ctl)
    requires LevelsOk(b) && Inv(s) && IsEdit(s.mode)
    ensures ChangeField(lib, b, s).suppressBlink && !ReleaseStep(ChangeField(lib, b, s)).suppressBlink
  {
  }

  /**
   * Entering an edit and leaving it straight away sets the clock to the
   * normalized time shown when the edit was entered, and returns to the view.
   */
  lemma EnterAndLeaveWritesShownTime(lib: TimeLib, s: Ctl)
    requires Inv(s) && EntersDateTimeEdit(s.mode)
    ensures var r := LongPressStep(lib, LongPressStep(lib, s));
      r.mode == s.mode && r.clockInfo == s.clockInfo && r.storeWrites == s.storeWrites &&
      r.clockWrites == s.clockWrites + [lib.toEpochSeconds(lib.normalize(s.clockInfo.dateTime))]
  {
    LongPressRoundTrip(s.mode);
  }

  /** The state after construction (mSecondFieldCleared and mSuppressBlink read as false). */
  const InitialCtl := Ctl(ViewHourMinute, InitialClockInfo, InitialClockInfo, false, false,
                          Blink.Timer(true, 0), ZeroHandover, [], [], [])

  class Controller {
    const lib: TimeLib
    const initialTimeZone: TimeZone
    const levels: Levels

    var mode: Mode
    var clockInfo: ClockInfo
    var changingInfo: ClockInfo
    var secondFieldCleared: bool
    var suppressBlink: bool
    var blinkShowState: bool
    var blinkCycleStartMillis: int
    /** The arguments of the last setRenderingInfo() call. */
    var presented: Handover
    /** The presenter's display() calls, each with the info it then held. */
    var displayCalls: seq<Handover>
    /** The clock's setNow() calls, in epoch seconds. */
    var clockWrites: seq<int>
    /** The records written to the EEPROM. */
    var storeWrites: seq<StoredInfo>

    function State(): Ctl
      reads this
    {
      Ctl(mode, clockInfo, changingInfo, secondFieldCleared, suppressBlink,
          Blink.Timer(blinkShowState, blinkCycleStartMillis), presented, displayCalls, clockWrites, storeWrites)
    }

    ghost predicate Valid()
      reads this
    {
      LevelsOk(levels) && Inv(State())
    }

    /** The constructor: the hour-minute view, the blink shown. */
    constructor (lib: TimeLib, initialTimeZone: TimeZone, levels: Levels)
      requires LevelsOk(levels)
      ensures Valid()
      ensures this.lib == lib && this.initialTimeZone == initialTimeZone && this.levels == levels
      ensures State() == InitialCtl
    {
      this.lib := lib;
      this.initialTimeZone := initialTimeZone;
      this.levels := levels;
      mode := ViewHourMinute;
      clockInfo := InitialClockInfo;
      changingInfo := InitialClockInfo;
      secondFieldCleared := false;
      suppressBlink := false;
      blinkShowState := true;
      blinkCycleStartMillis := 0;
      presented := ZeroHandover;
      displayCalls := [];
      clockWrites := [];
      storeWrites := [];
    }

    /** setup: restore the stored info, or write the defaults; then read the time. */
    method Setup(read: StoreRead, nowSeconds: int)
      requires Valid()
      modifies this
      ensures Valid()
      ensures State() == DateTimeStep(lib, nowSeconds, RestoreStep(levels, initialTimeZone, read, old(State())))
    {
      if read.StoreOk? {
        clockInfo := WithStored(clockInfo, read.stored, levels.min, levels.max);
      } else {
        SetupClockInfo();
        PreserveClockInfo(clockInfo);
      }
      UpdateDateTime(nowSeconds);
    }

    /** update: called every 0.1 s from the loop. */
    method Update(nowSeconds: int, nowMillis: int)
      requires Valid()
      modifies this
      ensures Valid()
      ensures State() == UpdateStep(lib, nowSeconds, nowMillis, old(State()))
    {
      if mode == Unknown {
        return;
      }
      UpdateDateTime(nowSeconds);
      UpdateBlinkState(nowMillis);
      UpdateRenderingInfo();
      displayCalls := displayCalls + [presented];
    }

    method ModeButtonPress()
      requires Valid()
      modifies this`mode
      ensures Valid()
      ensures State() == ModePressStep(old(State()))
    {
      mode := NextMode(mode);
    }

    method ModeButtonLongPress()
      requires Valid()
      modifies this
      ensures Valid()
      ensures State() == LongPressStep(lib, old(State()))
    {
      var m := LongPressMode(mode);
      if EntersDateTimeEdit(mode) {
        changingInfo := clockInfo;
        secondFieldCleared := false;
      } else if IsDateTimeEdit(mode) {
        SaveDateTime();
      } else if mode == ChangeBrightness {
        PreserveClockInfo(clockInfo);
      }
      mode := m;
    }

    /** changeButtonPress: change the field, then update the display at once. */
    method ChangeButtonPress(nowSeconds: int, nowMillis: int)
      requires Valid()
      modifies this
      ensures Valid()
      ensures State() == UpdateStep(lib, nowSeconds, nowMillis, ChangeField(lib, levels, old(State())))
    {
      ChangeSwitch();
      Update(nowSeconds, nowMillis);
    }

    /** The switch of changeButtonPress, before its update(). */
    method ChangeSwitch()
      requires Valid()
      modifies this`suppressBlink, this`secondFieldCleared, this`changingInfo, this`clockInfo
      ensures Valid()
      ensures State() == ChangeField(lib, levels, old(State()))
    {
      if IsDateTimeEdit(mode) {
        suppressBlink := true;
        if mode == ChangeSecond {
          secondFieldCleared := true;
        }
        changingInfo := changingInfo.(dateTime := IncrementField(lib, mode, changingInfo.dateTime));
      } else if mode == ChangeBrightness {
        suppressBlink := true;
        var stepped := AceCommon.IncrementModOffsetU8(clockInfo.brightness, levels.count, levels.min);
        clockInfo := clockInfo.(brightness := Normalize(stepped, levels.min, levels.max));
      }
    }

    method ChangeButtonRepeatPress(nowSeconds: int, nowMillis: int)
      requires Valid()
      modifies this
      ensures Valid()
      ensures State() == UpdateStep(lib, nowSeconds, nowMillis, ChangeField(lib, levels, old(State())))
    {
      ChangeButtonPress(nowSeconds, nowMillis);
    }

    method ChangeButtonRelease()
      modifies this`suppressBlink
      ensures State() == ReleaseStep(old(State()))
    {
      if ReleaseClears(mode) {
        suppressBlink := false;
      }
    }

    method UpdateDateTime(nowSeconds: int)
      modifies this`clockInfo, this`changingInfo
      ensures State() == DateTimeStep(lib, nowSeconds, old(State()))
    {
      clockInfo := clockInfo.(dateTime := lib.forEpochSeconds(nowSeconds, clockInfo.timeZone));
      if IsDateTimeEdit(mode) && !secondFieldCleared {
        changingInfo := changingInfo.(dateTime := changingInfo.dateTime.(second := clockInfo.dateTime.second));
      }
    }

    method UpdateBlinkState(nowMillis: int)
      modifies this`blinkShowState, this`blinkCycleStartMillis
      ensures State() == old(State()).(blink := Blink.Update(old(State()).blink, nowMillis))
    {
      var now := nowMillis % 65536;
      var duration := (now - blinkCycleStartMillis) % 65536;
      if duration < 500 {
        blinkShowState := true;
      } else if duration < 1000 {
        blinkShowState := false;
      } else {
        blinkCycleStartMillis := now;
      }
    }

    method UpdateRenderingInfo()
      modifies this`presented
      ensures State() == RenderStep(old(State()))
    {
      var info := if ShowsScratch(mode) then changingInfo else clockInfo;
      presented := Handover(mode, suppressBlink || blinkShowState, info);
    }

    /** saveDateTime: normalize the scratch date-time in place and set the clock to it. */
    method SaveDateTime()
      modifies this`changingInfo, this`clockWrites
      ensures State() == SaveDateTimeStep(lib, old(State()))
    {
      changingInfo := changingInfo.(dateTime := lib.normalize(changingInfo.dateTime));
      clockWrites := clockWrites + [lib.toEpochSeconds(changingInfo.dateTime)];
    }

    /** saveClockInfo: commit the scratch snapshot and persist it (no handler calls it). */
    method SaveClockInfo()
      modifies this`clockInfo, this`storeWrites
      ensures State() == old(State()).(clockInfo := old(changingInfo),
                                       storeWrites := old(storeWrites) + [StoredOf(old(changingInfo))])
    {
      clockInfo := changingInfo;
      PreserveClockInfo(clockInfo);
    }

    method SetupClockInfo()
      modifies this`clockInfo
      ensures State() == old(State()).(clockInfo := old(clockInfo).(hourMode := TwentyFour, timeZone := initialTimeZone))
    {
      clockInfo := clockInfo.(hourMode := TwentyFour, timeZone := initialTimeZone);
    }

    method PreserveClockInfo(info: ClockInfo)
      modifies this`storeWrites
      ensures State() == old(State()).(storeWrites := old(storeWrites) + [StoredOf(info)])
    {
      storeWrites := storeWrites + [StoredOf(info)];
    }
  }
}
