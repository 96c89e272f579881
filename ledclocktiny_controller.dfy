/**
 * The Controller of LedClockTiny (LedClockTiny/Controller.h): a ring of
 * seven views, a ring of six date and time edits, a weekday edit and a
 * brightness edit. The mode lives in the committed ClockInfo and is copied
 * into the scratch one after every button; the blink flags live in both
 * snapshots and are flipped from the loop every 0.5 s. The time is read in
 * a fixed UTC offset, TIME_STD_OFFSET_MINUTES plus TIME_DST_OFFSET_MINUTES
 * when the snapshot's DST flag is set; both constants are parameters here.
 *
 * The clock's setNow() calls, the EEPROM writes and the snapshots handed to
 * the presenter are kept as traces; the clock's current epoch seconds is a
 * parameter of the operations that read it.
 */
module LedClockTinyController {
  import opened AceTime
  import opened AceCommon
  import opened Cycles
  import opened Widths
  import opened LedClockTinyInfo

  /** The views the mode button walks. */
  predicate IsView(m: Mode)
  {
    m in {ViewHourMinute, ViewSecond, ViewYear, ViewMonth, ViewDay, ViewWeekday, ViewBrightness}
  }

  /** The views whose long press copies the committed snapshot into the scratch one. */
  predicate EntersScratchEdit(m: Mode)
  {
    m in {ViewHourMinute, ViewSecond, ViewYear, ViewMonth, ViewDay, ViewWeekday}
  }

  /** The edits whose long press sets the clock. */
  predicate SavesDateTime(m: Mode)
  {
    IsDateTimeEdit(m) || m == ChangeWeekday
  }

  /** modeButtonPress's switch: the view ring and the edit ring; other modes stay. */
  function NextMode(m: Mode): Mode
  {
    match m
    case ViewHourMinute => ViewSecond
    case ViewSecond => ViewYear
    case ViewYear => ViewMonth
    case ViewMonth => ViewDay
    case ViewDay => ViewWeekday
    case ViewWeekday => ViewBrightness
    case ViewBrightness => ViewHourMinute
    case ChangeHour => ChangeMinute
    case ChangeMinute => ChangeSecond
    case ChangeSecond => ChangeYear
    case ChangeYear => ChangeMonth
    case ChangeMonth => ChangeDay
    case ChangeDay => ChangeHour
    case _ => m
  }

  const ViewCycle := [ViewHourMinute, ViewSecond, ViewYear, ViewMonth, ViewDay, ViewWeekday, ViewBrightness]
  const EditCycle := [ChangeHour, ChangeMinute, ChangeSecond, ChangeYear, ChangeMonth, ChangeDay]

  /** Seven presses bring a view back, and no fewer do. */
  lemma ViewCyclePeriod(i: nat)
    requires i < |ViewCycle|
    ensures Iterate(NextMode, ViewCycle[i], 7) == ViewCycle[i]
    ensures forall k :: 0 < k < 7 ==> Iterate(NextMode, ViewCycle[i], k) != ViewCycle[i]
  {
    assert AdvancesAlong(NextMode, ViewCycle);
    RingExactPeriod(NextMode, ViewCycle, i);
  }

  /** Six presses bring a date or time edit back, and no fewer do; the weekday edit is not on the ring. */
  lemma EditCyclePeriod(i: nat)
    requires i < |EditCycle|
    ensures Iterate(NextMode, EditCycle[i], 6) == EditCycle[i]
    ensures forall k :: 0 < k < 6 ==> Iterate(NextMode, EditCycle[i], k) != EditCycle[i]
    ensures NextMode(ChangeWeekday) == ChangeWeekday && NextMode(ChangeBrightness) == ChangeBrightness
  {
    assert AdvancesAlong(NextMode, EditCycle);
    RingExactPeriod(NextMode, EditCycle, i);
  }

  /**
   * modeButtonLongPress's mode: a view enters the edit of its first field,
   * the brightness view the brightness edit; an edit goes back to its view,
   * the hour and the minute both to the hour-minute view.
   */
  function LongPressMode(m: Mode): (r: Mode)
    ensures IsView(m) ==> IsEdit(r) && r != ChangeMinute
    ensures IsEdit(m) ==> IsView(r) && (EntersScratchEdit(r) || r == ViewBrightness)
    ensures (m == ViewBrightness) == (r == ChangeBrightness)
    ensures (m == ViewWeekday) == (r == ChangeWeekday)
    ensures !IsEdit(m) && !IsView(m) ==> r == m
  {
    match m
    case ViewHourMinute => ChangeHour
    case ViewSecond => ChangeSecond
    case ViewYear => ChangeYear
    case ViewMonth => ChangeMonth
    case ViewDay => ChangeDay
    case ViewWeekday => ChangeWeekday
    case ViewBrightness => ChangeBrightness
    case ChangeYear => ViewYear
    case ChangeMonth => ViewMonth
    case ChangeDay => ViewDay
    case ChangeHour => ViewHourMinute
    case ChangeMinute => ViewHourMinute
    case ChangeSecond => ViewSecond
    case ChangeWeekday => ViewWeekday
    case ChangeBrightness => ViewBrightness
    case _ => m
  }

  /** Two long presses come back to the view they left. */
  lemma LongPressRoundTrip(m: Mode)
    requires IsView(m)
    ensures LongPressMode(LongPressMode(m)) == m
  {
  }

  /** The controller's fields as one value; the class below keeps them in place. */
  datatype Ctl = Ctl(
    clockInfo: ClockInfo, changingInfo: ClockInfo, secondFieldCleared: bool,
    presented: ClockInfo, displayCalls: seq<ClockInfo>,
    clockWrites: seq<int>, storeWrites: seq<StoredInfo>)

  /**
   * The buttons only reach the views and the edits; in an edit the scratch
   * snapshot carries the committed mode; the two snapshots always agree on
   * the blink flags.
   */
  ghost predicate Inv(s: Ctl)
  {
    var m := s.clockInfo.mode;
    (IsView(m) || IsEdit(m)) &&
    (IsEdit(m) ==> s.changingInfo.mode == m) &&
    s.changingInfo.blinkShowState == s.clockInfo.blinkShowState &&
    s.changingInfo.suppressBlink == s.clockInfo.suppressBlink
  }

  /** Both snapshots with the mode m. */
  function WithMode(s: Ctl, m: Mode): (r: Ctl)
    ensures r.clockInfo.mode == m && r.changingInfo.mode == m
    ensures r.(clockInfo := s.clockInfo, changingInfo := s.changingInfo) == s
  {
    s.(clockInfo := s.clockInfo.(mode := m), changingInfo := s.changingInfo.(mode := m))
  }

  /** modeButtonPress: the next mode of the ring, mirrored into the scratch snapshot. */
  function ModePressStep(s: Ctl): (r: Ctl)
    requires Inv(s)
    ensures Inv(r) && IsView(r.clockInfo.mode) == IsView(s.clockInfo.mode)
    ensures r == WithMode(s, NextMode(s.clockInfo.mode))
  {
    WithMode(s, NextMode(s.clockInfo.mode))
  }

  /** saveDateTime: the clock is set to the scratch date-time as it stands (not normalized). */
  function SaveDateTimeStep(lib: TimeLib, s: Ctl): (r: Ctl)
    ensures r.clockWrites == s.clockWrites + [lib.toEpochSeconds(s.changingInfo.dateTime)]
    ensures r == s.(clockWrites := r.clockWrites)
  {
    s.(clockWrites := s.clockWrites + [lib.toEpochSeconds(s.changingInfo.dateTime)])
  }

  /**
   * modeButtonLongPress: entering a date, time or weekday edit copies the
   * committed snapshot into the scratch one and re-arms the seconds;
   * leaving one sets the clock to the scratch date-time; leaving the
   * brightness edit writes the settings to the EEPROM. The new mode ends up
   * in both snapshots.
   */
  function LongPressStep(lib: TimeLib, s: Ctl): (r: Ctl)
    requires Inv(s)
    ensures Inv(r)
    ensures r.clockInfo.mode == LongPressMode(s.clockInfo.mode) && r.changingInfo.mode == r.clockInfo.mode
    ensures EntersScratchEdit(s.clockInfo.mode) ==>
      r.changingInfo == r.clockInfo && r == WithMode(s, r.clockInfo.mode).(changingInfo := r.clockInfo, secondFieldCleared := false)
    ensures SavesDateTime(s.clockInfo.mode) ==> r == WithMode(SaveDateTimeStep(lib, s), r.clockInfo.mode)
    ensures s.clockInfo.mode == ChangeBrightness ==>
      r == WithMode(s, ViewBrightness).(storeWrites := s.storeWrites + [StoredOf(s.clockInfo)])
    ensures s.clockInfo.mode == ViewBrightness ==> r == WithMode(s, ChangeBrightness)
  {
    var m := LongPressMode(s.clockInfo.mode);
    if EntersScratchEdit(s.clockInfo.mode) then
      WithMode(s, m).(changingInfo := s.clockInfo.(mode := m), secondFieldCleared := false)
    else if SavesDateTime(s.clockInfo.mode) then WithMode(SaveDateTimeStep(lib, s), m)
    else if s.clockInfo.mode == ChangeBrightness then
      WithMode(s, m).(storeWrites := s.storeWrites + [StoredOf(s.clockInfo)])
    else WithMode(s, m)
  }

  /** The scratch date-time after one press in a date or time edit: that field moves on, the second is zeroed. */
  function IncrementField(lib: TimeLib, m: Mode, dt: ZonedDateTime): ZonedDateTime
  {
    match m
    case ChangeHour => lib.incrementHour(dt)
    case ChangeMinute => lib.incrementMinute(dt)
    case ChangeSecond => WithSecond(dt, 0)
    case ChangeYear => lib.incrementYear(dt)
    case ChangeMonth => lib.incrementMonth(dt)
    case ChangeDay => lib.incrementDay(dt)
    case _ => dt
  }

  /** incrementMod(brightness, 8) on the uint8 brightness: 0 to 7, then back to 0. */
  function BrightnessPress(b: int): (r: int)
    ensures 0 <= r < 8
    ensures 0 <= b < 7 ==> r == b + 1
    ensures b == 7 ==> r == 0
  {
    IncrementMod(b, 8)
  }

  /** Both snapshots with the blink held (or released). */
  function WithSuppress(s: Ctl, hold: bool): (r: Ctl)
    ensures r.clockInfo.suppressBlink == hold && r.changingInfo.suppressBlink == hold
    ensures r.(clockInfo := s.clockInfo, changingInfo := s.changingInfo) == s
  {
    s.(clockInfo := s.clockInfo.(suppressBlink := hold),
       changingInfo := s.changingInfo.(suppressBlink := hold))
  }

  /**
   * changeButtonPress's switch: the blink is held in both snapshots, in
   * every mode; a date or time edit moves its field of the scratch
   * date-time (the second edit also stops the second following the clock);
   * the brightness edit steps the committed brightness; the weekday edit
   * and the views change nothing else.
   */
  function ChangeField(lib: TimeLib, s: Ctl): (r: Ctl)
    requires Inv(s)
    ensures Inv(r) && r.clockInfo.mode == s.clockInfo.mode
    ensures r.clockInfo.suppressBlink && r.changingInfo.suppressBlink
    ensures IsDateTimeEdit(s.clockInfo.mode) ==>
      r == WithSuppress(s, true).(
        secondFieldCleared := s.secondFieldCleared || s.clockInfo.mode == ChangeSecond,
        changingInfo := s.changingInfo.(suppressBlink := true,
          dateTime := IncrementField(lib, s.clockInfo.mode, s.changingInfo.dateTime)))
    ensures s.clockInfo.mode == ChangeBrightness ==>
      r == WithSuppress(s, true).(clockInfo := s.clockInfo.(suppressBlink := true,
        brightness := BrightnessPress(s.clockInfo.brightness)))
    ensures !IsDateTimeEdit(s.clockInfo.mode) && s.clockInfo.mode != ChangeBrightness ==> r == WithSuppress(s, true)
  {
    var t := WithSuppress(s, true);
    var m := s.clockInfo.mode;
    if IsDateTimeEdit(m) then
      t.(secondFieldCleared := s.secondFieldCleared || m == ChangeSecond,
         changingInfo := t.changingInfo.(dateTime := IncrementField(lib, m, s.changingInfo.dateTime)))
    else if m == ChangeBrightness then
      t.(clockInfo := t.clockInfo.(brightness := BrightnessPress(s.clockInfo.brightness)))
    else t
  }

  /** changeButtonRelease: the blink resumes in both snapshots in the edit modes; in a view it stays held. */
  function ReleaseStep(s: Ctl): (r: Ctl)
    requires Inv(s)
    ensures Inv(r)
    ensures IsEdit(s.clockInfo.mode) ==> r == WithSuppress(s, false)
    ensures !IsEdit(s.clockInfo.mode) ==> r == s
  {
    if IsEdit(s.clockInfo.mode) then WithSuppress(s, false) else s
  }

  /**
   * updateDateTime's offset: the int16 standard offset plus the DST offset
   * when the flag is set, the sum wrapped to int16.
   */
  function TotalOffset(stdMinutes: int, dstMinutes: int, isDst: bool): (r: int)
    ensures -32768 <= r < 32768
    ensures var sum := stdMinutes + (if isDst then dstMinutes else 0);
      -32768 <= stdMinutes < 32768 && -32768 <= sum < 32768 ==> r == sum
  {
    I16(I16(stdMinutes) + if isDst then dstMinutes else 0)
  }

  /** The fixed UTC offset of TimeOffset::forMinutes, as a zone with only a standard offset. */
  function OffsetZone(minutes: int): (z: TimeZone)
    ensures z.stdOffsetMinutes == minutes && z.dstOffsetMinutes == 0
  {
    TimeZone(0, minutes, 0)
  }

  /**
   * updateDateTime: the committed time is read from the clock in the fixed
   * offset; in a date or time edit (not the weekday edit) whose second was
   * not cleared, the scratch second follows it.
   */
  function DateTimeStep(lib: TimeLib, stdMinutes: int, dstMinutes: int, nowSeconds: int, s: Ctl): (r: Ctl)
    ensures r.clockInfo == s.clockInfo.(dateTime := lib.forEpochSeconds(nowSeconds,
      OffsetZone(TotalOffset(stdMinutes, dstMinutes, s.clockInfo.isDst))))
    ensures IsDateTimeEdit(s.clockInfo.mode) && !s.secondFieldCleared ==>
      r.changingInfo == s.changingInfo.(dateTime := WithSecond(s.changingInfo.dateTime, r.clockInfo.dateTime.second))
    ensures !IsDateTimeEdit(s.clockInfo.mode) || s.secondFieldCleared ==> r.changingInfo == s.changingInfo
    ensures r == s.(clockInfo := r.clockInfo, changingInfo := r.changingInfo)
  {
    var zone := OffsetZone(TotalOffset(stdMinutes, dstMinutes, s.clockInfo.isDst));
    var dt := lib.forEpochSeconds(nowSeconds, zone);
    var t := s.(clockInfo := s.clockInfo.(dateTime := dt));
    if IsDateTimeEdit(s.clockInfo.mode) && !s.secondFieldCleared then
      t.(changingInfo := t.changingInfo.(dateTime := t.changingInfo.dateTime.(second := dt.second)))
    else t
  }

  /** The modes whose screen is drawn from the scratch snapshot. */
  predicate ShowsScratch(m: Mode)
  {
    IsDateTimeEdit(m) || m == ChangeHourMode || m == ChangeWeekday
  }

  /**
   * updatePresenter: the scratch snapshot in the date, time, hour-mode and
   * weekday edits, the committed one otherwise (so the brightness edit shows
   * the committed brightness).
   */
  function PresentStep(s: Ctl): (r: Ctl)
    ensures r.presented == if ShowsScratch(s.clockInfo.mode) then s.changingInfo else s.clockInfo
    ensures r == s.(presented := r.presented)
  {
    s.(presented := if ShowsScratch(s.clockInfo.mode) then s.changingInfo else s.clockInfo)
  }

  /**
   * update: read the time, hand the presenter its snapshot and call
   * updateDisplay(). Its early return in kUnknown is not modelled: the
   * constructor starts in a view and no button leads to kUnknown.
   */
  function UpdateStep(lib: TimeLib, stdMinutes: int, dstMinutes: int, nowSeconds: int, s: Ctl): (r: Ctl)
    requires Inv(s)
    ensures Inv(r)
    ensures r.secondFieldCleared == s.secondFieldCleared
    ensures r.clockWrites == s.clockWrites && r.storeWrites == s.storeWrites
    ensures r.displayCalls == s.displayCalls + [r.presented]
    ensures r == PresentStep(DateTimeStep(lib, stdMinutes, dstMinutes, nowSeconds, s)).(displayCalls := r.displayCalls)
  {
    var t := PresentStep(DateTimeStep(lib, stdMinutes, dstMinutes, nowSeconds, s));
    t.(displayCalls := t.displayCalls + [t.presented])
  }

  /** updateBlinkState: both snapshots flip their blink flag, and the presenter gets the new one. */
  function BlinkStep(s: Ctl): (r: Ctl)
    requires Inv(s)
    ensures Inv(r)
    ensures r.clockInfo.blinkShowState == !s.clockInfo.blinkShowState
    ensures r == PresentStep(s.(clockInfo := s.clockInfo.(blinkShowState := !s.clockInfo.blinkShowState),
      changingInfo := s.changingInfo.(blinkShowState := !s.changingInfo.blinkShowState)))
  {
    PresentStep(s.(clockInfo := s.clockInfo.(blinkShowState := !s.clockInfo.blinkShowState),
                   changingInfo := s.changingInfo.(blinkShowState := !s.changingInfo.blinkShowState)))
  }

  /**
   * setup's restore: a valid stored record supplies the hour mode and the
   * brightness as stored; otherwise 24-hour mode is set (the brightness
   * keeps its initial value) and written.
   */
  function RestoreStep(read: StoreRead, s: Ctl): (r: Ctl)
    ensures read.StoreOk? ==> r == s.(clockInfo := WithStored(s.clockInfo, read.stored))
    ensures read.StoreBad? ==>
      r.clockInfo == s.clockInfo.(hourMode := TwentyFour) &&
      r == s.(clockInfo := r.clockInfo, storeWrites := s.storeWrites + [StoredOf(r.clockInfo)])
  {
    if read.StoreOk? then s.(clockInfo := WithStored(s.clockInfo, read.stored))
    else
      var info := s.clockInfo.(hourMode := TwentyFour);
      s.(clockInfo := info, storeWrites := s.storeWrites + [StoredOf(info)])
  }

  /**
   * The presenter always sees the controller's mode and the committed blink
   * flags, from whichever snapshot it is handed: the mode copied after
   * every button and the flags flipped and held in both snapshots keep them
   * in step.
   */
  lemma PresenterSeesControllerMode(lib: TimeLib, stdMinutes: int, dstMinutes: int, nowSeconds: int, s: Ctl)
    requires Inv(s)
    ensures var p := UpdateStep(lib, stdMinutes, dstMinutes, nowSeconds, s).presented;
      p.mode == s.clockInfo.mode && p.blinkShowState == s.clockInfo.blinkShowState &&
      p.suppressBlink == s.clockInfo.suppressBlink
    ensures var p := BlinkStep(s).presented;
      p.mode == s.clockInfo.mode && p.blinkShowState == !s.clockInfo.blinkShowState &&
      p.suppressBlink == s.clockInfo.suppressBlink
  {
  }

  /** The change button pressed k times. */
  ghost function Presses(lib: TimeLib, s: Ctl, k: nat): (r: Ctl)
    requires Inv(s)
    ensures Inv(r) && r.clockInfo.mode == s.clockInfo.mode
  {
    if k == 0 then s else ChangeField(lib, Presses(lib, s, k - 1))
  }

  /** In the brightness edit, k presses step the brightness k times and change nothing but the held blink. */
  lemma {:induction false} BrightnessPresses(lib: TimeLib, s: Ctl, k: nat)
    requires Inv(s) && s.clockInfo.mode == ChangeBrightness
    ensures var r := Presses(lib, s, k);
      r.clockInfo.brightness == Iterate(BrightnessPress, s.clockInfo.brightness, k) &&
      (k > 0 ==> r == WithSuppress(s, true).(clockInfo := s.clockInfo.(suppressBlink := true, brightness := r.clockInfo.brightness)))
  {
    if k > 0 {
      BrightnessPresses(lib, s, k - 1);
    }
  }

  /** Eight presses in the brightness edit bring a level of 0 to 7 back, and no fewer do. */
  lemma BrightnessCyclePeriod(lib: TimeLib, s: Ctl)
    requires Inv(s) && s.clockInfo.mode == ChangeBrightness && 0 <= s.clockInfo.brightness < 8
    ensures Presses(lib, s, 8).clockInfo.brightness == s.clockInfo.brightness
    ensures forall k: nat :: 0 < k < 8 ==> Presses(lib, s, k).clockInfo.brightness != s.clockInfo.brightness
  {
    CounterPeriod(BrightnessPress, 0, 8, s.clockInfo.brightness);
    BrightnessPresses(lib, s, 8);
    forall k: nat | 0 < k < 8
      ensures Presses(lib, s, k).clockInfo.brightness != s.clockInfo.brightness
    {
      BrightnessPresses(lib, s, k);
    }
  }

  /**
   * A brightness chosen in the brightness edit and saved by the long press
   * comes back unchanged from the EEPROM on the next boot.
   */
  lemma ChosenBrightnessSurvivesReboot(lib: TimeLib, s: Ctl, t: Ctl)
    requires Inv(s) && s.clockInfo.mode == ChangeBrightness
    ensures var chosen := ChangeField(lib, s);
      var saved := LongPressStep(lib, chosen);
      var written := saved.storeWrites[|saved.storeWrites| - 1];
      RestoreStep(StoreOk(written), t).clockInfo.brightness == chosen.clockInfo.brightness
  {
  }

  /**
   * The weekday edit changes nothing: its scratch date-time neither follows
   * the clock nor moves on a press.
   */
  lemma WeekdayScratchFrozen(lib: TimeLib, stdMinutes: int, dstMinutes: int, nowSeconds: int, s: Ctl)
    requires Inv(s) && s.clockInfo.mode == ChangeWeekday
    ensures UpdateStep(lib, stdMinutes, dstMinutes, nowSeconds, s).changingInfo == s.changingInfo
    ensures ChangeField(lib, s).changingInfo == s.changingInfo.(suppressBlink := true)
    ensures BlinkStep(s).changingInfo.dateTime == s.changingInfo.dateTime
  {
  }

  /**
   * So leaving the weekday edit sets the clock back to the time at which
   * the edit was entered, however much later the long press comes.
   */
  lemma WeekdayEditRewindsClock(lib: TimeLib, stdMinutes: int, dstMinutes: int, later: int, s: Ctl)
    requires Inv(s) && s.clockInfo.mode == ViewWeekday
    ensures var inEdit := UpdateStep(lib, stdMinutes, dstMinutes, later, LongPressStep(lib, s));
      LongPressStep(lib, ChangeField(lib, inEdit)).clockWrites ==
        s.clockWrites + [lib.toEpochSeconds(s.clockInfo.dateTime)]
  {
    var entered := LongPressStep(lib, s);
    WeekdayScratchFrozen(lib, stdMinutes, dstMinutes, later, entered);
    var inEdit := UpdateStep(lib, stdMinutes, dstMinutes, later, entered);
    WeekdayScratchFrozen(lib, stdMinutes, dstMinutes, later, inEdit);
  }

  /**
   * A change press in a view holds the blink, and the release in a view
   * does not let go; the next edit entered then shows its field without
   * blinking until a press and release inside the edit.
   */
  lemma HeldBlinkCarriesIntoEdit(lib: TimeLib, stdMinutes: int, dstMinutes: int, nowSeconds: int, s: Ctl)
    requires Inv(s) && IsView(s.clockInfo.mode)
    ensures var held := ReleaseStep(ChangeField(lib, s));
      held.clockInfo.suppressBlink &&
      UpdateStep(lib, stdMinutes, dstMinutes, nowSeconds, LongPressStep(lib, held)).presented.suppressBlink
  {
  }

  /**
   * Once the second was zeroed in the second edit, the scratch second no
   * longer follows the clock: the presenter keeps seeing 0.
   */
  lemma ClearedSecondStaysZero(lib: TimeLib, stdMinutes: int, dstMinutes: int, nowSeconds: int, s: Ctl)
    requires Inv(s) && s.clockInfo.mode == ChangeSecond
    ensures var r := UpdateStep(lib, stdMinutes, dstMinutes, nowSeconds, ChangeField(lib, s));
      r.secondFieldCleared && r.presented.dateTime.second == 0 &&
      UpdateStep(lib, stdMinutes, dstMinutes, nowSeconds + 1, r).presented.dateTime.second == 0
  {
  }

  /**
   * Until then, in every date or time edit the presenter's second is the
   * clock's current second and the other fields are the scratch ones.
   */
  lemma EditedSecondFollowsClock(lib: TimeLib, stdMinutes: int, dstMinutes: int, nowSeconds: int, s: Ctl)
    requires Inv(s) && IsDateTimeEdit(s.clockInfo.mode) && !s.secondFieldCleared
    ensures var r := UpdateStep(lib, stdMinutes, dstMinutes, nowSeconds, s);
      var zone := OffsetZone(TotalOffset(stdMinutes, dstMinutes, s.clockInfo.isDst));
      r.presented.dateTime.second == lib.forEpochSeconds(nowSeconds, zone).second &&
      r.presented.dateTime.(second := s.changingInfo.dateTime.second) == s.changingInfo.dateTime
  {
  }

  /** A press and its release in an edit leave the blink running again, in both snapshots. */
  lemma PressReleaseUnsuppresses(lib: TimeLib, s: Ctl)
    requires Inv(s) && IsEdit(s.clockInfo.mode)
    ensures ChangeField(lib, s).clockInfo.suppressBlink
    ensures var r := ReleaseStep(ChangeField(lib, s));
      !r.clockInfo.suppressBlink && !r.changingInfo.suppressBlink
  {
  }

  /**
   * Entering an edit and leaving it straight away sets the clock to the
   * time shown when the edit was entered, as it stands, and changes no
   * setting.
   */
  lemma EnterAndLeaveWritesShownTime(lib: TimeLib, s: Ctl)
    requires Inv(s) && EntersScratchEdit(s.clockInfo.mode)
    ensures var r := LongPressStep(lib, LongPressStep(lib, s));
      r.clockInfo == s.clockInfo && r.storeWrites == s.storeWrites &&
      r.clockWrites == s.clockWrites + [lib.toEpochSeconds(s.clockInfo.dateTime)]
  {
    LongPressRoundTrip(s.clockInfo.mode);
  }

  /** The state after construction: the hour-minute view; the scratch snapshot still has kUnknown. */
  const InitialCtl := Ctl(InitialClockInfo.(mode := ViewHourMinute), InitialClockInfo, false,
                          InitialClockInfo, [], [], [])

  class Controller {
    const lib: TimeLib
    /** TIME_STD_OFFSET_MINUTES. */
    const stdOffsetMinutes: int
    /** TIME_DST_OFFSET_MINUTES. */
    const dstOffsetMinutes: int

    var clockInfo: ClockInfo
    var changingInfo: ClockInfo
    var secondFieldCleared: bool
    /** The snapshot of the last setClockInfo() call. */
    var presented: ClockInfo
    /** The presenter's updateDisplay() calls, each with the snapshot it then held. */
    var displayCalls: seq<ClockInfo>
    /** The clock's setNow() calls, in epoch seconds. */
    var clockWrites: seq<int>
    /** The records written to the EEPROM. */
    var storeWrites: seq<StoredInfo>

    function State(): Ctl
      reads this
    {
      Ctl(clockInfo, changingInfo, secondFieldCleared, presented, displayCalls, clockWrites, storeWrites)
    }

    ghost predicate Valid()
      reads this
    {
      Inv(State())
    }

    /** The constructor: the hour-minute view (mSecondFieldCleared read as false). */
    constructor (lib: TimeLib, stdOffsetMinutes: int, dstOffsetMinutes: int)
      ensures Valid()
      ensures this.lib == lib && this.stdOffsetMinutes == stdOffsetMinutes && this.dstOffsetMinutes == dstOffsetMinutes
      ensures State() == InitialCtl
    {
      this.lib := lib;
      this.stdOffsetMinutes := stdOffsetMinutes;
      this.dstOffsetMinutes := dstOffsetMinutes;
      clockInfo := InitialClockInfo.(mode := ViewHourMinute);
      changingInfo := InitialClockInfo;
      secondFieldCleared := false;
      presented := InitialClockInfo;
      displayCalls := [];
      clockWrites := [];
      storeWrites := [];
    }

    /** setup: restore the stored info, or write the defaults; then read the time. */
    method Setup(read: StoreRead, nowSeconds: int)
      requires Valid()
      modifies this
      ensures Valid()
      ensures State() == DateTimeStep(lib, stdOffsetMinutes, dstOffsetMinutes, nowSeconds, RestoreStep(read, old(State())))
    {
      if read.StoreOk? {
        clockInfo := WithStored(clockInfo, read.stored);
      } else {
        SetupClockInfo();
        PreserveClockInfo(clockInfo);
      }
      UpdateDateTime(nowSeconds);
    }

    /** update: called every 0.1 s from the loop. */
    method Update(nowSeconds: int)
      requires Valid()
      modifies this
      ensures Valid()
      ensures State() == UpdateStep(lib, stdOffsetMinutes, dstOffsetMinutes, nowSeconds, old(State()))
    {
      UpdateDateTime(nowSeconds);
      UpdatePresenter();
      displayCalls := displayCalls + [presented];
    }

    /** updateBlinkState: called every 0.5 s from the loop. */
    method UpdateBlinkState()
      requires Valid()
      modifies this`clockInfo, this`changingInfo, this`presented
      ensures Valid()
      ensures State() == BlinkStep(old(State()))
    {
      clockInfo := clockInfo.(blinkShowState := !clockInfo.blinkShowState);
      changingInfo := changingInfo.(blinkShowState := !changingInfo.blinkShowState);
      UpdatePresenter();
    }

    method ModeButtonPress()
      requires Valid()
      modifies this`clockInfo, this`changingInfo
      ensures Valid()
      ensures State() == ModePressStep(old(State()))
    {
      clockInfo := clockInfo.(mode := NextMode(clockInfo.mode));
      changingInfo := changingInfo.(mode := clockInfo.mode);
    }

    method ModeButtonLongPress()
      requires Valid()
      modifies this`clockInfo, this`changingInfo, this`secondFieldCleared, this`clockWrites, this`storeWrites
      ensures Valid()
      ensures State() == LongPressStep(lib, old(State()))
    {
      var m := LongPressMode(clockInfo.mode);
      if EntersScratchEdit(clockInfo.mode) {
        changingInfo := clockInfo;
        secondFieldCleared := false;
      } else if SavesDateTime(clockInfo.mode) {
        SaveDateTime();
      } else if clockInfo.mode == ChangeBrightness {
        PreserveClockInfo(clockInfo);
      }
      clockInfo := clockInfo.(mode := m);
      changingInfo := changingInfo.(mode := clockInfo.mode);
    }

    /** changeButtonPress: hold the blink, change the field, then update the display at once. */
    method ChangeButtonPress(nowSeconds: int)
      requires Valid()
      modifies this
      ensures Valid()
      ensures State() == UpdateStep(lib, stdOffsetMinutes, dstOffsetMinutes, nowSeconds, ChangeField(lib, old(State())))
    {
      ChangeSwitch();
      Update(nowSeconds);
    }

    /** The flags and the switch of changeButtonPress, before its update(). */
    method ChangeSwitch()
      requires Valid()
      modifies this`clockInfo, this`changingInfo, this`secondFieldCleared
      ensures Valid()
      ensures State() == ChangeField(lib, old(State()))
    {
      clockInfo := clockInfo.(suppressBlink := true);
      changingInfo := changingInfo.(suppressBlink := true);
      var m := clockInfo.mode;
      if IsDateTimeEdit(m) {
        if m == ChangeSecond {
          secondFieldCleared := true;
        }
        changingInfo := changingInfo.(dateTime := IncrementField(lib, m, changingInfo.dateTime));
      } else if m == ChangeBrightness {
        clockInfo := clockInfo.(brightness := IncrementMod(clockInfo.brightness, 8));
      }
    }

    method ChangeButtonRepeatPress(nowSeconds: int)
      requires Valid()
      modifies this
      ensures Valid()
      ensures State() == UpdateStep(lib, stdOffsetMinutes, dstOffsetMinutes, nowSeconds, ChangeField(lib, old(State())))
    {
      ChangeButtonPress(nowSeconds);
    }

    method ChangeButtonRelease()
      requires Valid()
      modifies this`clockInfo, this`changingInfo
      ensures Valid()
      ensures State() == ReleaseStep(old(State()))
    {
      if IsEdit(clockInfo.mode) {
        clockInfo := clockInfo.(suppressBlink := false);
        changingInfo := changingInfo.(suppressBlink := false);
      }
    }

    method UpdateDateTime(nowSeconds: int)
      modifies this`clockInfo, this`changingInfo
      ensures State() == DateTimeStep(lib, stdOffsetMinutes, dstOffsetMinutes, nowSeconds, old(State()))
    {
      var totalOffset := I16(stdOffsetMinutes);
      totalOffset := I16(totalOffset + if clockInfo.isDst then dstOffsetMinutes else 0);
      clockInfo := clockInfo.(dateTime := lib.forEpochSeconds(nowSeconds, OffsetZone(totalOffset)));
      if IsDateTimeEdit(clockInfo.mode) && !secondFieldCleared {
        changingInfo := changingInfo.(dateTime := changingInfo.dateTime.(second := clockInfo.dateTime.second));
      }
    }

    method UpdatePresenter()
      modifies this`presented
      ensures State() == PresentStep(old(State()))
    {
      presented := if ShowsScratch(clockInfo.mode) then changingInfo else clockInfo;
    }

    /** saveDateTime: set the clock to the scratch date-time. */
    method SaveDateTime()
      modifies this`clockWrites
      ensures State() == SaveDateTimeStep(lib, old(State()))
    {
      clockWrites := clockWrites + [lib.toEpochSeconds(changingInfo.dateTime)];
    }

    /** saveClockInfo: commit the scratch snapshot and persist it (no handler calls it). */
    method SaveClockInfo()
      modifies this`clockInfo, this`storeWrites
      ensures State() == old(State()).(clockInfo := old(changingInfo),
                                       storeWrites := old(storeWrites) + [StoredOf(old(changingInfo))])
    {
      clockInfo := changingInfo;
      PreserveClockInfo(clockInfo);
    }

    method SetupClockInfo()
      modifies this`clockInfo
      ensures State() == old(State()).(clockInfo := old(clockInfo).(hourMode := TwentyFour))
    {
      clockInfo := clockInfo.(hourMode := TwentyFour);
    }

    method PreserveClockInfo(info: ClockInfo)
      modifies this`storeWrites
      ensures State() == old(State()).(storeWrites := old(storeWrites) + [StoredOf(info)])
    {
      storeWrites := storeWrites + [StoredOf(info)];
    }
  }
}
