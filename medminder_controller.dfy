/**
 * MedMinder's Controller (MedMinder/Controller.h), built for named (basic)
 * zones: the mode machine of the two buttons, the scratch ClockInfo of the
 * edits, the medication countdown handed to the presenter, sleep and wake,
 * and what is written to the clock and the EEPROM.
 *
 * The system clock, the EEPROM and the presenter are outside the model: the
 * current epoch seconds and the record read back are parameters, and the
 * calls made on them are traces (the clock's setNow() and forceSync()
 * calls, the records written, the ClockInfo the presenter holds at each
 * updateDisplay(), and the display power commands).
 */
module MedMinderController {
  import opened Widths
  import opened AceCommon
  import opened AceTime
  import opened Cycles
  import opened ZoneEdits
  import opened TimePeriods
  import opened MedMinderInfo

  /** The mode after a mode press. */
  function NextMode(m: Mode): Mode
  {
    match m
    case ViewMed => ViewDateTime
    case ViewDateTime => ViewTimeZone
    case ViewTimeZone => ViewSettings
    case ViewSettings => ViewAbout
    case ViewAbout => ViewMed
    case ChangeMedHour => ChangeMedMinute
    case ChangeMedMinute => ChangeMedHour
    case ChangeHour => ChangeMinute
    case ChangeMinute => ChangeSecond
    case ChangeSecond => ChangeYear
    case ChangeYear => ChangeMonth
    case ChangeMonth => ChangeDay
    case ChangeDay => ChangeHour
    case _ => m
  }

  const ViewCycle := [ViewMed, ViewDateTime, ViewTimeZone, ViewSettings, ViewAbout]
  const MedCycle := [ChangeMedHour, ChangeMedMinute]
  const DateCycle := [ChangeHour, ChangeMinute, ChangeSecond, ChangeYear, ChangeMonth, ChangeDay]

  /** Five presses bring a screen back, and no fewer do. */
  lemma ViewCyclePeriod(i: nat)
    requires i < |ViewCycle|
    ensures Iterate(NextMode, ViewCycle[i], 5) == ViewCycle[i]
    ensures forall k :: 0 < k < 5 ==> Iterate(NextMode, ViewCycle[i], k) != ViewCycle[i]
  {
    assert AdvancesAlong(NextMode, ViewCycle);
    RingExactPeriod(NextMode, ViewCycle, i);
  }

  /** The interval edit alternates between its hour and its minute. */
  lemma MedCyclePeriod(i: nat)
    requires i < |MedCycle|
    ensures Iterate(NextMode, MedCycle[i], 2) == MedCycle[i]
    ensures Iterate(NextMode, MedCycle[i], 1) != MedCycle[i]
  {
    assert AdvancesAlong(NextMode, MedCycle);
    RingExactPeriod(NextMode, MedCycle, i);
  }

  /**
   * Six presses bring a date field back, and no fewer do; the zone-name
   * and contrast edits have a single field and stay where they are.
   */
  lemma DateCyclePeriod(i: nat)
    requires i < |DateCycle|
    ensures Iterate(NextMode, DateCycle[i], 6) == DateCycle[i]
    ensures forall k :: 0 < k < 6 ==> Iterate(NextMode, DateCycle[i], k) != DateCycle[i]
    ensures NextMode(ChangeTimeZoneName) == ChangeTimeZoneName
    ensures NextMode(ChangeSettingsContrast) == ChangeSettingsContrast
  {
    assert AdvancesAlong(NextMode, DateCycle);
    RingExactPeriod(NextMode, DateCycle, i);
  }

  /** The mode after a double click: every edit is abandoned for a screen, the others stay. */
  function DoubleClickMode(m: Mode): (r: Mode)
    ensures IsMedEdit(m) || IsDateEdit(m) ==> r == ViewDateTime
    ensures m == ChangeTimeZoneName ==> r == ViewTimeZone
    ensures m == ChangeSettingsContrast ==> r == ViewSettings
    ensures !IsEdit(m) ==> r == m
    ensures !IsEdit(r)
  {
    if IsMedEdit(m) || IsDateEdit(m) then ViewDateTime
    else if m == ChangeTimeZoneName then ViewTimeZone
    else if m == ChangeSettingsContrast then ViewSettings
    else m
  }

  /** The mode after a long press: a screen enters its edit, an edit returns to its screen. */
  function LongPressMode(m: Mode): Mode
  {
    match m
    case ViewMed => ChangeMedHour
    case ChangeMedHour => ViewMed
    case ChangeMedMinute => ViewMed
    case ViewDateTime => ChangeYear
    case ChangeYear => ViewDateTime
    case ChangeMonth => ViewDateTime
    case ChangeDay => ViewDateTime
    case ChangeHour => ViewDateTime
    case ChangeMinute => ViewDateTime
    case ChangeSecond => ViewDateTime
    case ViewTimeZone => ChangeTimeZoneName
    case ChangeTimeZoneName => ViewTimeZone
    case ViewSettings => ChangeSettingsContrast
    case ChangeSettingsContrast => ViewSettings
    case _ => m
  }

  /**
   * A long press on each editable screen enters an edit and a second one
   * comes back to that screen; a double click leaves every edit for the
   * screen a long press would, except the interval edit, which it leaves
   * for the date-time screen rather than the countdown.
   */
  lemma LongPressRoundTrip(m: Mode)
    ensures m in {ViewMed, ViewDateTime, ViewTimeZone, ViewSettings} ==>
      IsEdit(LongPressMode(m)) && LongPressMode(LongPressMode(m)) == m
    ensures IsEdit(m) && !IsMedEdit(m) ==> DoubleClickMode(m) == LongPressMode(m)
    ensures IsMedEdit(m) ==> DoubleClickMode(m) == ViewDateTime && LongPressMode(m) == ViewMed
  {
  }

  /** The controller's fields as one value; the class below keeps them in place. */
  datatype Ctl = Ctl(
    clock: ClockInfo, changing: ClockInfo, zoneRegistryIndex: int,
    secondFieldCleared: bool, isPreparingToSleep: bool,
    presented: ClockInfo, displayCalls: seq<ClockInfo>, powerCalls: seq<bool>, syncCalls: nat,
    clockWrites: seq<int>, storeWrites: seq<StoredInfo>)

  /** The stored fields of a snapshot hold values of their widths, and the interval is a period. */
  predicate StoredFieldsOk(c: ClockInfo)
  {
    0 <= c.contrastLevel < 256 && 0 <= c.medStartTime < 0x1_0000_0000 && c.medInterval.Period?
  }

  /** A record the EEPROM can hold: one that preserveClockInfo writes. */
  predicate StoredOk(st: StoredInfo)
  {
    0 <= st.contrastLevel < 256 && 0 <= st.medStartTime < 0x1_0000_0000 && st.medInterval.Period?
  }

  /**
   * The clock's stored fields are in range and its interval is a period; the
   * uint16 registry index holds a uint16; in a scratch edit the scratch
   * snapshot carries the controller's mode (so that the presenter, which is
   * handed it, blinks the edited field), and in the interval and zone edits
   * it holds a valid interval too.
   */
  ghost predicate Inv(s: Ctl)
  {
    StoredFieldsOk(s.clock) && 0 <= s.zoneRegistryIndex < 65536 &&
    (IsScratchEdit(s.clock.mode) ==> s.changing.mode == s.clock.mode) &&
    (IsMedEdit(s.clock.mode) || s.clock.mode == ChangeTimeZoneName ==> StoredFieldsOk(s.changing))
  }

  /** handleModeButtonPress: the next mode, copied to the scratch snapshot. */
  function ModePressStep(s: Ctl): (r: Ctl)
    requires Inv(s)
    ensures Inv(r)
    ensures r.clock.mode == r.changing.mode == NextMode(s.clock.mode)
    ensures r == s.(clock := s.clock.(mode := r.clock.mode), changing := s.changing.(mode := r.clock.mode))
  {
    var m := NextMode(s.clock.mode);
    s.(clock := s.clock.(mode := m), changing := s.changing.(mode := m))
  }

  /** handleModeButtonDoubleClick: the edit is abandoned; only the clock's mode changes. */
  function DoubleClickStep(s: Ctl): (r: Ctl)
    requires Inv(s)
    ensures Inv(r)
    ensures r.clock.mode == DoubleClickMode(s.clock.mode)
    ensures r == s.(clock := s.clock.(mode := r.clock.mode))
  {
    s.(clock := s.clock.(mode := DoubleClickMode(s.clock.mode)))
  }

  /** Abandoning an edit writes nothing, and the clock keeps its schedule, zone and contrast. */
  lemma DoubleClickDiscards(s: Ctl)
    requires Inv(s) && IsEdit(s.clock.mode)
    ensures var r := DoubleClickStep(s);
      !IsEdit(r.clock.mode) && StoredOf(r.clock) == StoredOf(s.clock) &&
      r.storeWrites == s.storeWrites && r.clockWrites == s.clockWrites
  {
  }

  /** preserveClockInfo: the clock's record is written to the EEPROM. */
  function Preserve(s: Ctl): (r: Ctl)
    ensures r == s.(storeWrites := s.storeWrites + [StoredOf(s.clock)])
  {
    s.(storeWrites := s.storeWrites + [StoredOf(s.clock)])
  }

  /** initChangingClock: an unset clock starts its edit at epoch 0 in its zone. */
  function InitChanging(lib: TimeLib, c: ClockInfo): (r: ClockInfo)
    ensures r == c.(dateTime := EpochZeroFallback(lib, c.dateTime))
  {
    c.(dateTime := EpochZeroFallback(lib, c.dateTime))
  }

  /** A long press on the countdown: the scratch snapshot starts from the clock, in the hour edit of the interval. */
  function EnterMedEdit(s: Ctl): (r: Ctl)
    requires Inv(s) && s.clock.mode == ViewMed
    ensures Inv(r)
    ensures r == s.(clock := s.clock.(mode := ChangeMedHour), changing := s.clock.(mode := ChangeMedHour))
  {
    s.(clock := s.clock.(mode := ChangeMedHour), changing := s.clock.(mode := ChangeMedHour))
  }

  /**
   * saveMedInterval: only an interval that differs from the clock's is
   * saved, with its seconds dropped, and only then is the EEPROM written.
   */
  function SaveMedInterval(s: Ctl): (r: Ctl)
    requires Inv(s) && IsMedEdit(s.clock.mode)
    ensures Inv(r)
    ensures s.clock.medInterval == s.changing.medInterval ==> r == s
    ensures s.clock.medInterval != s.changing.medInterval ==>
      r.clock == s.clock.(medInterval := ZeroSecond(s.changing.medInterval)) &&
      r.storeWrites == s.storeWrites + [StoredOf(r.clock)]
    ensures r == s.(clock := r.clock, storeWrites := r.storeWrites)
  {
    if s.clock.medInterval != s.changing.medInterval then
      Preserve(s.(clock := s.clock.(medInterval := ZeroSecond(s.changing.medInterval))))
    else s
  }

  /** A long press in the interval edit: the interval is saved and the countdown shown. */
  function LeaveMedEdit(s: Ctl): (r: Ctl)
    requires Inv(s) && IsMedEdit(s.clock.mode)
    ensures Inv(r)
    ensures var t := SaveMedInterval(s); r == t.(clock := t.clock.(mode := ViewMed), changing := t.changing.(mode := ViewMed))
  {
    var t := SaveMedInterval(s);
    t.(clock := t.clock.(mode := ViewMed), changing := t.changing.(mode := ViewMed))
  }

  /** A long press on the date-time screen: the scratch snapshot starts from the clock, the second not latched. */
  function EnterDateEdit(lib: TimeLib, s: Ctl): (r: Ctl)
    requires Inv(s) && s.clock.mode == ViewDateTime
    ensures Inv(r)
    ensures r == s.(clock := s.clock.(mode := ChangeYear), changing := InitChanging(lib, s.clock.(mode := ChangeYear)),
                    secondFieldCleared := false)
  {
    s.(clock := s.clock.(mode := ChangeYear), changing := InitChanging(lib, s.clock.(mode := ChangeYear)),
       secondFieldCleared := false)
  }

  /** A long press in a date edit: the scratch date-time is normalized and the clock set to it. */
  function LeaveDateEdit(lib: TimeLib, s: Ctl): (r: Ctl)
    requires Inv(s) && IsDateEdit(s.clock.mode)
    ensures Inv(r)
    ensures var dt := lib.normalize(s.changing.dateTime);
      r == s.(clock := s.clock.(mode := ViewDateTime), changing := s.changing.(mode := ViewDateTime, dateTime := dt),
              clockWrites := s.clockWrites + [lib.toEpochSeconds(dt)])
  {
    var dt := lib.normalize(s.changing.dateTime);
    s.(clock := s.clock.(mode := ViewDateTime), changing := s.changing.(mode := ViewDateTime, dateTime := dt),
       clockWrites := s.clockWrites + [lib.toEpochSeconds(dt)])
  }

  /**
   * A long press on the zone screen: the scratch snapshot starts from the
   * clock and the registry index from the clock's zone (as a uint16).
   */
  function EnterZoneEdit(lib: TimeLib, s: Ctl): (r: Ctl)
    requires Inv(s) && s.clock.mode == ViewTimeZone
    ensures Inv(r)
    ensures r == s.(clock := s.clock.(mode := ChangeTimeZoneName),
                    changing := InitChanging(lib, s.clock.(mode := ChangeTimeZoneName)),
                    zoneRegistryIndex := U16(lib.indexForZoneId(s.clock.timeZone.zoneId)))
  {
    s.(clock := s.clock.(mode := ChangeTimeZoneName),
       changing := InitChanging(lib, s.clock.(mode := ChangeTimeZoneName)),
       zoneRegistryIndex := U16(lib.indexForZoneId(s.clock.timeZone.zoneId)))
  }

  /** A long press in the zone edit (saveChangingClockInfo): the clock becomes the scratch snapshot, which is persisted. */
  function LeaveZoneEdit(s: Ctl): (r: Ctl)
    requires Inv(s) && s.clock.mode == ChangeTimeZoneName
    ensures Inv(r)
    ensures r == s.(clock := s.changing.(mode := ViewTimeZone), changing := s.changing.(mode := ViewTimeZone),
                    storeWrites := s.storeWrites + [StoredOf(s.changing)])
  {
    s.(clock := s.changing.(mode := ViewTimeZone), changing := s.changing.(mode := ViewTimeZone),
       storeWrites := s.storeWrites + [StoredOf(s.changing)])
  }

  /** A long press on the settings screen: the contrast edit, on the clock itself. */
  function EnterContrastEdit(s: Ctl): (r: Ctl)
    requires Inv(s) && s.clock.mode == ViewSettings
    ensures Inv(r)
    ensures r == s.(clock := s.clock.(mode := ChangeSettingsContrast), changing := s.changing.(mode := ChangeSettingsContrast))
  {
    s.(clock := s.clock.(mode := ChangeSettingsContrast), changing := s.changing.(mode := ChangeSettingsContrast))
  }

  /** A long press in the contrast edit: the clock's record is persisted. */
  function LeaveContrastEdit(s: Ctl): (r: Ctl)
    requires Inv(s) && s.clock.mode == ChangeSettingsContrast
    ensures Inv(r)
    ensures r == s.(clock := s.clock.(mode := ViewSettings), changing := s.changing.(mode := ViewSettings),
                    storeWrites := s.storeWrites + [StoredOf(s.clock)])
  {
    s.(clock := s.clock.(mode := ViewSettings), changing := s.changing.(mode := ViewSettings),
       storeWrites := s.storeWrites + [StoredOf(s.clock)])
  }

  /** handleModeButtonLongPress: into the edit of a screen, or out of an edit saving it; the mode goes to the scratch snapshot too. */
  function LongPressStep(lib: TimeLib, s: Ctl): (r: Ctl)
    requires Inv(s)
    ensures Inv(r)
    ensures r.clock.mode == r.changing.mode == LongPressMode(s.clock.mode)
  {
    if s.clock.mode in {ViewMed, ViewDateTime, ViewTimeZone, ViewSettings} then EnterEditStep(lib, s)
    else LeaveEditStep(lib, s)
  }

  /** The long press on a screen that has an edit. */
  function EnterEditStep(lib: TimeLib, s: Ctl): (r: Ctl)
    requires Inv(s) && s.clock.mode in {ViewMed, ViewDateTime, ViewTimeZone, ViewSettings}
    ensures Inv(r)
    ensures r.clock.mode == r.changing.mode == LongPressMode(s.clock.mode)
  {
    var m := s.clock.mode;
    if m == ViewMed then EnterMedEdit(s)
    else if m == ViewDateTime then EnterDateEdit(lib, s)
    else if m == ViewTimeZone then EnterZoneEdit(lib, s)
    else EnterContrastEdit(s)
  }

  /** The long press in an edit, or on a screen without one. */
  function LeaveEditStep(lib: TimeLib, s: Ctl): (r: Ctl)
    requires Inv(s) && s.clock.mode !in {ViewMed, ViewDateTime, ViewTimeZone, ViewSettings}
    ensures Inv(r)
    ensures r.clock.mode == r.changing.mode == LongPressMode(s.clock.mode)
  {
    var m := s.clock.mode;
    if IsMedEdit(m) then LeaveMedEdit(s)
    else if IsDateEdit(m) then LeaveDateEdit(lib, s)
    else if m == ChangeTimeZoneName then LeaveZoneEdit(s)
    else if m == ChangeSettingsContrast then LeaveContrastEdit(s)
    else s.(changing := s.changing.(mode := m))
  }

  /**
   * Into the interval edit and straight out again: nothing is written,
   * because the interval did not change; the clock is as it was.
   */
  lemma UnchangedIntervalIsNotWritten(lib: TimeLib, s: Ctl)
    requires Inv(s) && s.clock.mode == ViewMed
    ensures var r := LongPressStep(lib, LongPressStep(lib, s));
      r.clock == s.clock && r.storeWrites == s.storeWrites && r.clockWrites == s.clockWrites
  {
    var t := LongPressStep(lib, s);
    assert t == EnterMedEdit(s);
    assert LongPressStep(lib, t) == LeaveMedEdit(t);
  }

  /**
   * Leaving the interval edit after a change: the clock takes the edited
   * interval with its seconds dropped and keeps everything else, and the
   * record written carries it.
   */
  lemma LongPressSavesInterval(lib: TimeLib, s: Ctl)
    requires Inv(s) && IsMedEdit(s.clock.mode) && s.clock.medInterval != s.changing.medInterval
    ensures var r := LongPressStep(lib, s);
      r.clock == s.clock.(mode := ViewMed, medInterval := ZeroSecond(s.changing.medInterval)) &&
      r.storeWrites == s.storeWrites + [StoredOf(r.clock)] &&
      r.storeWrites[|s.storeWrites|].medInterval == ZeroSecond(s.changing.medInterval) &&
      r.clockWrites == s.clockWrites
  {
    assert LongPressStep(lib, s) == LeaveMedEdit(s);
  }

  /** Leaving the zone edit: the clock takes the chosen zone, and the record written is the clock's new record. */
  lemma LongPressSavesZone(lib: TimeLib, s: Ctl)
    requires Inv(s) && s.clock.mode == ChangeTimeZoneName
    ensures var r := LongPressStep(lib, s);
      r.clock.timeZone == s.changing.timeZone && r.clock.mode == ViewTimeZone &&
      r.storeWrites == s.storeWrites + [StoredOf(r.clock)] && r.clockWrites == s.clockWrites
  {
    assert LongPressStep(lib, s) == LeaveZoneEdit(s);
  }

  /** Leaving a date edit: the clock is set to the normalized scratch time; the EEPROM is not written. */
  lemma LongPressSavesDate(lib: TimeLib, s: Ctl)
    requires Inv(s) && IsDateEdit(s.clock.mode)
    ensures var r := LongPressStep(lib, s);
      r.clock == s.clock.(mode := ViewDateTime) &&
      r.clockWrites == s.clockWrites + [lib.toEpochSeconds(lib.normalize(s.changing.dateTime))] &&
      r.storeWrites == s.storeWrites
  {
    assert LongPressStep(lib, s) == LeaveDateEdit(lib, s);
  }

  /** Both snapshots start (or stop) suppressing the blink. */
  function Suppressed(s: Ctl, on: bool): (r: Ctl)
    ensures Inv(s) ==> Inv(r)
    ensures r.clock.suppressBlink == r.changing.suppressBlink == on
    ensures r == s.(clock := s.clock.(suppressBlink := on), changing := s.changing.(suppressBlink := on))
  {
    s.(clock := s.clock.(suppressBlink := on), changing := s.changing.(suppressBlink := on))
  }

  /** The zoned_date_time_mutation call of each date edit, or the zeroed second. */
  function IncrementField(lib: TimeLib, m: Mode, dt: ZonedDateTime): (r: ZonedDateTime)
    requires IsDateEdit(m)
    ensures m == ChangeYear ==> r == lib.incrementYear(dt)
    ensures m == ChangeMonth ==> r == lib.incrementMonth(dt)
    ensures m == ChangeDay ==> r == lib.incrementDay(dt)
    ensures m == ChangeHour ==> r == lib.incrementHour(dt)
    ensures m == ChangeMinute ==> r == lib.incrementMinute(dt)
    ensures m == ChangeSecond ==> r == WithSecond(dt, 0)
  {
    match m
    case ChangeYear => lib.incrementYear(dt)
    case ChangeMonth => lib.incrementMonth(dt)
    case ChangeDay => lib.incrementDay(dt)
    case ChangeHour => lib.incrementHour(dt)
    case ChangeMinute => lib.incrementMinute(dt)
    case ChangeSecond => dt.(second := 0)
  }

  /** A press in the interval edit: the hour (bounded by the maximum interval) or the minute moves on. */
  function MedPress(maxHours: int, s: Ctl): (r: Ctl)
    requires Inv(s) && IsMedEdit(s.clock.mode) && 0 < maxHours < 256
    ensures Inv(r)
    ensures s.clock.mode == ChangeMedHour ==>
      r == s.(changing := s.changing.(medInterval := IncrementHour(s.changing.medInterval, maxHours)))
    ensures s.clock.mode == ChangeMedMinute ==>
      r == s.(changing := s.changing.(medInterval := IncrementMinute(s.changing.medInterval)))
  {
    var p := if s.clock.mode == ChangeMedHour then IncrementHour(s.changing.medInterval, maxHours)
             else IncrementMinute(s.changing.medInterval);
    s.(changing := s.changing.(medInterval := p))
  }

  /**
   * A press in the zone edit: the next zone of the registry, and the scratch
   * time converted to it.
   */
  function ZonePress(lib: TimeLib, s: Ctl): (r: Ctl)
    requires Inv(s) && s.clock.mode == ChangeTimeZoneName && 0 < lib.registrySize <= 65536
    ensures Inv(r)
    ensures var i := IncrementMod(s.zoneRegistryIndex, lib.registrySize); var tz := lib.createForZoneIndex(i);
      r == s.(zoneRegistryIndex := i,
              changing := s.changing.(timeZone := tz, dateTime := lib.convertToTimeZone(s.changing.dateTime, tz)))
  {
    var i := IncrementMod(s.zoneRegistryIndex, lib.registrySize);
    var tz := lib.createForZoneIndex(i);
    s.(zoneRegistryIndex := i,
       changing := s.changing.(timeZone := tz, dateTime := lib.convertToTimeZone(s.changing.dateTime, tz)))
  }

  /** A press in a date edit: one scratch field changes; the zeroed second is latched. */
  function DatePress(lib: TimeLib, s: Ctl): (r: Ctl)
    requires Inv(s) && IsDateEdit(s.clock.mode)
    ensures Inv(r)
    ensures r == s.(changing := s.changing.(dateTime := IncrementField(lib, s.clock.mode, s.changing.dateTime)),
                    secondFieldCleared := s.secondFieldCleared || s.clock.mode == ChangeSecond)
  {
    s.(changing := s.changing.(dateTime := IncrementField(lib, s.clock.mode, s.changing.dateTime)),
       secondFieldCleared := s.secondFieldCleared || s.clock.mode == ChangeSecond)
  }

  /** A press in the contrast edit: the clock's own level steps through 0..9. */
  function ContrastPress(s: Ctl): (r: Ctl)
    requires Inv(s) && s.clock.mode == ChangeSettingsContrast
    ensures Inv(r)
    ensures r == s.(clock := s.clock.(contrastLevel := IncrementMod(s.clock.contrastLevel, 10)))
  {
    s.(clock := s.clock.(contrastLevel := IncrementMod(s.clock.contrastLevel, 10)))
  }

  /** The switch of handleChangeButtonPress, after both snapshots start suppressing the blink. */
  function ChangeField(lib: TimeLib, maxHours: int, s: Ctl): (r: Ctl)
    requires Inv(s) && 0 < maxHours < 256 && 0 < lib.registrySize <= 65536
    ensures Inv(r)
    ensures r.clock.mode == s.clock.mode && r.changing.mode == s.changing.mode
    ensures r.clock.suppressBlink == s.clock.suppressBlink && r.changing.suppressBlink == s.changing.suppressBlink
    ensures (r.presented, r.displayCalls, r.storeWrites, r.clockWrites, r.isPreparingToSleep) ==
            (s.presented, s.displayCalls, s.storeWrites, s.clockWrites, s.isPreparingToSleep)
    ensures !IsEdit(s.clock.mode) ==> r == s
  {
    var m := s.clock.mode;
    if IsMedEdit(m) then MedPress(maxHours, s)
    else if m == ChangeTimeZoneName then ZonePress(lib, s)
    else if IsDateEdit(m) then DatePress(lib, s)
    else if m == ChangeSettingsContrast then ContrastPress(s)
    else s
  }

  /** The seconds left until the next dose, as the int32 arithmetic of getRemainingTimePeriod yields them. */
  function RemainingSeconds(lib: TimeLib, c: ClockInfo): int
    requires c.medInterval.Period?
  {
    // medStartTime is a uint32 and the sum and difference are taken in
    // uint32 before the int32 assignment; all of it is arithmetic modulo
    // 2^32, so the result is one int32 wrap of the exact value.
    I32(c.medStartTime + ToSeconds(c.medInterval) - lib.toEpochSeconds(c.dateTime))
  }

  /**
   * getRemainingTimePeriod: the time left until the next dose, or the error
   * period when the clock is unset or the time left is more than the
   * maximum interval either way.
   */
  function Remaining(lib: TimeLib, maxHours: int, c: ClockInfo): (p: TimePeriod)
    requires c.medInterval.Period?
    ensures p.PeriodError? <==>
      c.dateTime.isError || RemainingSeconds(lib, c) > maxHours * 3600 || RemainingSeconds(lib, c) < -maxHours * 3600
    ensures p.Period? ==> WellFormed(p)
  {
    if c.dateTime.isError then PeriodError
    else
      var remaining := RemainingSeconds(lib, c);
      if remaining > maxHours * 3600 || remaining < -maxHours * 3600 then PeriodError
      else FromSeconds(remaining)
  }

  /**
   * The countdown is the due time minus the present: the time of the last
   * dose plus the interval, less the clock's epoch seconds, exactly while
   * that fits an int32.
   */
  lemma {:induction false} RemainingIsTimeToDue(lib: TimeLib, maxHours: int, c: ClockInfo)
    requires c.medInterval.Period? && 0 < maxHours < 256
    requires Remaining(lib, maxHours, c).Period?
    ensures ToSeconds(Remaining(lib, maxHours, c)) == RemainingSeconds(lib, c)
    ensures var exact := c.medStartTime + ToSeconds(c.medInterval) - lib.toEpochSeconds(c.dateTime);
      -0x8000_0000 <= exact < 0x8000_0000 ==> ToSeconds(Remaining(lib, maxHours, c)) == exact
  {
    FromSecondsRoundTrip(RemainingSeconds(lib, c));
  }

  /**
   * Just after a dose is recorded (handleChangeButtonLongPress stores the
   * clock's epoch seconds as a uint32), the countdown shows the whole
   * interval, whatever the epoch seconds, wrap-around of the uint32
   * included.
   */
  lemma {:induction false} DoseResetsCountdown(lib: TimeLib, maxHours: int, c: ClockInfo)
    requires 0 < maxHours < 256 && !c.dateTime.isError && WellFormed(c.medInterval)
    requires -maxHours * 3600 <= ToSeconds(c.medInterval) <= maxHours * 3600
    requires c.medInterval.sign == 1 || ToSeconds(c.medInterval) != 0
    ensures var d := c.(medStartTime := U32(lib.toEpochSeconds(c.dateTime)));
      Remaining(lib, maxHours, d) == c.medInterval
  {
    var e := lib.toEpochSeconds(c.dateTime);
    var d := c.(medStartTime := U32(e));
    var x := ToSeconds(c.medInterval);
    U32Offset(e);
    I32Periodic(x, -(e / 0x1_0000_0000));
    assert U32(e) + x - e == x + (-(e / 0x1_0000_0000)) * 0x1_0000_0000;
    assert RemainingSeconds(lib, d) == x;
    ToSecondsRoundTrip(c.medInterval);
  }

  /** handleChangeButtonLongPress: on the countdown a dose is recorded at the clock's time and persisted; elsewhere nothing. */
  function DoseStep(lib: TimeLib, s: Ctl): (r: Ctl)
    requires Inv(s)
    ensures Inv(r)
    ensures s.clock.mode != ViewMed ==> r == s
    ensures s.clock.mode == ViewMed ==>
      r.clock == s.clock.(medStartTime := U32(lib.toEpochSeconds(s.clock.dateTime))) &&
      r.storeWrites == s.storeWrites + [StoredOf(r.clock)] &&
      r == s.(clock := r.clock, storeWrites := r.storeWrites)
  {
    if s.clock.mode == ViewMed then
      Preserve(s.(clock := s.clock.(medStartTime := U32(lib.toEpochSeconds(s.clock.dateTime)))))
    else s
  }

  /**
   * updateDateTime: the clock reads the time in its zone; in a date edit
   * the scratch second follows the clock's until it has been zeroed.
   */
  function DateTimeStep(lib: TimeLib, nowSeconds: int, s: Ctl): (r: Ctl)
    requires Inv(s)
    ensures Inv(r)
    ensures r.clock == s.clock.(dateTime := lib.forEpochSeconds(nowSeconds, s.clock.timeZone))
    ensures IsDateEdit(s.clock.mode) && !s.secondFieldCleared ==>
      r.changing == s.changing.(dateTime := WithSecond(s.changing.dateTime, r.clock.dateTime.second))
    ensures !IsDateEdit(s.clock.mode) || s.secondFieldCleared ==> r.changing == s.changing
    ensures r == s.(clock := r.clock, changing := r.changing)
  {
    var live := lib.forEpochSeconds(nowSeconds, s.clock.timeZone);
    var c := s.changing;
    s.(clock := s.clock.(dateTime := live),
       changing := if IsDateEdit(s.clock.mode) && !s.secondFieldCleared
                   then c.(dateTime := c.dateTime.(second := live.second)) else c)
  }

  /** The modes in which the presenter is handed the clock's own snapshot. */
  predicate ShowsClock(m: Mode)
  {
    m in {ViewDateTime, ViewTimeZone, ViewSettings, ViewAbout, ChangeSettingsContrast}
  }

  /** On the countdown the scratch snapshot is the clock with the time left in place of the interval. */
  function CountdownStep(lib: TimeLib, maxHours: int, s: Ctl): (r: Ctl)
    requires Inv(s) && s.clock.mode == ViewMed
    ensures Inv(r)
    ensures r == s.(changing := s.clock.(medInterval := Remaining(lib, maxHours, s.clock)),
                    presented := s.clock.(medInterval := Remaining(lib, maxHours, s.clock)))
  {
    var c := s.clock.(medInterval := Remaining(lib, maxHours, s.clock));
    s.(changing := c, presented := c)
  }

  /**
   * updatePresenter: the presenter is handed the clock on the screens and
   * in the contrast edit, the scratch snapshot in the other edits, and the
   * countdown on the medication screen.
   */
  function PresentStep(lib: TimeLib, maxHours: int, s: Ctl): (r: Ctl)
    requires Inv(s)
    ensures Inv(r)
    ensures ShowsClock(s.clock.mode) ==> r == s.(presented := s.clock)
    ensures IsScratchEdit(s.clock.mode) ==> r == s.(presented := s.changing)
    ensures s.clock.mode == ViewMed ==> r == CountdownStep(lib, maxHours, s)
    ensures s.clock.mode == Unknown ==> r == s
  {
    var m := s.clock.mode;
    if ShowsClock(m) then s.(presented := s.clock)
    else if IsScratchEdit(m) then s.(presented := s.changing)
    else if m == ViewMed then CountdownStep(lib, maxHours, s)
    else s
  }

  /**
   * update: nothing before the mode is known or while preparing to sleep;
   * otherwise read the time, hand the presenter its snapshot and redraw.
   */
  function UpdateStep(lib: TimeLib, maxHours: int, nowSeconds: int, s: Ctl): (r: Ctl)
    requires Inv(s)
    ensures Inv(r)
    ensures s.clock.mode == Unknown || s.isPreparingToSleep ==> r == s
    ensures s.clock.mode != Unknown && !s.isPreparingToSleep ==>
      var t := PresentStep(lib, maxHours, DateTimeStep(lib, nowSeconds, s));
      r == t.(displayCalls := t.displayCalls + [t.presented])
  {
    if s.clock.mode == Unknown || s.isPreparingToSleep then s
    else
      var t := PresentStep(lib, maxHours, DateTimeStep(lib, nowSeconds, s));
      t.(displayCalls := t.displayCalls + [t.presented])
  }

  /**
   * In every scratch edit the presenter is handed the scratch snapshot, in
   * the controller's mode, so that it blinks the field being edited; on
   * the countdown it is handed the clock with the time left.
   */
  lemma PresenterSeesEdit(lib: TimeLib, maxHours: int, nowSeconds: int, s: Ctl)
    requires Inv(s) && s.clock.mode != Unknown && !s.isPreparingToSleep
    ensures var r := UpdateStep(lib, maxHours, nowSeconds, s);
      r.displayCalls == s.displayCalls + [r.presented] &&
      r.presented.mode == s.clock.mode &&
      (IsScratchEdit(s.clock.mode) ==> r.presented == r.changing) &&
      (s.clock.mode == ViewMed ==> r.presented == r.clock.(medInterval := Remaining(lib, maxHours, r.clock)))
  {
  }

  /** handleChangeButtonPress (and the repeat press): suppress the blink, change the field, update. */
  function ChangeStep(lib: TimeLib, maxHours: int, nowSeconds: int, s: Ctl): (r: Ctl)
    requires Inv(s) && 0 < maxHours < 256 && 0 < lib.registrySize <= 65536
    ensures Inv(r)
    ensures r == UpdateStep(lib, maxHours, nowSeconds, ChangeField(lib, maxHours, Suppressed(s, true)))
  {
    UpdateStep(lib, maxHours, nowSeconds, ChangeField(lib, maxHours, Suppressed(s, true)))
  }

  /** While the change button is held in an edit, the presenter is handed a snapshot that does not blink. */
  lemma HeldButtonSuppressesBlink(lib: TimeLib, maxHours: int, nowSeconds: int, s: Ctl)
    requires Inv(s) && 0 < maxHours < 256 && 0 < lib.registrySize <= 65536
    requires IsEdit(s.clock.mode) && !s.isPreparingToSleep
    ensures var r := ChangeStep(lib, maxHours, nowSeconds, s);
      r.presented.suppressBlink && r.displayCalls[|r.displayCalls| - 1] == r.presented
  {
  }

  /**
   * Each press of the zone edit selects the next zone of the registry, and
   * after as many presses as the registry has zones the walk is back at
   * the first one.
   */
  lemma ZonePressWalksRegistry(lib: TimeLib, s: Ctl)
    requires Inv(s) && s.clock.mode == ChangeTimeZoneName && 0 < lib.registrySize <= 65536
    requires s.zoneRegistryIndex < lib.registrySize
    ensures var r := ZonePress(lib, s);
      r.zoneRegistryIndex == IncrementMod(s.zoneRegistryIndex, lib.registrySize) &&
      r.changing.timeZone == lib.createForZoneIndex(r.zoneRegistryIndex)
    ensures IncrementModTimes(s.zoneRegistryIndex, lib.registrySize, lib.registrySize) == s.zoneRegistryIndex
  {
    RegistryWalkPeriod(s.zoneRegistryIndex, lib.registrySize);
  }

  /** handleChangeButtonRelease: every edit stops suppressing the blink. */
  function ReleaseStep(s: Ctl): (r: Ctl)
    requires Inv(s)
    ensures Inv(r)
    ensures IsEdit(s.clock.mode) ==> r == Suppressed(s, false)
    ensures !IsEdit(s.clock.mode) ==> r == s
  {
    if IsEdit(s.clock.mode) then Suppressed(s, false) else s
  }

  /** A press and its release in an edit leave both snapshots blinking again. */
  lemma PressReleaseUnsuppresses(lib: TimeLib, maxHours: int, nowSeconds: int, s: Ctl)
    requires Inv(s) && 0 < maxHours < 256 && 0 < lib.registrySize <= 65536 && IsEdit(s.clock.mode)
    ensures var r := ReleaseStep(ChangeStep(lib, maxHours, nowSeconds, s));
      !r.clock.suppressBlink && !r.changing.suppressBlink
  {
  }

  /** updateBlinkState: both snapshots flip their blink phase, and the presenter is handed its snapshot. */
  function BlinkStep(lib: TimeLib, maxHours: int, s: Ctl): (r: Ctl)
    requires Inv(s)
    ensures Inv(r)
    ensures r == PresentStep(lib, maxHours, s.(clock := s.clock.(blinkShowState := !s.clock.blinkShowState),
                                              changing := s.changing.(blinkShowState := !s.changing.blinkShowState)))
  {
    PresentStep(lib, maxHours, s.(clock := s.clock.(blinkShowState := !s.clock.blinkShowState),
                                  changing := s.changing.(blinkShowState := !s.changing.blinkShowState)))
  }

  /** prepareToSleep: updates stop, and the display is switched off. */
  function SleepStep(s: Ctl): (r: Ctl)
    ensures Inv(s) ==> Inv(r)
    ensures r == s.(isPreparingToSleep := true, powerCalls := s.powerCalls + [false])
  {
    s.(isPreparingToSleep := true, powerCalls := s.powerCalls + [false])
  }

  /** wakeup: updates resume, the display is switched on, and the clock is synced and read in its zone. */
  function WakeupStep(lib: TimeLib, nowSeconds: int, s: Ctl): (r: Ctl)
    ensures Inv(s) ==> Inv(r)
    ensures r == s.(isPreparingToSleep := false, powerCalls := s.powerCalls + [true], syncCalls := s.syncCalls + 1,
                    clock := s.clock.(dateTime := lib.forEpochSeconds(nowSeconds, s.clock.timeZone)))
  {
    s.(isPreparingToSleep := false, powerCalls := s.powerCalls + [true], syncCalls := s.syncCalls + 1,
       clock := s.clock.(dateTime := lib.forEpochSeconds(nowSeconds, s.clock.timeZone)))
  }

  /**
   * Between prepareToSleep and wakeup every update is ignored, so nothing is
   * redrawn on a display that is off; the wake-up switches it back on.
   */
  lemma AsleepIgnoresUpdates(lib: TimeLib, maxHours: int, t1: int, t2: int, s: Ctl)
    requires Inv(s)
    ensures var a := SleepStep(s);
      UpdateStep(lib, maxHours, t2, UpdateStep(lib, maxHours, t1, a)) == a &&
      a.displayCalls == s.displayCalls && a.powerCalls == s.powerCalls + [false]
    ensures var w := WakeupStep(lib, t2, SleepStep(s));
      !w.isPreparingToSleep && w.powerCalls == s.powerCalls + [false, true] && w.displayCalls == s.displayCalls
  {
  }

  /** restoreClockInfo on the clock: the record's zone, schedule and contrast. */
  function RestoreStep(st: StoredInfo, s: Ctl): (r: Ctl)
    requires Inv(s) && StoredOk(st)
    ensures Inv(r)
    ensures StoredOf(r.clock) == st
    ensures r == s.(clock := WithStored(s.clock, st))
  {
    s.(clock := WithStored(s.clock, st))
  }

  /** The record setupClockInfo means to install: the initial zone, a one-day interval from now, the initial contrast. */
  function Defaults(initialZone: TimeZone, initialContrast: int, nowSeconds: int): (st: StoredInfo)
    requires 0 <= initialContrast < 256
    ensures StoredOk(st)
    ensures ToSeconds(st.medInterval) == 86400 && st.timeZone == initialZone && st.contrastLevel == initialContrast
    ensures 0 <= nowSeconds < 0x1_0000_0000 ==> st.medStartTime == nowSeconds
  {
    FromSecondsRoundTrip(86400);
    StoredInfo(initialZone, U32(nowSeconds), FromSeconds(86400), initialContrast)
  }

  /**
   * setupClockInfo as written: the clock's contrast is set, the clock's
   * record is persisted, and only then are the defaults (whose contrast
   * was never set, unsetContrast here) copied into the clock.
   */
  function SetupClockInfoAsWritten(initialZone: TimeZone, initialContrast: int, unsetContrast: int,
                                   nowSeconds: int, s: Ctl): (r: Ctl)
    requires Inv(s) && 0 <= initialContrast < 256 && 0 <= unsetContrast < 256
    ensures Inv(r)
    ensures r.storeWrites == s.storeWrites + [StoredOf(s.clock).(contrastLevel := initialContrast)]
    ensures StoredOf(r.clock) == Defaults(initialZone, initialContrast, nowSeconds).(contrastLevel := unsetContrast)
  {
    var t := s.(clock := s.clock.(contrastLevel := initialContrast));
    var defaults := Defaults(initialZone, initialContrast, nowSeconds).(contrastLevel := unsetContrast);
    RestoreStep(defaults, Preserve(t))
  }

  /**
   * As written, the record that reaches the EEPROM on a first boot is the
   * clock's record from before setup, not the defaults: on the next boot the
   * constructor's zero interval and zero start time come back instead of a
   * one-day interval from now, and the contrast in use is the unset value
   * rather than the initial one.
   */
  lemma SetupAsWrittenPersistsStaleRecord(initialZone: TimeZone, initialContrast: int, unsetContrast: int,
                                          nowSeconds: int, s: Ctl)
    requires Inv(s) && 0 <= initialContrast < 256 && 0 <= unsetContrast < 256
    requires s.clock == ZeroClockInfo.(mode := ViewDateTime) && 0 < nowSeconds < 0x1_0000_0000
    ensures var r := SetupClockInfoAsWritten(initialZone, initialContrast, unsetContrast, nowSeconds, s);
      var written := StoredOf(s.clock).(contrastLevel := initialContrast);
      r.storeWrites == s.storeWrites + [written] &&
      ToSeconds(written.medInterval) == 0 && written.medStartTime == 0 &&
      ToSeconds(r.clock.medInterval) == 86400 && r.clock.medStartTime == nowSeconds &&
      r.clock.contrastLevel == unsetContrast &&
      written != StoredOf(r.clock)
  {
  }

  /** setupClockInfo as intended: the defaults are installed in the clock and persisted. */
  function SetupClockInfo(initialZone: TimeZone, initialContrast: int, nowSeconds: int, s: Ctl): (r: Ctl)
    requires Inv(s) && 0 <= initialContrast < 256
    ensures Inv(r)
    ensures r.storeWrites == s.storeWrites + [StoredOf(r.clock)]
    ensures StoredOf(r.clock) == Defaults(initialZone, initialContrast, nowSeconds)
  {
    Preserve(RestoreStep(Defaults(initialZone, initialContrast, nowSeconds), s))
  }

  /** setup: a valid record is restored; otherwise the defaults are installed. */
  function SetupStep(initialZone: TimeZone, initialContrast: int, read: StoreRead, nowSeconds: int, s: Ctl): (r: Ctl)
    requires Inv(s) && 0 <= initialContrast < 256
    requires read.StoreOk? ==> StoredOk(read.stored)
    ensures Inv(r)
    ensures read.StoreOk? ==> r == RestoreStep(read.stored, s)
    ensures read.StoreBad? ==> r == SetupClockInfo(initialZone, initialContrast, nowSeconds, s)
  {
    if read.StoreOk? then RestoreStep(read.stored, s)
    else SetupClockInfo(initialZone, initialContrast, nowSeconds, s)
  }

  /**
   * After a first boot the next boot restores exactly what the first one
   * installed: the initial zone, a one-day interval started at that boot,
   * and the initial contrast.
   */
  lemma {:induction false} FirstBootSurvivesReboot(initialZone: TimeZone, initialContrast: int, nowSeconds: int,
                                                   later: int, s: Ctl, s2: Ctl)
    requires Inv(s) && Inv(s2) && 0 <= initialContrast < 256
    ensures var r := SetupStep(initialZone, initialContrast, StoreBad, nowSeconds, s);
      var written := r.storeWrites[|r.storeWrites| - 1];
      StoredOk(written) &&
      StoredOf(SetupStep(initialZone, initialContrast, StoreOk(written), later, s2).clock) == StoredOf(r.clock) ==
        Defaults(initialZone, initialContrast, nowSeconds)
  {
    var r := SetupStep(initialZone, initialContrast, StoreBad, nowSeconds, s);
    assert r == SetupClockInfo(initialZone, initialContrast, nowSeconds, s);
  }

  /** Every save writes the record of the clock it leaves behind, so a reboot restores the clock's schedule, zone and contrast. */
  lemma SavesPersistTheClock(lib: TimeLib, s: Ctl, s2: Ctl)
    requires Inv(s) && Inv(s2)
    requires IsEdit(s.clock.mode) && (IsMedEdit(s.clock.mode) ==> s.clock.medInterval != s.changing.medInterval)
    ensures var r := LongPressStep(lib, s);
      !IsDateEdit(s.clock.mode) ==>
        |r.storeWrites| == |s.storeWrites| + 1 && r.storeWrites[|s.storeWrites|] == StoredOf(r.clock) &&
        StoredOf(RestoreStep(r.storeWrites[|s.storeWrites|], s2).clock) == StoredOf(r.clock)
  {
    var m := s.clock.mode;
    if IsMedEdit(m) {
      LongPressSavesInterval(lib, s);
    } else if m == ChangeTimeZoneName {
      LongPressSavesZone(lib, s);
    } else if m == ChangeSettingsContrast {
      assert LongPressStep(lib, s) == LeaveContrastEdit(s);
    }
  }

  /** A recorded dose survives a reboot: the record written carries the new start time. */
  lemma DoseSurvivesReboot(lib: TimeLib, s: Ctl, s2: Ctl)
    requires Inv(s) && Inv(s2) && s.clock.mode == ViewMed
    ensures var r := DoseStep(lib, s); var written := r.storeWrites[|r.storeWrites| - 1];
      written.medStartTime == U32(lib.toEpochSeconds(s.clock.dateTime)) &&
      RestoreStep(written, s2).clock.medStartTime == written.medStartTime &&
      RestoreStep(written, s2).clock.medInterval == s.clock.medInterval
  {
  }

  class Controller {
    const lib: TimeLib
    /** MAX_MED_INTERVAL_HOURS: the longest interval, and the range of the countdown either way. */
    const maxMedIntervalHours: int
    /** The zone of the controller's constructor, and OLED_INITIAL_CONTRAST. */
    const initialZone: TimeZone
    const initialContrast: int

    var clockInfo: ClockInfo
    var changingInfo: ClockInfo
    var zoneRegistryIndex: int
    var secondFieldCleared: bool
    var isPreparingToSleep: bool
    /** The ClockInfo last handed to the presenter's setClockInfo(). */
    var presented: ClockInfo
    /** The presenter's updateDisplay() calls, with the ClockInfo it then held. */
    var displayCalls: seq<ClockInfo>
    /** The presenter's prepareToSleep() (false) and wakeup() (true) calls. */
    var powerCalls: seq<bool>
    /** The clock's forceSync() calls. */
    var syncCalls: nat
    /** The clock's setNow() calls, in epoch seconds. */
    var clockWrites: seq<int>
    /** The records written to the EEPROM. */
    var storeWrites: seq<StoredInfo>

    function State(): Ctl
      reads this
    {
      Ctl(clockInfo, changingInfo, zoneRegistryIndex, secondFieldCleared, isPreparingToSleep,
          presented, displayCalls, powerCalls, syncCalls, clockWrites, storeWrites)
    }

    ghost predicate Valid()
      reads this
    {
      Inv(State()) && 0 < maxMedIntervalHours < 256 && 0 < lib.registrySize <= 65536 && 0 <= initialContrast < 256
    }

    /** A statically allocated controller: every field zero, the clock on the date-time screen. */
    constructor (lib: TimeLib, maxMedIntervalHours: int, initialZone: TimeZone, initialContrast: int)
      requires 0 < maxMedIntervalHours < 256 && 0 < lib.registrySize <= 65536 && 0 <= initialContrast < 256
      ensures Valid()
      ensures this.lib == lib && this.maxMedIntervalHours == maxMedIntervalHours
      ensures this.initialZone == initialZone && this.initialContrast == initialContrast
      ensures State() == Ctl(ZeroClockInfo.(mode := ViewDateTime), ZeroClockInfo, 0, false, false,
                             ZeroClockInfo, [], [], 0, [], [])
    {
      this.lib := lib;
      this.maxMedIntervalHours := maxMedIntervalHours;
      this.initialZone := initialZone;
      this.initialContrast := initialContrast;
      clockInfo := ZeroClockInfo.(mode := ViewDateTime);
      changingInfo := ZeroClockInfo;
      zoneRegistryIndex := 0;
      secondFieldCleared := false;
      isPreparingToSleep := false;
      presented := ZeroClockInfo;
      displayCalls := [];
      powerCalls := [];
      syncCalls := 0;
      clockWrites := [];
      storeWrites := [];
    }

    /** setup: restore the record read from the EEPROM, or install the defaults. */
    method Setup(read: StoreRead, nowSeconds: int)
      requires Valid()
      requires read.StoreOk? ==> StoredOk(read.stored)
      modifies this
      ensures Valid()
      ensures State() == SetupStep(initialZone, initialContrast, read, nowSeconds, old(State()))
    {
      if read.StoreOk? {
        RestoreClockInfo(read.stored);
      } else {
        SetupClockInfoDefaults(nowSeconds);
      }
    }

    method RestoreClockInfo(st: StoredInfo)
      requires Valid() && StoredOk(st)
      modifies this`clockInfo
      ensures Valid()
      ensures State() == RestoreStep(st, old(State()))
    {
      clockInfo := WithStored(clockInfo, st);
    }

    /** setupClockInfo, with the defaults installed before they are persisted. */
    method SetupClockInfoDefaults(nowSeconds: int)
      requires Valid()
      modifies this`clockInfo, this`storeWrites
      ensures Valid()
      ensures State() == SetupClockInfo(initialZone, initialContrast, nowSeconds, old(State()))
    {
      RestoreClockInfo(Defaults(initialZone, initialContrast, nowSeconds));
      PreserveClockInfo();
    }

    method PreserveClockInfo()
      modifies this`storeWrites
      ensures State() == Preserve(old(State()))
    {
      storeWrites := storeWrites + [StoredOf(clockInfo)];
    }

    /** syncClock: force a sync, then read the time in the clock's zone. */
    method SyncClock(nowSeconds: int)
      modifies this`syncCalls, this`clockInfo
      ensures syncCalls == old(syncCalls) + 1
      ensures clockInfo == old(clockInfo).(dateTime := lib.forEpochSeconds(nowSeconds, old(clockInfo).timeZone))
    {
      syncCalls := syncCalls + 1;
      clockInfo := clockInfo.(dateTime := lib.forEpochSeconds(nowSeconds, clockInfo.timeZone));
    }

    method Wakeup(nowSeconds: int)
      requires Valid()
      modifies this
      ensures Valid()
      ensures State() == WakeupStep(lib, nowSeconds, old(State()))
    {
      isPreparingToSleep := false;
      powerCalls := powerCalls + [true];
      SyncClock(nowSeconds);
    }

    method PrepareToSleep()
      requires Valid()
      modifies this
      ensures Valid()
      ensures State() == SleepStep(old(State()))
    {
      isPreparingToSleep := true;
      powerCalls := powerCalls + [false];
    }

    method HandleModeButtonPress()
      requires Valid()
      modifies this
      ensures Valid()
      ensures State() == ModePressStep(old(State()))
    {
      var m := NextMode(clockInfo.mode);
      clockInfo := clockInfo.(mode := m);
      changingInfo := changingInfo.(mode := m);
    }

    method HandleModeButtonDoubleClick()
      requires Valid()
      modifies this
      ensures Valid()
      ensures State() == DoubleClickStep(old(State()))
    {
      clockInfo := clockInfo.(mode := DoubleClickMode(clockInfo.mode));
    }

    method HandleModeButtonLongPress()
      requires Valid()
      modifies this
      ensures Valid()
      ensures State() == LongPressStep(lib, old(State()))
    {
      if clockInfo.mode in {ViewMed, ViewDateTime, ViewTimeZone, ViewSettings} {
        EnterEditing();
      } else {
        LeaveEditing();
      }
    }

    /** The cases of handleModeButtonLongPress on a screen that has an edit. */
    method EnterEditing()
      requires Valid() && clockInfo.mode in {ViewMed, ViewDateTime, ViewTimeZone, ViewSettings}
      modifies this
      ensures Valid()
      ensures State() == EnterEditStep(lib, old(State()))
    {
      var m := clockInfo.mode;
      if m == ViewMed {
        EnterMedEditing();
      } else if m == ViewDateTime {
        EnterDateEditing();
      } else if m == ViewTimeZone {
        EnterZoneEditing();
      } else {
        EnterContrastEditing();
      }
    }

    /** The cases of handleModeButtonLongPress in an edit, or on a screen without one. */
    method LeaveEditing()
      requires Valid() && clockInfo.mode !in {ViewMed, ViewDateTime, ViewTimeZone, ViewSettings}
      modifies this
      ensures Valid()
      ensures State() == LeaveEditStep(lib, old(State()))
    {
      var m := clockInfo.mode;
      if IsMedEdit(m) {
        LeaveMedEditing();
      } else if IsDateEdit(m) {
        LeaveDateEditing();
      } else if m == ChangeTimeZoneName {
        SaveChangingClockInfo();
      } else if m == ChangeSettingsContrast {
        LeaveContrastEditing();
      } else {
        changingInfo := changingInfo.(mode := m);
      }
    }

    method EnterMedEditing()
      requires Valid() && clockInfo.mode == ViewMed
      modifies this`clockInfo, this`changingInfo
      ensures State() == EnterMedEdit(old(State()))
    {
      changingInfo := clockInfo.(mode := ChangeMedHour);
      clockInfo := clockInfo.(mode := ChangeMedHour);
    }

    method LeaveMedEditing()
      requires Valid() && IsMedEdit(clockInfo.mode)
      modifies this`clockInfo, this`changingInfo, this`storeWrites
      ensures State() == LeaveMedEdit(old(State()))
    {
      SaveMedIntervalIfChanged();
      clockInfo := clockInfo.(mode := ViewMed);
      changingInfo := changingInfo.(mode := ViewMed);
    }

    method EnterContrastEditing()
      requires Valid() && clockInfo.mode == ViewSettings
      modifies this`clockInfo, this`changingInfo
      ensures State() == EnterContrastEdit(old(State()))
    {
      clockInfo := clockInfo.(mode := ChangeSettingsContrast);
      changingInfo := changingInfo.(mode := ChangeSettingsContrast);
    }

    method LeaveContrastEditing()
      requires Valid() && clockInfo.mode == ChangeSettingsContrast
      modifies this`clockInfo, this`changingInfo, this`storeWrites
      ensures State() == LeaveContrastEdit(old(State()))
    {
      PreserveClockInfo();
      clockInfo := clockInfo.(mode := ViewSettings);
      changingInfo := changingInfo.(mode := ViewSettings);
    }

    /** saveMedInterval. */
    method SaveMedIntervalIfChanged()
      requires Valid() && IsMedEdit(clockInfo.mode)
      modifies this`clockInfo, this`storeWrites
      ensures Valid()
      ensures State() == SaveMedInterval(old(State()))
    {
      if clockInfo.medInterval != changingInfo.medInterval {
        clockInfo := clockInfo.(medInterval := ZeroSecond(changingInfo.medInterval));
        PreserveClockInfo();
      }
    }

    method EnterDateEditing()
      requires Valid() && clockInfo.mode == ViewDateTime
      modifies this`clockInfo, this`changingInfo, this`secondFieldCleared
      ensures State() == EnterDateEdit(lib, old(State()))
    {
      changingInfo := clockInfo;
      secondFieldCleared := false;
      InitChangingClock();
      clockInfo := clockInfo.(mode := ChangeYear);
      changingInfo := changingInfo.(mode := ChangeYear);
    }

    /** saveDateTime, then the date-time screen. */
    method LeaveDateEditing()
      requires Valid() && IsDateEdit(clockInfo.mode)
      modifies this`clockInfo, this`changingInfo, this`clockWrites
      ensures State() == LeaveDateEdit(lib, old(State()))
    {
      var dt := lib.normalize(changingInfo.dateTime);
      changingInfo := changingInfo.(dateTime := dt);
      clockWrites := clockWrites + [lib.toEpochSeconds(dt)];
      clockInfo := clockInfo.(mode := ViewDateTime);
      changingInfo := changingInfo.(mode := ViewDateTime);
    }

    method EnterZoneEditing()
      requires Valid() && clockInfo.mode == ViewTimeZone
      modifies this`clockInfo, this`changingInfo, this`zoneRegistryIndex
      ensures State() == EnterZoneEdit(lib, old(State()))
    {
      changingInfo := clockInfo;
      InitChangingClock();
      zoneRegistryIndex := U16(lib.indexForZoneId(changingInfo.timeZone.zoneId));
      clockInfo := clockInfo.(mode := ChangeTimeZoneName);
      changingInfo := changingInfo.(mode := ChangeTimeZoneName);
    }

    /** saveChangingClockInfo, then the zone screen. */
    method SaveChangingClockInfo()
      requires Valid() && clockInfo.mode == ChangeTimeZoneName
      modifies this`clockInfo, this`changingInfo, this`storeWrites
      ensures State() == LeaveZoneEdit(old(State()))
    {
      clockInfo := changingInfo;
      PreserveClockInfo();
      clockInfo := clockInfo.(mode := ViewTimeZone);
      changingInfo := changingInfo.(mode := ViewTimeZone);
    }

    method InitChangingClock()
      modifies this`changingInfo
      ensures changingInfo == InitChanging(lib, old(changingInfo))
    {
      if changingInfo.dateTime.isError {
        changingInfo := changingInfo.(dateTime := lib.forEpochSeconds(0, changingInfo.dateTime.timeZone));
      }
    }

    /** handleChangeButtonPress, and handleChangeButtonRepeatPress, which is the same. */
    method HandleChangeButtonPress(nowSeconds: int)
      requires Valid()
      modifies this
      ensures Valid()
      ensures State() == ChangeStep(lib, maxMedIntervalHours, nowSeconds, old(State()))
    {
      clockInfo := clockInfo.(suppressBlink := true);
      changingInfo := changingInfo.(suppressBlink := true);
      ApplyChange();
      Update(nowSeconds);
    }

    /** The switch of handleChangeButtonPress. */
    method ApplyChange()
      requires Valid()
      modifies this`clockInfo, this`changingInfo, this`zoneRegistryIndex, this`secondFieldCleared
      ensures Valid()
      ensures State() == ChangeField(lib, maxMedIntervalHours, old(State()))
    {
      var m := clockInfo.mode;
      if m == ChangeMedHour {
        changingInfo := changingInfo.(medInterval := IncrementHour(changingInfo.medInterval, maxMedIntervalHours));
      } else if m == ChangeMedMinute {
        changingInfo := changingInfo.(medInterval := IncrementMinute(changingInfo.medInterval));
      } else if m == ChangeTimeZoneName {
        ChangeZoneName();
      } else if IsDateEdit(m) {
        changingInfo := changingInfo.(dateTime := IncrementField(lib, m, changingInfo.dateTime));
        if m == ChangeSecond {
          secondFieldCleared := true;
        }
      } else if m == ChangeSettingsContrast {
        clockInfo := clockInfo.(contrastLevel := IncrementMod(clockInfo.contrastLevel, 10));
      }
    }

    method ChangeZoneName()
      requires Valid() && clockInfo.mode == ChangeTimeZoneName
      modifies this`changingInfo, this`zoneRegistryIndex
      ensures State() == ZonePress(lib, old(State()))
    {
      zoneRegistryIndex := IncrementMod(zoneRegistryIndex, lib.registrySize);
      var tz := lib.createForZoneIndex(zoneRegistryIndex);
      changingInfo := changingInfo.(timeZone := tz, dateTime := lib.convertToTimeZone(changingInfo.dateTime, tz));
    }

    method HandleChangeButtonRelease()
      requires Valid()
      modifies this
      ensures Valid()
      ensures State() == ReleaseStep(old(State()))
    {
      if IsEdit(clockInfo.mode) {
        clockInfo := clockInfo.(suppressBlink := false);
        changingInfo := changingInfo.(suppressBlink := false);
      }
    }

    method HandleChangeButtonLongPress()
      requires Valid()
      modifies this
      ensures Valid()
      ensures State() == DoseStep(lib, old(State()))
    {
      if clockInfo.mode == ViewMed {
        clockInfo := clockInfo.(medStartTime := U32(lib.toEpochSeconds(clockInfo.dateTime)));
        PreserveClockInfo();
      }
    }

    method Update(nowSeconds: int)
      requires Valid()
      modifies this
      ensures Valid()
      ensures State() == UpdateStep(lib, maxMedIntervalHours, nowSeconds, old(State()))
    {
      if clockInfo.mode == Unknown || isPreparingToSleep {
        return;
      }
      UpdateDateTime(nowSeconds);
      UpdatePresenter();
      displayCalls := displayCalls + [presented];
    }

    method UpdateBlinkState()
      requires Valid()
      modifies this
      ensures Valid()
      ensures State() == BlinkStep(lib, maxMedIntervalHours, old(State()))
    {
      clockInfo := clockInfo.(blinkShowState := !clockInfo.blinkShowState);
      changingInfo := changingInfo.(blinkShowState := !changingInfo.blinkShowState);
      UpdatePresenter();
    }

    method UpdateDateTime(nowSeconds: int)
      requires Valid()
      modifies this`clockInfo, this`changingInfo
      ensures Valid()
      ensures State() == DateTimeStep(lib, nowSeconds, old(State()))
    {
      clockInfo := clockInfo.(dateTime := lib.forEpochSeconds(nowSeconds, clockInfo.timeZone));
      if IsDateEdit(clockInfo.mode) && !secondFieldCleared {
        changingInfo := changingInfo.(dateTime := changingInfo.dateTime.(second := clockInfo.dateTime.second));
      }
    }

    method UpdatePresenter()
      requires Valid()
      modifies this`changingInfo, this`presented
      ensures Valid()
      ensures State() == PresentStep(lib, maxMedIntervalHours, old(State()))
    {
      var m := clockInfo.mode;
      if ShowsClock(m) {
        presented := clockInfo;
      } else if IsScratchEdit(m) {
        presented := changingInfo;
      } else if m == ViewMed {
        var p := GetRemainingTimePeriod();
        changingInfo := clockInfo.(medInterval := p);
        presented := changingInfo;
      }
    }

    /** getRemainingTimePeriod. */
    method GetRemainingTimePeriod() returns (p: TimePeriod)
      requires Valid()
      ensures p == Remaining(lib, maxMedIntervalHours, clockInfo)
    {
      if clockInfo.dateTime.isError {
        return PeriodError;
      }
      var remaining := RemainingSeconds(lib, clockInfo);
      if remaining > maxMedIntervalHours * 3600 || remaining < -maxMedIntervalHours * 3600 {
        return PeriodError;
      }
      p := FromSeconds(remaining);
    }
  }
}
