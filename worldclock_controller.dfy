/**
 * The Controller of WorldClock (WorldClock/Controller.h): three clocks in
 * three zones, one per OLED screen, driven by one mode. The date and time
 * are edited in a scratch ClockInfo; the four display settings are shared
 * by the three clocks and edited in all three at once. Each clock's
 * presenter is handed its own ClockInfo, with the mode, the instant and the
 * invert state of the snapshot being shown.
 *
 * The clock's setNow() calls, the EEPROM writes and the presenters'
 * display() calls are kept as traces; the current epoch seconds are a
 * parameter of the operations that read the clock.
 */
module WorldClockController {
  import opened Widths
  import opened AceCommon
  import opened AceTime
  import opened Cycles
  import opened ZoneEdits
  import opened WorldClockInfo

  /** handleModeButtonPress's switch: the screen ring, the date ring (without the second), the settings ring. */
  function NextMode(m: Mode): Mode
  {
    match m
    case ViewDateTime => ViewSettings
    case ViewSettings => ViewAbout
    case ViewAbout => ViewDateTime
    case ChangeHour => ChangeMinute
    case ChangeMinute => ChangeYear
    case ChangeYear => ChangeMonth
    case ChangeMonth => ChangeDay
    case ChangeDay => ChangeHour
    case ChangeHourMode => ChangeBlinkingColon
    case ChangeBlinkingColon => ChangeContrast
    case ChangeContrast => ChangeInvertDisplay
    case ChangeInvertDisplay => ChangeHourMode
    case _ => m
  }

  const ViewCycle := [ViewDateTime, ViewSettings, ViewAbout]
  const DateCycle := [ChangeHour, ChangeMinute, ChangeYear, ChangeMonth, ChangeDay]
  const SettingsCycle := [ChangeHourMode, ChangeBlinkingColon, ChangeContrast, ChangeInvertDisplay]

  /** Three presses bring a screen back, and no fewer do. */
  lemma ViewCyclePeriod(i: nat)
    requires i < |ViewCycle|
    ensures Iterate(NextMode, ViewCycle[i], 3) == ViewCycle[i]
    ensures forall k :: 0 < k < 3 ==> Iterate(NextMode, ViewCycle[i], k) != ViewCycle[i]
  {
    assert AdvancesAlong(NextMode, ViewCycle);
    RingExactPeriod(NextMode, ViewCycle, i);
  }

  /** Five presses bring a date field back, and no fewer do: the second is not in the ring. */
  lemma DateCyclePeriod(i: nat)
    requires i < |DateCycle|
    ensures Iterate(NextMode, DateCycle[i], 5) == DateCycle[i]
    ensures forall k :: 0 < k < 5 ==> Iterate(NextMode, DateCycle[i], k) != DateCycle[i]
    ensures ChangeSecond !in DateCycle && NextMode(ChangeSecond) == ChangeSecond
  {
    assert AdvancesAlong(NextMode, DateCycle);
    RingExactPeriod(NextMode, DateCycle, i);
  }

  /** Four presses bring a setting back, and no fewer do. */
  lemma SettingsCyclePeriod(i: nat)
    requires i < |SettingsCycle|
    ensures Iterate(NextMode, SettingsCycle[i], 4) == SettingsCycle[i]
    ensures forall k :: 0 < k < 4 ==> Iterate(NextMode, SettingsCycle[i], k) != SettingsCycle[i]
  {
    assert AdvancesAlong(NextMode, SettingsCycle);
    RingExactPeriod(NextMode, SettingsCycle, i);
  }

  /** The screen an edit mode belongs to; a screen is its own. */
  function FamilyView(m: Mode): (v: Mode)
    ensures IsEdit(m) ==> v in {ViewDateTime, ViewSettings}
    ensures !IsEdit(m) ==> v == m
  {
    if IsDateEdit(m) then ViewDateTime
    else if IsSettingsEdit(m) then ViewSettings
    else m
  }

  /** The mode button never leaves the current screen's family. */
  lemma NextModeKeepsFamily(m: Mode)
    ensures IsEdit(NextMode(m)) == IsEdit(m)
    ensures IsEdit(m) ==> FamilyView(NextMode(m)) == FamilyView(m)
  {
  }

  /** The mode a long press leads to: into a screen's first edit field, or back out to the screen. */
  function LongPressMode(m: Mode): (r: Mode)
    ensures IsEdit(m) ==> r == FamilyView(m)
    ensures m in {ViewDateTime, ViewSettings} ==> IsEdit(r) && FamilyView(r) == m
    ensures !IsEdit(m) && m !in {ViewDateTime, ViewSettings} ==> r == m
  {
    match m
    case ViewDateTime => ChangeYear
    case ViewSettings => ChangeHourMode
    case _ => FamilyView(m)
  }

  /** The controller's fields as one value; the class below keeps them in place. */
  datatype Ctl = Ctl(
    clock0: ClockInfo, clock1: ClockInfo, clock2: ClockInfo, changing: ClockInfo,
    secondFieldCleared: bool,
    presented0: ClockInfo, presented1: ClockInfo, presented2: ClockInfo,
    displayCalls: seq<(int, ClockInfo)>, clockWrites: seq<int>, storeWrites: seq<StoredInfo>)

  predicate U8Fields(c: ClockInfo)
  {
    0 <= c.hourMode < 256 && 0 <= c.contrastLevel < 256 && 0 <= c.invertDisplay < 256
  }

  /**
   * The uint8 fields hold values of their width; the three clocks agree on
   * the four shared settings; and in an edit mode the scratch snapshot
   * carries the controller's mode, so that updatePresenter keeps it.
   */
  ghost predicate Inv(s: Ctl)
  {
    U8Fields(s.clock0) && U8Fields(s.changing) &&
    SettingsOf(s.clock1) == SettingsOf(s.clock0) && SettingsOf(s.clock2) == SettingsOf(s.clock0) &&
    (IsEdit(s.clock0.mode) ==> s.changing.mode == s.clock0.mode)
  }

  /** The mode copied from clock 0 to the scratch snapshot and the two other clocks. */
  function Mirror(s: Ctl, m: Mode): (r: Ctl)
    ensures r.clock0.mode == r.clock1.mode == r.clock2.mode == r.changing.mode == m
  {
    s.(clock0 := s.clock0.(mode := m), clock1 := s.clock1.(mode := m),
       clock2 := s.clock2.(mode := m), changing := s.changing.(mode := m))
  }

  /** handleModeButtonPress: the next mode, in all four snapshots. */
  function ModePressStep(s: Ctl): (r: Ctl)
    requires Inv(s)
    ensures Inv(r)
    ensures r == Mirror(s, NextMode(s.clock0.mode))
  {
    Mirror(s, NextMode(s.clock0.mode))
  }

  /** A mode press changes the mode of all four snapshots and nothing else. */
  lemma ModePressOnlyMirrorsMode(s: Ctl)
    requires Inv(s)
    ensures var r := ModePressStep(s);
      r.clock0.mode == r.clock1.mode == r.clock2.mode == r.changing.mode == NextMode(s.clock0.mode) &&
      r.clock0 == s.clock0.(mode := r.clock0.mode) && r.clock1 == s.clock1.(mode := r.clock0.mode) &&
      r.clock2 == s.clock2.(mode := r.clock0.mode) && r.changing == s.changing.(mode := r.clock0.mode) &&
      r == s.(clock0 := r.clock0, clock1 := r.clock1, clock2 := r.clock2, changing := r.changing)
  {
  }

  /** initChangingClock: an unset clock starts its edit at epoch 0 in its zone. */
  function InitChanging(lib: TimeLib, c: ClockInfo): (r: ClockInfo)
    ensures r == c.(dateTime := EpochZeroFallback(lib, c.dateTime))
    ensures !c.dateTime.isError ==> r == c
  {
    c.(dateTime := EpochZeroFallback(lib, c.dateTime))
  }

  /** A long press on the date-time screen: the scratch snapshot starts from clock 0, the second no longer latched. */
  function EnterDateEdit(lib: TimeLib, s: Ctl): (r: Ctl)
    requires Inv(s)
    ensures Inv(r)
    ensures r == s.(clock0 := s.clock0.(mode := ChangeYear), changing := InitChanging(lib, s.clock0.(mode := ChangeYear)),
                    secondFieldCleared := false)
  {
    s.(clock0 := s.clock0.(mode := ChangeYear), changing := InitChanging(lib, s.clock0.(mode := ChangeYear)),
       secondFieldCleared := false)
  }

  /** A long press on the settings screen: the scratch snapshot starts from clock 0. */
  function EnterSettingsEdit(lib: TimeLib, s: Ctl): (r: Ctl)
    requires Inv(s)
    ensures Inv(r)
    ensures r == s.(clock0 := s.clock0.(mode := ChangeHourMode), changing := InitChanging(lib, s.clock0.(mode := ChangeHourMode)))
  {
    s.(clock0 := s.clock0.(mode := ChangeHourMode), changing := InitChanging(lib, s.clock0.(mode := ChangeHourMode)))
  }

  /** A long press in a date edit: the scratch date-time is normalized and the clock set to it. */
  function LeaveDateEdit(lib: TimeLib, s: Ctl): (r: Ctl)
    requires Inv(s)
    ensures Inv(r)
    ensures var dt := lib.normalize(s.changing.dateTime);
      r == s.(clock0 := s.clock0.(mode := ViewDateTime), changing := s.changing.(dateTime := dt),
              clockWrites := s.clockWrites + [lib.toEpochSeconds(dt)])
  {
    var dt := lib.normalize(s.changing.dateTime);
    s.(clock0 := s.clock0.(mode := ViewDateTime), changing := s.changing.(dateTime := dt),
       clockWrites := s.clockWrites + [lib.toEpochSeconds(dt)])
  }

  /** A long press in a settings edit: clock 0's settings are persisted. */
  function LeaveSettingsEdit(s: Ctl): (r: Ctl)
    requires Inv(s)
    ensures Inv(r)
    ensures r == s.(clock0 := s.clock0.(mode := ViewSettings), storeWrites := s.storeWrites + [SettingsOf(s.clock0)])
  {
    s.(clock0 := s.clock0.(mode := ViewSettings), storeWrites := s.storeWrites + [SettingsOf(s.clock0)])
  }

  /** The switch of handleModeButtonLongPress, before the mode is copied to the other snapshots. */
  function LongPressSwitch(lib: TimeLib, s: Ctl): (r: Ctl)
    requires Inv(s)
    ensures Inv(r)
    ensures r.clock0.mode == LongPressMode(s.clock0.mode)
  {
    var m := s.clock0.mode;
    if m == ViewDateTime then EnterDateEdit(lib, s)
    else if m == ViewSettings then EnterSettingsEdit(lib, s)
    else if IsDateEdit(m) then LeaveDateEdit(lib, s)
    else if IsSettingsEdit(m) then LeaveSettingsEdit(s)
    else s
  }

  /**
   * handleModeButtonLongPress: into the first edit field of a screen, or out
   * of an edit saving it; then the mode is copied to all four snapshots.
   */
  function LongPressStep(lib: TimeLib, s: Ctl): (r: Ctl)
    requires Inv(s)
    ensures Inv(r)
    ensures r.clock0.mode == LongPressMode(s.clock0.mode)
    ensures r == Mirror(LongPressSwitch(lib, s), r.clock0.mode)
  {
    var t := LongPressSwitch(lib, s);
    Mirror(t, t.clock0.mode)
  }

  /** Entering an edit: the scratch snapshot is clock 0, with an unset time replaced by epoch 0; nothing is written. */
  lemma LongPressEntersEdit(lib: TimeLib, s: Ctl)
    requires Inv(s) && s.clock0.mode in {ViewDateTime, ViewSettings}
    ensures var r := LongPressStep(lib, s); var m := r.clock0.mode;
      r.clock0 == s.clock0.(mode := m) && r.clock1 == s.clock1.(mode := m) && r.clock2 == s.clock2.(mode := m) &&
      r.changing == InitChanging(lib, s.clock0).(mode := m) &&
      r.clockWrites == s.clockWrites && r.storeWrites == s.storeWrites &&
      (s.clock0.mode == ViewDateTime ==> !r.secondFieldCleared)
  {
  }

  /** Leaving a date edit: the clock is set to the normalized scratch time; the clocks keep their settings. */
  lemma LongPressSavesDate(lib: TimeLib, s: Ctl)
    requires Inv(s) && IsDateEdit(s.clock0.mode)
    ensures var r := LongPressStep(lib, s); var dt := lib.normalize(s.changing.dateTime);
      r.clock0 == s.clock0.(mode := ViewDateTime) && r.clock1 == s.clock1.(mode := ViewDateTime) &&
      r.clock2 == s.clock2.(mode := ViewDateTime) &&
      r.changing == s.changing.(mode := ViewDateTime, dateTime := dt) &&
      r.clockWrites == s.clockWrites + [lib.toEpochSeconds(dt)] && r.storeWrites == s.storeWrites
  {
  }

  /** Leaving a settings edit: clock 0's settings are persisted; the clock is not set. */
  lemma LongPressSavesSettings(lib: TimeLib, s: Ctl)
    requires Inv(s) && IsSettingsEdit(s.clock0.mode)
    ensures var r := LongPressStep(lib, s);
      r.clock0 == s.clock0.(mode := ViewSettings) && r.clock1 == s.clock1.(mode := ViewSettings) &&
      r.clock2 == s.clock2.(mode := ViewSettings) && r.changing == s.changing.(mode := ViewSettings) &&
      r.storeWrites == s.storeWrites + [SettingsOf(s.clock0)] && r.clockWrites == s.clockWrites
  {
  }

  /**
   * Into the date edit and straight out again: the clock is set to the
   * normalized time of clock 0 (epoch 0 for an unset clock), and clock 0
   * and the EEPROM are untouched.
   */
  lemma EnterAndLeaveDateEdit(lib: TimeLib, s: Ctl)
    requires Inv(s) && s.clock0.mode == ViewDateTime
    ensures var r := LongPressStep(lib, LongPressStep(lib, s));
      r.clock0 == s.clock0 && r.storeWrites == s.storeWrites &&
      r.clockWrites == s.clockWrites + [lib.toEpochSeconds(lib.normalize(EpochZeroFallback(lib, s.clock0.dateTime)))]
  {
    var t := LongPressStep(lib, s);
    LongPressEntersEdit(lib, s);
    LongPressSavesDate(lib, t);
  }

  /** handleModeButtonDoubleClick: leave an edit for its screen, saving nothing; only clock 0 takes the mode. */
  function DoubleClickStep(s: Ctl): (r: Ctl)
    requires Inv(s)
    ensures Inv(r)
    ensures r.clock0.mode == FamilyView(s.clock0.mode)
    ensures r == s.(clock0 := s.clock0.(mode := r.clock0.mode))
  {
    s.(clock0 := s.clock0.(mode := FamilyView(s.clock0.mode)))
  }

  /**
   * A double click lands on the screen a long press would and writes
   * nothing; the settings already changed in the three clocks stay changed,
   * unsaved, until the next save.
   */
  lemma DoubleClickDiscards(lib: TimeLib, s: Ctl)
    requires Inv(s) && IsEdit(s.clock0.mode)
    ensures DoubleClickStep(s).clock0.mode == LongPressStep(lib, s).clock0.mode
    ensures var r := DoubleClickStep(s);
      r.clockWrites == s.clockWrites && r.storeWrites == s.storeWrites &&
      SettingsOf(r.clock0) == SettingsOf(s.clock0)
  {
  }

  /** All four snapshots start suppressing the blink. */
  function Suppressed(s: Ctl, on: bool): (r: Ctl)
    ensures Inv(s) ==> Inv(r)
    ensures r.clock0.suppressBlink == r.clock1.suppressBlink == r.clock2.suppressBlink == r.changing.suppressBlink == on
  {
    s.(clock0 := s.clock0.(suppressBlink := on), clock1 := s.clock1.(suppressBlink := on),
       clock2 := s.clock2.(suppressBlink := on), changing := s.changing.(suppressBlink := on))
  }

  /** The zoned_date_time_mutation call of each date edit, or the zeroed second. */
  function IncrementField(lib: TimeLib, m: Mode, dt: ZonedDateTime): (r: ZonedDateTime)
    requires IsDateEdit(m)
    ensures m == ChangeYear ==> r == lib.incrementYear(dt)
    ensures m == ChangeMonth ==> r == lib.incrementMonth(dt)
    ensures m == ChangeDay ==> r == lib.incrementDay(dt)
    ensures m == ChangeHour ==> r == lib.incrementHour(dt)
    ensures m == ChangeMinute ==> r == lib.incrementMinute(dt)
    ensures m == ChangeSecond ==> r == WithSecond(dt, 0)
  {
    match m
    case ChangeYear => lib.incrementYear(dt)
    case ChangeMonth => lib.incrementMonth(dt)
    case ChangeDay => lib.incrementDay(dt)
    case ChangeHour => lib.incrementHour(dt)
    case ChangeMinute => lib.incrementMinute(dt)
    case ChangeSecond => dt.(second := 0)
  }

  /** A settings press on one clock: 12/24 flips, the colon toggles, the contrast steps mod 10, the inversion mod 5. */
  function SettingChange(m: Mode, c: ClockInfo): (r: ClockInfo)
    requires IsSettingsEdit(m) && U8Fields(c)
    ensures U8Fields(r)
    ensures m == ChangeHourMode ==> r == c.(hourMode := ToggleLowBit(c.hourMode))
    ensures m == ChangeBlinkingColon ==> r == c.(blinkingColon := !c.blinkingColon)
    ensures m == ChangeContrast ==> r == c.(contrastLevel := IncrementMod(c.contrastLevel, 10))
    ensures m == ChangeInvertDisplay ==> r == c.(invertDisplay := IncrementMod(c.invertDisplay, 5))
  {
    match m
    case ChangeHourMode => c.(hourMode := ToggleLowBit(c.hourMode))
    case ChangeBlinkingColon => c.(blinkingColon := !c.blinkingColon)
    case ChangeContrast => c.(contrastLevel := IncrementMod(c.contrastLevel, 10))
    case ChangeInvertDisplay => c.(invertDisplay := IncrementMod(c.invertDisplay, 5))
  }

  /** The same change on two clocks with the same settings leaves them with the same settings. */
  lemma SettingChangeAgrees(m: Mode, a: ClockInfo, b: ClockInfo)
    requires IsSettingsEdit(m) && U8Fields(a) && U8Fields(b) && SettingsOf(a) == SettingsOf(b)
    ensures SettingsOf(SettingChange(m, a)) == SettingsOf(SettingChange(m, b))
  {
  }

  /** A date edit press: one scratch field changes; the zeroed second is latched. */
  function DatePress(lib: TimeLib, s: Ctl): (r: Ctl)
    requires IsDateEdit(s.clock0.mode)
    ensures r.changing == s.changing.(dateTime := IncrementField(lib, s.clock0.mode, s.changing.dateTime))
    ensures r.secondFieldCleared == (s.secondFieldCleared || s.clock0.mode == ChangeSecond)
    ensures r == s.(changing := r.changing, secondFieldCleared := r.secondFieldCleared)
  {
    s.(changing := s.changing.(dateTime := IncrementField(lib, s.clock0.mode, s.changing.dateTime)),
       secondFieldCleared := s.secondFieldCleared || s.clock0.mode == ChangeSecond)
  }

  /** A settings press: the same change on all three clocks. */
  function SettingsPress(s: Ctl): (r: Ctl)
    requires IsSettingsEdit(s.clock0.mode) && Inv(s)
    ensures Inv(r)
    ensures r == s.(clock0 := SettingChange(s.clock0.mode, s.clock0), clock1 := SettingChange(s.clock0.mode, s.clock1),
                    clock2 := SettingChange(s.clock0.mode, s.clock2))
  {
    var m := s.clock0.mode;
    SettingChangeAgrees(m, s.clock0, s.clock1);
    SettingChangeAgrees(m, s.clock0, s.clock2);
    s.(clock0 := SettingChange(m, s.clock0), clock1 := SettingChange(m, s.clock1), clock2 := SettingChange(m, s.clock2))
  }

  /** The switch of handleChangeButtonPress, after all four snapshots start suppressing the blink. */
  function ChangeStep(lib: TimeLib, s: Ctl): (r: Ctl)
    requires Inv(s)
    ensures Inv(r)
    ensures r.clock0.suppressBlink && r.clock1.suppressBlink && r.clock2.suppressBlink && r.changing.suppressBlink
    ensures (r.clock0.mode, r.clock1.mode, r.clock2.mode, r.changing.mode) ==
            (s.clock0.mode, s.clock1.mode, s.clock2.mode, s.changing.mode)
    ensures (r.presented0, r.presented1, r.presented2, r.displayCalls, r.clockWrites, r.storeWrites) ==
            (s.presented0, s.presented1, s.presented2, s.displayCalls, s.clockWrites, s.storeWrites)
  {
    var t := Suppressed(s, true);
    var m := s.clock0.mode;
    if IsDateEdit(m) then DatePress(lib, t)
    else if IsSettingsEdit(m) then SettingsPress(t)
    else t
  }

  /** A change press in a date edit changes one scratch field, latches a zeroed second, and suppresses the blink. */
  lemma ChangePressInDateEdit(lib: TimeLib, s: Ctl)
    requires Inv(s) && IsDateEdit(s.clock0.mode)
    ensures var r := ChangeStep(lib, s);
      r == Suppressed(s, true).(changing := r.changing, secondFieldCleared := r.secondFieldCleared) &&
      r.changing.dateTime == IncrementField(lib, s.clock0.mode, s.changing.dateTime) &&
      r.secondFieldCleared == (s.secondFieldCleared || s.clock0.mode == ChangeSecond)
  {
  }

  /** A change press in a settings edit changes the same setting, the same way, on all three clocks, and not the scratch snapshot. */
  lemma ChangePressInSettingsEdit(lib: TimeLib, s: Ctl)
    requires Inv(s) && IsSettingsEdit(s.clock0.mode)
    ensures var r := ChangeStep(lib, s); var m := s.clock0.mode;
      r.clock0 == SettingChange(m, s.clock0).(suppressBlink := true) &&
      r.clock1 == SettingChange(m, s.clock1).(suppressBlink := true) &&
      r.clock2 == SettingChange(m, s.clock2).(suppressBlink := true) &&
      r.changing == s.changing.(suppressBlink := true) && r.secondFieldCleared == s.secondFieldCleared
  {
    var m := s.clock0.mode;
    var t := Suppressed(s, true);
    assert ChangeStep(lib, s) == SettingsPress(t);
    SettingChangeKeepsBlink(m, s.clock0, true);
    SettingChangeKeepsBlink(m, s.clock1, true);
    SettingChangeKeepsBlink(m, s.clock2, true);
  }

  /** A settings change and the blink suppression touch different fields. */
  lemma SettingChangeKeepsBlink(m: Mode, c: ClockInfo, on: bool)
    requires IsSettingsEdit(m) && U8Fields(c)
    ensures SettingChange(m, c.(suppressBlink := on)) == SettingChange(m, c).(suppressBlink := on)
  {
  }

  /** On a screen a change press only suppresses the blink. */
  lemma ChangePressOnScreen(lib: TimeLib, s: Ctl)
    requires Inv(s) && !IsEdit(s.clock0.mode)
    ensures ChangeStep(lib, s) == Suppressed(s, true)
  {
  }

  /** Two presses in the hour-mode edit bring the 12/24 mode of every clock back. */
  lemma HourModeTogglesBack(lib: TimeLib, s: Ctl)
    requires Inv(s) && s.clock0.mode == ChangeHourMode
    ensures var r := ChangeStep(lib, ChangeStep(lib, s));
      r.clock0.hourMode == s.clock0.hourMode && r.clock1.hourMode == s.clock1.hourMode &&
      r.clock2.hourMode == s.clock2.hourMode
  {
    var t := ChangeStep(lib, s);
    ChangePressInSettingsEdit(lib, s);
    ChangePressInSettingsEdit(lib, t);
    ToggleLowBitInvolution(s.clock0.hourMode);
  }

  /** handleChangeButtonRelease: every edit mode stops suppressing the blink on all four snapshots. */
  function ReleaseStep(s: Ctl): (r: Ctl)
    requires Inv(s)
    ensures Inv(r)
    ensures IsEdit(s.clock0.mode) ==> r == Suppressed(s, false)
    ensures !IsEdit(s.clock0.mode) ==> r == s
  {
    if IsEdit(s.clock0.mode) then Suppressed(s, false) else s
  }

  /** A press and its release in an edit mode leave the blink as it was before the button was held. */
  lemma PressReleaseUnsuppresses(lib: TimeLib, s: Ctl)
    requires Inv(s) && IsEdit(s.clock0.mode)
    ensures var r := ReleaseStep(ChangeStep(lib, s));
      !r.clock0.suppressBlink && !r.clock1.suppressBlink && !r.clock2.suppressBlink && !r.changing.suppressBlink
  {
  }

  /** The parity of a number, as `x & 0x1` reads it. */
  function Low(x: int): int
  {
    x % 2
  }

  /**
   * calculateInvertState: the minutely and hourly settings invert on odd
   * minute + hour (hour + day) parity, the daily one from 07:00 to 18:59;
   * the other settings are their own state.
   */
  function InvertStateFor(setting: int, dt: ZonedDateTime): (r: int)
    ensures setting == InvertMinutely ==> (r == InvertOn <==> Low(dt.minute) != Low(dt.hour))
    ensures setting == InvertHourly ==> (r == InvertOn <==> Low(dt.hour) != Low(dt.day))
    ensures setting == InvertDaily ==> (r == InvertOn <==> 7 <= dt.hour < 19)
    ensures setting in {InvertMinutely, InvertHourly, InvertDaily} ==> r in {InvertOff, InvertOn}
    ensures setting !in {InvertMinutely, InvertHourly, InvertDaily} ==> r == setting
  {
    if setting == InvertMinutely then (if Low(dt.minute) != Low(dt.hour) then InvertOn else InvertOff)
    else if setting == InvertHourly then (if Low(dt.hour) != Low(dt.day) then InvertOn else InvertOff)
    else if setting == InvertDaily then (if 7 <= dt.hour < 19 then InvertOn else InvertOff)
    else setting
  }

  /**
   * The minutely inversion flips every minute within an hour and holds
   * across the hour, so that a digit is not always shown the same way.
   */
  lemma MinutelyInversionAlternates(dt: ZonedDateTime)
    requires 0 <= dt.minute < 59 && 0 <= dt.hour
    ensures InvertStateFor(InvertMinutely, dt.(minute := dt.minute + 1)) != InvertStateFor(InvertMinutely, dt)
    ensures InvertStateFor(InvertMinutely, dt.(hour := dt.hour + 1, minute := 0)) ==
            InvertStateFor(InvertMinutely, dt.(minute := 59))
  {
  }

  /** The hourly inversion flips every hour within a day and holds across midnight into the next day. */
  lemma HourlyInversionAlternates(dt: ZonedDateTime)
    requires 0 <= dt.hour < 23 && 0 <= dt.day
    ensures InvertStateFor(InvertHourly, dt.(hour := dt.hour + 1)) != InvertStateFor(InvertHourly, dt)
    ensures InvertStateFor(InvertHourly, dt.(day := dt.day + 1, hour := 0)) ==
            InvertStateFor(InvertHourly, dt.(hour := 23))
  {
  }

  /** The snapshot whose mode and time the screens show: the scratch one in the edit modes. */
  function Source(s: Ctl): (c: ClockInfo)
    ensures IsEdit(s.clock0.mode) ==> c == s.changing
    ensures !IsEdit(s.clock0.mode) ==> c == s.clock0
  {
    if IsEdit(s.clock0.mode) then s.changing else s.clock0
  }

  /**
   * The hand-over of updatePresenter with a given invert state: the three
   * clocks take the source's mode and instant (clock 0 its date-time, the
   * others the same epoch seconds in their own zones) and the invert state,
   * and each presenter is given its clock.
   */
  function PresentWith(lib: TimeLib, s: Ctl, inv: int): (r: Ctl)
    ensures var src := Source(s); var e := lib.toEpochSeconds(src.dateTime);
      r.clock0 == s.clock0.(mode := src.mode, dateTime := src.dateTime, invertState := inv) &&
      r.clock1 == s.clock1.(mode := src.mode, dateTime := lib.forEpochSeconds(e, s.clock1.timeZone), invertState := inv) &&
      r.clock2 == s.clock2.(mode := src.mode, dateTime := lib.forEpochSeconds(e, s.clock2.timeZone), invertState := inv)
    ensures (r.presented0, r.presented1, r.presented2) == (r.clock0, r.clock1, r.clock2)
    ensures r == s.(clock0 := r.clock0, clock1 := r.clock1, clock2 := r.clock2,
                    presented0 := r.presented0, presented1 := r.presented1, presented2 := r.presented2)
  {
    var src := Source(s);
    var e := lib.toEpochSeconds(src.dateTime);
    var c0 := s.clock0.(mode := src.mode, dateTime := src.dateTime, invertState := inv);
    var c1 := s.clock1.(mode := src.mode, dateTime := lib.forEpochSeconds(e, s.clock1.timeZone), invertState := inv);
    var c2 := s.clock2.(mode := src.mode, dateTime := lib.forEpochSeconds(e, s.clock2.timeZone), invertState := inv);
    s.(clock0 := c0, clock1 := c1, clock2 := c2, presented0 := c0, presented1 := c1, presented2 := c2)
  }

  /** updatePresenter as written: the invert state comes from the source snapshot's own setting. */
  function PresentStepAsWritten(lib: TimeLib, s: Ctl): Ctl
  {
    PresentWith(lib, s, InvertStateFor(Source(s).invertDisplay, Source(s).dateTime))
  }

  /**
   * updatePresenter with the inversion taken from the setting the clocks
   * carry (and show on the settings screen), at the time shown.
   */
  function PresentStep(lib: TimeLib, s: Ctl): (r: Ctl)
    requires Inv(s)
    ensures Inv(r)
    ensures r == PresentWith(lib, s, InvertStateFor(s.clock0.invertDisplay, Source(s).dateTime))
  {
    PresentWith(lib, s, InvertStateFor(s.clock0.invertDisplay, Source(s).dateTime))
  }

  /** Outside the settings edits the source carries clock 0's setting, and the two hand-overs are the same. */
  lemma PresentStepAgreesOutsideSettingsEdits(lib: TimeLib, s: Ctl)
    requires Inv(s) && !IsSettingsEdit(s.clock0.mode)
    requires IsDateEdit(s.clock0.mode) ==> s.changing.invertDisplay == s.clock0.invertDisplay
    ensures PresentStep(lib, s) == PresentStepAsWritten(lib, s)
  {
  }

  /**
   * updateDateTime: each clock reads the instant in its own zone; in a date
   * edit the scratch second follows clock 0's until it has been zeroed.
   */
  function DateTimeStep(lib: TimeLib, nowSeconds: int, s: Ctl): (r: Ctl)
    ensures Inv(s) ==> Inv(r)
    ensures r.clock0 == s.clock0.(dateTime := lib.forEpochSeconds(nowSeconds, s.clock0.timeZone))
    ensures r.clock1 == s.clock1.(dateTime := lib.forEpochSeconds(nowSeconds, s.clock1.timeZone))
    ensures r.clock2 == s.clock2.(dateTime := lib.forEpochSeconds(nowSeconds, s.clock2.timeZone))
    ensures IsDateEdit(s.clock0.mode) && !s.secondFieldCleared ==>
      r.changing == s.changing.(dateTime := WithSecond(s.changing.dateTime, r.clock0.dateTime.second))
    ensures !IsDateEdit(s.clock0.mode) || s.secondFieldCleared ==> r.changing == s.changing
    ensures r == s.(clock0 := r.clock0, clock1 := r.clock1, clock2 := r.clock2, changing := r.changing)
  {
    var live0 := lib.forEpochSeconds(nowSeconds, s.clock0.timeZone);
    var c := s.changing;
    s.(clock0 := s.clock0.(dateTime := live0),
       clock1 := s.clock1.(dateTime := lib.forEpochSeconds(nowSeconds, s.clock1.timeZone)),
       clock2 := s.clock2.(dateTime := lib.forEpochSeconds(nowSeconds, s.clock2.timeZone)),
       changing := if IsDateEdit(s.clock0.mode) && !s.secondFieldCleared
                   then c.(dateTime := c.dateTime.(second := live0.second)) else c)
  }

  /** update: nothing in MODE_UNKNOWN; otherwise read the time and hand the three presenters their clocks. */
  function UpdateStep(lib: TimeLib, nowSeconds: int, s: Ctl): (r: Ctl)
    requires Inv(s)
    ensures Inv(r)
    ensures s.clock0.mode == Unknown ==> r == s
    ensures s.clock0.mode != Unknown ==> r == PresentStep(lib, DateTimeStep(lib, nowSeconds, s))
  {
    if s.clock0.mode == Unknown then s else PresentStep(lib, DateTimeStep(lib, nowSeconds, s))
  }

  /** update as written, with updatePresenter as written. */
  function UpdateStepAsWritten(lib: TimeLib, nowSeconds: int, s: Ctl): Ctl
  {
    if s.clock0.mode == Unknown then s else PresentStepAsWritten(lib, DateTimeStep(lib, nowSeconds, s))
  }

  /**
   * After an update the three presenters are shown the controller's mode
   * and the same instant, each in its own zone, and all apply the
   * inversion that the setting they show calls for at that instant.
   */
  lemma PresentersAgree(lib: TimeLib, nowSeconds: int, s: Ctl)
    requires Inv(s) && s.clock0.mode != Unknown
    ensures var r := UpdateStep(lib, nowSeconds, s); var p := r.presented0;
      p.mode == r.presented1.mode == r.presented2.mode == s.clock0.mode &&
      r.presented1.dateTime == lib.forEpochSeconds(lib.toEpochSeconds(p.dateTime), s.clock1.timeZone) &&
      r.presented2.dateTime == lib.forEpochSeconds(lib.toEpochSeconds(p.dateTime), s.clock2.timeZone) &&
      p.invertState == r.presented1.invertState == r.presented2.invertState ==
        InvertStateFor(p.invertDisplay, p.dateTime) &&
      r.presented1.invertDisplay == r.presented2.invertDisplay == p.invertDisplay
  {
  }

  /**
   * As written, the inversion does not follow the invert setting being
   * edited: one press in the invert edit makes every screen read "on" while
   * none is inverted, until the edit is saved.
   */
  lemma StaleInversionAsWritten(lib: TimeLib, nowSeconds: int, s: Ctl)
    requires Inv(s) && s.clock0.mode == ChangeInvertDisplay
    requires s.clock0.invertDisplay == InvertOff && s.changing.invertDisplay == InvertOff
    ensures var r := UpdateStepAsWritten(lib, nowSeconds, ChangeStep(lib, s));
      r.presented0.invertDisplay == InvertOn && r.presented0.invertState == InvertOff
  {
    ChangePressInSettingsEdit(lib, s);
  }

  /** handleChangeButtonPress: the change, an update, and a redraw of the first screen. */
  function ChangePressStep(lib: TimeLib, nowSeconds: int, s: Ctl): (r: Ctl)
    requires Inv(s)
    ensures Inv(r)
    ensures var t := UpdateStep(lib, nowSeconds, ChangeStep(lib, s));
      r == t.(displayCalls := t.displayCalls + [(0, t.presented0)])
  {
    var t := UpdateStep(lib, nowSeconds, ChangeStep(lib, s));
    t.(displayCalls := t.displayCalls + [(0, t.presented0)])
  }

  /** While the change button is held in an edit mode, every screen is handed a snapshot that suppresses the blink. */
  lemma HeldButtonSuppressesBlink(lib: TimeLib, nowSeconds: int, s: Ctl)
    requires Inv(s) && IsEdit(s.clock0.mode)
    ensures var r := ChangePressStep(lib, nowSeconds, s);
      r.presented0.suppressBlink && r.presented1.suppressBlink && r.presented2.suppressBlink
  {
  }

  /** updateBlinkState: all four snapshots flip their blink phase, and the presenters are handed their clocks. */
  function BlinkStep(lib: TimeLib, s: Ctl): (r: Ctl)
    requires Inv(s)
    ensures Inv(r)
    ensures var t := s.(clock0 := s.clock0.(blinkShowState := !s.clock0.blinkShowState),
                        clock1 := s.clock1.(blinkShowState := !s.clock1.blinkShowState),
                        clock2 := s.clock2.(blinkShowState := !s.clock2.blinkShowState),
                        changing := s.changing.(blinkShowState := !s.changing.blinkShowState));
      r == PresentStep(lib, t)
  {
    PresentStep(lib, s.(clock0 := s.clock0.(blinkShowState := !s.clock0.blinkShowState),
                        clock1 := s.clock1.(blinkShowState := !s.clock1.blinkShowState),
                        clock2 := s.clock2.(blinkShowState := !s.clock2.blinkShowState),
                        changing := s.changing.(blinkShowState := !s.changing.blinkShowState)))
  }

  /** setupClockInfo's settings: 12-hour mode, a steady colon, contrast level 5, no inversion. */
  const FactorySettings := StoredInfo(Twelve, false, 5, InvertOff)

  predicate StoredOk(b: StoredInfo)
  {
    0 <= b.hourMode < 256 && 0 <= b.contrastLevel < 256 && 0 <= b.invertDisplay < 256
  }

  /** The same settings in all three clocks. */
  function AllSettings(s: Ctl, b: StoredInfo): (r: Ctl)
    ensures SettingsOf(r.clock0) == SettingsOf(r.clock1) == SettingsOf(r.clock2) == b
  {
    s.(clock0 := WithSettings(s.clock0, b), clock1 := WithSettings(s.clock1, b), clock2 := WithSettings(s.clock2, b))
  }

  /** restoreClockInfo: a valid stored record goes to all three clocks; otherwise the factory settings, persisted. */
  function RestoreStep(factoryReset: bool, read: StoreRead, s: Ctl): (r: Ctl)
    requires Inv(s)
    requires !factoryReset && read.StoreOk? ==> StoredOk(read.stored)
    ensures Inv(r)
    ensures !factoryReset && read.StoreOk? ==> r == AllSettings(s, read.stored)
    ensures factoryReset || read.StoreBad? ==>
      r == AllSettings(s, FactorySettings).(storeWrites := s.storeWrites + [FactorySettings])
  {
    if !factoryReset && read.StoreOk? then AllSettings(s, read.stored)
    else
      var t := AllSettings(s, FactorySettings);
      t.(storeWrites := t.storeWrites + [SettingsOf(t.clock0)])
  }

  /** What a save writes, a restore puts back: the settings of every clock are unchanged. */
  lemma SaveThenRestore(lib: TimeLib, s: Ctl)
    requires Inv(s) && IsSettingsEdit(s.clock0.mode)
    ensures LongPressStep(lib, s).storeWrites == s.storeWrites + [SettingsOf(s.clock0)]
    ensures var r := RestoreStep(false, StoreOk(SettingsOf(s.clock0)), LongPressStep(lib, s));
      SettingsOf(r.clock0) == SettingsOf(s.clock0) && SettingsOf(r.clock1) == SettingsOf(s.clock1) &&
      SettingsOf(r.clock2) == SettingsOf(s.clock2)
  {
    LongPressSavesSettings(lib, s);
  }

  class Controller {
    const lib: TimeLib

    var clockInfo0: ClockInfo
    var clockInfo1: ClockInfo
    var clockInfo2: ClockInfo
    var changingInfo: ClockInfo
    var secondFieldCleared: bool
    /** The ClockInfo last handed to each presenter's setClockInfo(). */
    var presented0: ClockInfo
    var presented1: ClockInfo
    var presented2: ClockInfo
    /** The presenters' display() calls: which screen, and the ClockInfo it then held. */
    var displayCalls: seq<(int, ClockInfo)>
    /** The clock's setNow() calls, in epoch seconds. */
    var clockWrites: seq<int>
    /** The records written to the EEPROM. */
    var storeWrites: seq<StoredInfo>

    function State(): Ctl
      reads this
    {
      Ctl(clockInfo0, clockInfo1, clockInfo2, changingInfo, secondFieldCleared,
          presented0, presented1, presented2, displayCalls, clockWrites, storeWrites)
    }

    ghost predicate Valid()
      reads this
    {
      Inv(State())
    }

    /** The three clocks in their zones, with their names, on the date-time screen. */
    constructor (lib: TimeLib, tz0: TimeZone, tz1: TimeZone, tz2: TimeZone, name0: string, name1: string, name2: string)
      ensures Valid()
      ensures this.lib == lib
      ensures State() == Ctl(InitialClockInfo(tz0, name0).(mode := ViewDateTime), InitialClockInfo(tz1, name1),
                             InitialClockInfo(tz2, name2), InitialClockInfo(ZeroTimeZone, ""), false,
                             InitialClockInfo(ZeroTimeZone, ""), InitialClockInfo(ZeroTimeZone, ""),
                             InitialClockInfo(ZeroTimeZone, ""), [], [], [])
    {
      this.lib := lib;
      clockInfo0 := InitialClockInfo(tz0, name0).(mode := ViewDateTime);
      clockInfo1 := InitialClockInfo(tz1, name1);
      clockInfo2 := InitialClockInfo(tz2, name2);
      changingInfo := InitialClockInfo(ZeroTimeZone, "");
      secondFieldCleared := false;
      presented0 := InitialClockInfo(ZeroTimeZone, "");
      presented1 := InitialClockInfo(ZeroTimeZone, "");
      presented2 := InitialClockInfo(ZeroTimeZone, "");
      displayCalls := [];
      clockWrites := [];
      storeWrites := [];
    }

    /** setup: restore the stored settings, then read the time. */
    method Setup(factoryReset: bool, read: StoreRead, nowSeconds: int)
      requires Valid()
      requires !factoryReset && read.StoreOk? ==> StoredOk(read.stored)
      modifies this
      ensures Valid()
      ensures State() == DateTimeStep(lib, nowSeconds, RestoreStep(factoryReset, read, old(State())))
    {
      RestoreClockInfo(factoryReset, read);
      UpdateDateTime(nowSeconds);
    }

    method Update(nowSeconds: int)
      requires Valid()
      modifies this
      ensures Valid()
      ensures State() == UpdateStep(lib, nowSeconds, old(State()))
    {
      if clockInfo0.mode == Unknown {
        return;
      }
      UpdateDateTime(nowSeconds);
      UpdatePresenter();
    }

    method UpdateBlinkState()
      requires Valid()
      modifies this
      ensures Valid()
      ensures State() == BlinkStep(lib, old(State()))
    {
      clockInfo0 := clockInfo0.(blinkShowState := !clockInfo0.blinkShowState);
      clockInfo1 := clockInfo1.(blinkShowState := !clockInfo1.blinkShowState);
      clockInfo2 := clockInfo2.(blinkShowState := !clockInfo2.blinkShowState);
      changingInfo := changingInfo.(blinkShowState := !changingInfo.blinkShowState);
      UpdatePresenter();
    }

    /** updatePresenter0/1/2: one screen redraws from the ClockInfo it was last handed. */
    method UpdatePresenterScreen(screen: int)
      requires 0 <= screen < 3
      modifies this`displayCalls
      ensures displayCalls == old(displayCalls) +
        [(screen, if screen == 0 then presented0 else if screen == 1 then presented1 else presented2)]
    {
      var info := if screen == 0 then presented0 else if screen == 1 then presented1 else presented2;
      displayCalls := displayCalls + [(screen, info)];
    }

    method HandleModeButtonPress()
      requires Valid()
      modifies this
      ensures Valid()
      ensures State() == ModePressStep(old(State()))
    {
      var m := NextMode(clockInfo0.mode);
      clockInfo0 := clockInfo0.(mode := m);
      changingInfo := changingInfo.(mode := m);
      clockInfo1 := clockInfo1.(mode := m);
      clockInfo2 := clockInfo2.(mode := m);
    }

    method HandleModeButtonLongPress()
      requires Valid()
      modifies this
      ensures Valid()
      ensures State() == LongPressStep(lib, old(State()))
    {
      ApplyLongPress();
      changingInfo := changingInfo.(mode := clockInfo0.mode);
      clockInfo1 := clockInfo1.(mode := clockInfo0.mode);
      clockInfo2 := clockInfo2.(mode := clockInfo0.mode);
    }

    /** The switch of handleModeButtonLongPress. */
    method ApplyLongPress()
      requires Valid()
      modifies this`clockInfo0, this`changingInfo, this`secondFieldCleared, this`clockWrites, this`storeWrites
      ensures Valid()
      ensures State() == LongPressSwitch(lib, old(State()))
    {
      var m := clockInfo0.mode;
      if m == ViewDateTime {
        EnterDateEditing();
      } else if m == ViewSettings {
        EnterSettingsEditing();
      } else if IsDateEdit(m) {
        LeaveDateEditing();
      } else if IsSettingsEdit(m) {
        LeaveSettingsEditing();
      }
    }

    method LeaveDateEditing()
      requires Valid()
      modifies this`clockInfo0, this`changingInfo, this`clockWrites
      ensures State() == LeaveDateEdit(lib, old(State()))
    {
      SaveDateTime();
      clockInfo0 := clockInfo0.(mode := ViewDateTime);
    }

    method LeaveSettingsEditing()
      requires Valid()
      modifies this`clockInfo0, this`storeWrites
      ensures State() == LeaveSettingsEdit(old(State()))
    {
      SaveClockInfo();
      clockInfo0 := clockInfo0.(mode := ViewSettings);
    }

    method EnterDateEditing()
      requires Valid()
      modifies this`clockInfo0, this`changingInfo, this`secondFieldCleared
      ensures State() == EnterDateEdit(lib, old(State()))
    {
      clockInfo0 := clockInfo0.(mode := ChangeYear);
      changingInfo := clockInfo0;
      InitChangingClock();
      secondFieldCleared := false;
    }

    method EnterSettingsEditing()
      requires Valid()
      modifies this`clockInfo0, this`changingInfo
      ensures State() == EnterSettingsEdit(lib, old(State()))
    {
      clockInfo0 := clockInfo0.(mode := ChangeHourMode);
      changingInfo := clockInfo0;
      InitChangingClock();
    }

    method HandleModeButtonDoubleClick()
      requires Valid()
      modifies this
      ensures Valid()
      ensures State() == DoubleClickStep(old(State()))
    {
      var m := clockInfo0.mode;
      if IsDateEdit(m) {
        clockInfo0 := clockInfo0.(mode := ViewDateTime);
      } else if IsSettingsEdit(m) {
        clockInfo0 := clockInfo0.(mode := ViewSettings);
      }
    }

    /** initChangingClock: an unset clock starts its edit at epoch 0. */
    method InitChangingClock()
      modifies this`changingInfo
      ensures changingInfo == InitChanging(lib, old(changingInfo))
    {
      if changingInfo.dateTime.isError {
        changingInfo := changingInfo.(dateTime := lib.forEpochSeconds(0, changingInfo.dateTime.timeZone));
      }
    }

    method HandleChangeButtonPress(nowSeconds: int)
      requires Valid()
      modifies this
      ensures Valid()
      ensures State() == ChangePressStep(lib, nowSeconds, old(State()))
    {
      ApplyChange();
      Update(nowSeconds);
      UpdatePresenterScreen(0);
    }

    method HandleChangeButtonRepeatPress(nowSeconds: int)
      requires Valid()
      modifies this
      ensures Valid()
      ensures State() == ChangePressStep(lib, nowSeconds, old(State()))
    {
      HandleChangeButtonPress(nowSeconds);
    }

    /** The switch of handleChangeButtonPress. */
    method ApplyChange()
      requires Valid()
      modifies this`clockInfo0, this`clockInfo1, this`clockInfo2, this`changingInfo, this`secondFieldCleared
      ensures State() == ChangeStep(lib, old(State()))
    {
      SuppressBlink(true);
      if IsDateEdit(clockInfo0.mode) {
        ChangeDateField();
      } else if IsSettingsEdit(clockInfo0.mode) {
        ChangeSetting();
      }
    }

    /** A date edit press on the scratch snapshot. */
    method ChangeDateField()
      requires IsDateEdit(clockInfo0.mode)
      modifies this`changingInfo, this`secondFieldCleared
      ensures State() == DatePress(lib, old(State()))
    {
      var m := clockInfo0.mode;
      changingInfo := changingInfo.(dateTime := IncrementField(lib, m, changingInfo.dateTime));
      if m == ChangeSecond {
        secondFieldCleared := true;
      }
    }

    /** A settings press on the three clocks. */
    method ChangeSetting()
      requires Valid() && IsSettingsEdit(clockInfo0.mode)
      modifies this`clockInfo0, this`clockInfo1, this`clockInfo2
      ensures State() == SettingsPress(old(State()))
    {
      var m := clockInfo0.mode;
      clockInfo0 := SettingChange(m, clockInfo0);
      clockInfo1 := SettingChange(m, clockInfo1);
      clockInfo2 := SettingChange(m, clockInfo2);
    }

    method HandleChangeButtonRelease()
      requires Valid()
      modifies this
      ensures Valid()
      ensures State() == ReleaseStep(old(State()))
    {
      if IsEdit(clockInfo0.mode) {
        SuppressBlink(false);
      }
    }

    /** Sets suppressBlink on all four snapshots. */
    method SuppressBlink(on: bool)
      modifies this`clockInfo0, this`clockInfo1, this`clockInfo2, this`changingInfo
      ensures State() == Suppressed(old(State()), on)
    {
      clockInfo0 := clockInfo0.(suppressBlink := on);
      clockInfo1 := clockInfo1.(suppressBlink := on);
      clockInfo2 := clockInfo2.(suppressBlink := on);
      changingInfo := changingInfo.(suppressBlink := on);
    }

    method UpdateDateTime(nowSeconds: int)
      modifies this`clockInfo0, this`clockInfo1, this`clockInfo2, this`changingInfo
      ensures State() == DateTimeStep(lib, nowSeconds, old(State()))
    {
      clockInfo0 := clockInfo0.(dateTime := lib.forEpochSeconds(nowSeconds, clockInfo0.timeZone));
      clockInfo1 := clockInfo1.(dateTime := lib.forEpochSeconds(nowSeconds, clockInfo1.timeZone));
      clockInfo2 := clockInfo2.(dateTime := lib.forEpochSeconds(nowSeconds, clockInfo2.timeZone));
      if IsDateEdit(clockInfo0.mode) && !secondFieldCleared {
        changingInfo := changingInfo.(dateTime := changingInfo.dateTime.(second := clockInfo0.dateTime.second));
      }
    }

    /** updatePresenter, with the inversion of the setting the clocks carry (see PresentStepAsWritten). */
    method UpdatePresenter()
      requires Valid()
      modifies this`clockInfo0, this`clockInfo1, this`clockInfo2, this`presented0, this`presented1, this`presented2
      ensures State() == PresentStep(lib, old(State()))
    {
      var src := if IsEdit(clockInfo0.mode) then changingInfo else clockInfo0;
      var e := lib.toEpochSeconds(src.dateTime);
      var inv := InvertStateFor(clockInfo0.invertDisplay, src.dateTime);
      clockInfo0 := clockInfo0.(mode := src.mode, dateTime := src.dateTime, invertState := inv);
      clockInfo1 := clockInfo1.(mode := src.mode, dateTime := lib.forEpochSeconds(e, clockInfo1.timeZone), invertState := inv);
      clockInfo2 := clockInfo2.(mode := src.mode, dateTime := lib.forEpochSeconds(e, clockInfo2.timeZone), invertState := inv);
      presented0 := clockInfo0;
      presented1 := clockInfo1;
      presented2 := clockInfo2;
    }

    /** saveDateTime: normalize the scratch date-time and set the clock to it. */
    method SaveDateTime()
      modifies this`changingInfo, this`clockWrites
      ensures changingInfo == old(changingInfo).(dateTime := lib.normalize(old(changingInfo).dateTime))
      ensures clockWrites == old(clockWrites) + [lib.toEpochSeconds(changingInfo.dateTime)]
    {
      changingInfo := changingInfo.(dateTime := lib.normalize(changingInfo.dateTime));
      clockWrites := clockWrites + [lib.toEpochSeconds(changingInfo.dateTime)];
    }

    /** saveClockInfo / preserveClockInfo: persist clock 0's settings. */
    method SaveClockInfo()
      modifies this`storeWrites
      ensures storeWrites == old(storeWrites) + [SettingsOf(clockInfo0)]
    {
      storeWrites := storeWrites + [SettingsOf(clockInfo0)];
    }

    method RestoreClockInfo(factoryReset: bool, read: StoreRead)
      requires Valid()
      requires !factoryReset && read.StoreOk? ==> StoredOk(read.stored)
      modifies this`clockInfo0, this`clockInfo1, this`clockInfo2, this`storeWrites
      ensures Valid()
      ensures State() == RestoreStep(factoryReset, read, old(State()))
    {
      if !factoryReset && read.StoreOk? {
        ClockInfoFromStoredInfo(read.stored);
      } else {
        ClockInfoFromStoredInfo(FactorySettings);
        SaveClockInfo();
      }
    }

    /** clockInfoFromStoredInfo (and setupClockInfo, with the factory settings): the same settings in all three clocks. */
    method ClockInfoFromStoredInfo(b: StoredInfo)
      modifies this`clockInfo0, this`clockInfo1, this`clockInfo2
      ensures State() == AllSettings(old(State()), b)
    {
      clockInfo0 := WithSettings(clockInfo0, b);
      clockInfo1 := WithSettings(clockInfo1, b);
      clockInfo2 := WithSettings(clockInfo2, b);
    }
  }
}
