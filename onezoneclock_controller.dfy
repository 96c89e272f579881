/**
 * The Controller of OneZoneClock (OneZoneClock/Controller.h), built for named
 * zones and an OLED screen: a flat Mode enum walked by switch statements, a
 * committed ClockInfo and a scratch copy edited in the date and zone modes,
 * the display settings edited in place, and the snapshot handed to the
 * presenter.
 *
 * The clock's setNow() calls, the EEPROM writes and the presenter's
 * updateDisplay() calls are kept as traces; the current epoch seconds and the
 * system clock's sync readings are parameters of the operations that read them.
 */
module OneZoneClockController {
  import opened Widths
  import opened AceCommon
  import opened AceTime
  import opened Cycles
  import opened ZoneEdits
  import opened OneZoneClockInfo

  /** handleModeButtonPress's switch: the screen ring, the date-field ring, the settings pair. */
  function NextMode(m: Mode): Mode
  {
    match m
    case ViewDateTime => ViewTimeZone
    case ViewTimeZone => ViewSettings
    case ViewSettings => ViewSysclock
    case ViewSysclock => ViewAbout
    case ViewAbout => ViewDateTime
    case ChangeHour => ChangeMinute
    case ChangeMinute => ChangeSecond
    case ChangeSecond => ChangeYear
    case ChangeYear => ChangeMonth
    case ChangeMonth => ChangeDay
    case ChangeDay => ChangeHour
    case ChangeSettingsContrast => ChangeInvertDisplay
    case ChangeInvertDisplay => ChangeSettingsContrast
    case _ => m
  }

  const ViewCycle := [ViewDateTime, ViewTimeZone, ViewSettings, ViewSysclock, ViewAbout]
  const DateCycle := [ChangeHour, ChangeMinute, ChangeSecond, ChangeYear, ChangeMonth, ChangeDay]
  const SettingsCycle := [ChangeSettingsContrast, ChangeInvertDisplay]

  /** Five presses bring a screen back, and no fewer do. */
  lemma ViewCyclePeriod(i: nat)
    requires i < |ViewCycle|
    ensures Iterate(NextMode, ViewCycle[i], 5) == ViewCycle[i]
    ensures forall k :: 0 < k < 5 ==> Iterate(NextMode, ViewCycle[i], k) != ViewCycle[i]
  {
    assert AdvancesAlong(NextMode, ViewCycle);
    RingExactPeriod(NextMode, ViewCycle, i);
  }

  /** Six presses bring a date field back, and no fewer do. */
  lemma DateCyclePeriod(i: nat)
    requires i < |DateCycle|
    ensures Iterate(NextMode, DateCycle[i], 6) == DateCycle[i]
    ensures forall k :: 0 < k < 6 ==> Iterate(NextMode, DateCycle[i], k) != DateCycle[i]
  {
    assert AdvancesAlong(NextMode, DateCycle);
    RingExactPeriod(NextMode, DateCycle, i);
  }

  /** The two settings fields alternate; the zone-name edit and MODE_UNKNOWN stay put. */
  lemma SettingsCyclePeriod(i: nat)
    requires i < |SettingsCycle|
    ensures Iterate(NextMode, SettingsCycle[i], 2) == SettingsCycle[i]
    ensures Iterate(NextMode, SettingsCycle[i], 1) != SettingsCycle[i]
    ensures NextMode(ChangeTimeZoneName) == ChangeTimeZoneName && NextMode(Unknown) == Unknown
  {
    assert AdvancesAlong(NextMode, SettingsCycle);
    RingExactPeriod(NextMode, SettingsCycle, i);
  }

  /** The screen an edit mode belongs to; a screen is its own. */
  function FamilyView(m: Mode): (v: Mode)
    ensures IsEdit(m) ==> v in {ViewDateTime, ViewTimeZone, ViewSettings}
    ensures !IsEdit(m) ==> v == m
  {
    if IsDateEdit(m) then ViewDateTime
    else if m == ChangeTimeZoneName then ViewTimeZone
    else if IsSettingsEdit(m) then ViewSettings
    else m
  }

  /** The mode button never leaves the current screen's family. */
  lemma NextModeKeepsFamily(m: Mode)
    ensures IsEdit(NextMode(m)) == IsEdit(m)
    ensures IsEdit(m) ==> FamilyView(NextMode(m)) == FamilyView(m)
  {
  }

  /** The mode a long press leads to: into a screen's first edit field, or back out to the screen. */
  function LongPressMode(m: Mode): (r: Mode)
    ensures IsEdit(m) ==> r == FamilyView(m)
    ensures m in {ViewDateTime, ViewTimeZone, ViewSettings} ==> IsEdit(r) && FamilyView(r) == m
    ensures !IsEdit(m) && m !in {ViewDateTime, ViewTimeZone, ViewSettings} ==> r == m
  {
    match m
    case ViewDateTime => ChangeYear
    case ViewTimeZone => ChangeTimeZoneName
    case ViewSettings => ChangeSettingsContrast
    case _ => FamilyView(m)
  }

  /** A second long press comes back to the screen the first one left. */
  lemma LongPressRoundTrip(m: Mode)
    requires m in {ViewDateTime, ViewTimeZone, ViewSettings}
    ensures LongPressMode(LongPressMode(m)) == m
  {
  }

  /** The changing snapshot shows the committed one: the zone is kept and an unset clock reads epoch 0. */
  function InitChanging(lib: TimeLib, c: ClockInfo): (r: ClockInfo)
    ensures r == c.(dateTime := EpochZeroFallback(lib, c.dateTime))
    ensures !c.dateTime.isError ==> r == c
  {
    c.(dateTime := EpochZeroFallback(lib, c.dateTime))
  }

  /** The controller's fields as one value; the class below keeps them in place. */
  datatype Ctl = Ctl(
    clockInfo: ClockInfo, changingInfo: ClockInfo,
    zoneRegistryIndex: int, secondFieldCleared: bool,
    presented: ClockInfo, displayCalls: seq<ClockInfo>,
    clockWrites: seq<int>, storeWrites: seq<StoredInfo>)

  /**
   * The uint8 and uint16 fields hold values of their width, and in the modes
   * that show the scratch snapshot it carries the controller's mode, so the
   * presenter blinks the field being edited.
   */
  ghost predicate Inv(s: Ctl)
  {
    0 <= s.zoneRegistryIndex < 65536 &&
    0 <= s.clockInfo.hourMode < 256 && 0 <= s.changingInfo.hourMode < 256 &&
    (EditsScratch(s.clockInfo.mode) ==> s.changingInfo.mode == s.clockInfo.mode)
  }

  /**
   * handleModeButtonPress as written: the next mode goes into the committed
   * snapshot only; entering the zone-name edit looks up the scratch zone's
   * registry index.
   */
  function ModePressStepAsWritten(lib: TimeLib, s: Ctl): (r: Ctl)
    ensures r.clockInfo == s.clockInfo.(mode := NextMode(s.clockInfo.mode))
    ensures r.changingInfo == s.changingInfo
    ensures r.clockInfo.mode == ChangeTimeZoneName ==>
      r.zoneRegistryIndex == U16(lib.indexForZoneId(s.changingInfo.timeZone.zoneId))
    ensures r == s.(clockInfo := r.clockInfo, zoneRegistryIndex := r.zoneRegistryIndex)
  {
    var m := NextMode(s.clockInfo.mode);
    var t := s.(clockInfo := s.clockInfo.(mode := m));
    if m == ChangeTimeZoneName then t.(zoneRegistryIndex := U16(lib.indexForZoneId(s.changingInfo.timeZone.zoneId)))
    else t
  }

  /**
   * handleModeButtonPress as the sibling clocks write it: the scratch
   * snapshot takes the new mode too.
   */
  function ModePressStep(lib: TimeLib, s: Ctl): (r: Ctl)
    requires Inv(s)
    ensures Inv(r)
    ensures r.clockInfo == s.clockInfo.(mode := NextMode(s.clockInfo.mode))
    ensures r.changingInfo == s.changingInfo.(mode := r.clockInfo.mode)
    ensures r.clockInfo.mode == ChangeTimeZoneName ==>
      r.zoneRegistryIndex == U16(lib.indexForZoneId(s.changingInfo.timeZone.zoneId))
    ensures r.clockInfo.mode != ChangeTimeZoneName ==> r.zoneRegistryIndex == s.zoneRegistryIndex
    ensures r == s.(clockInfo := r.clockInfo, changingInfo := r.changingInfo, zoneRegistryIndex := r.zoneRegistryIndex)
  {
    var t := ModePressStepAsWritten(lib, s);
    t.(changingInfo := t.changingInfo.(mode := t.clockInfo.mode))
  }

  /**
   * handleModeButtonLongPress. From a screen with edits: the scratch
   * snapshot starts from the committed one (an unset clock reads epoch 0),
   * and the zone edit looks up its registry index. Out of a date edit: the
   * scratch date-time is normalized and the clock set to it. Out of the
   * zone edit: the scratch snapshot is committed and persisted. Out of a
   * settings edit: the committed snapshot is persisted. Then the scratch
   * snapshot takes the new mode.
   */
  function LongPressStep(lib: TimeLib, s: Ctl): (r: Ctl)
    requires Inv(s)
    ensures Inv(r)
    ensures r.clockInfo.mode == LongPressMode(s.clockInfo.mode)
    ensures r.changingInfo.mode == r.clockInfo.mode
  {
    if s.clockInfo.mode in {ViewDateTime, ViewTimeZone, ViewSettings} then EnterEditStep(lib, s)
    else LeaveEditStep(lib, s)
  }

  /** The long press from a screen that has edits: the scratch snapshot is prepared for the edit. */
  function EnterEditStep(lib: TimeLib, s: Ctl): (r: Ctl)
    requires Inv(s) && s.clockInfo.mode in {ViewDateTime, ViewTimeZone, ViewSettings}
    ensures Inv(r)
    ensures s.clockInfo.mode == ViewDateTime ==>
      r == s.(clockInfo := s.clockInfo.(mode := ChangeYear),
              changingInfo := InitChanging(lib, s.clockInfo).(mode := ChangeYear), secondFieldCleared := false)
    ensures s.clockInfo.mode == ViewTimeZone ==>
      var c := InitChanging(lib, s.clockInfo);
      r == s.(clockInfo := s.clockInfo.(mode := ChangeTimeZoneName),
              changingInfo := c.(mode := ChangeTimeZoneName),
              zoneRegistryIndex := U16(lib.indexForZoneId(c.timeZone.zoneId)))
    ensures s.clockInfo.mode == ViewSettings ==>
      r == s.(clockInfo := s.clockInfo.(mode := ChangeSettingsContrast),
              changingInfo := s.changingInfo.(mode := ChangeSettingsContrast))
  {
    var ci := s.clockInfo;
    var m := ci.mode;
    if m == ViewDateTime then
      s.(clockInfo := ci.(mode := ChangeYear),
         changingInfo := InitChanging(lib, ci).(mode := ChangeYear), secondFieldCleared := false)
    else if m == ViewTimeZone then
      var c := InitChanging(lib, ci);
      s.(clockInfo := ci.(mode := ChangeTimeZoneName), changingInfo := c.(mode := ChangeTimeZoneName),
         zoneRegistryIndex := U16(lib.indexForZoneId(c.timeZone.zoneId)))
    else
      s.(clockInfo := ci.(mode := ChangeSettingsContrast), changingInfo := s.changingInfo.(mode := ChangeSettingsContrast))
  }

  /**
   * The long press from an edit, or from a screen without edits: the edit
   * is committed and the committed mode goes back to its screen.
   */
  function LeaveEditStep(lib: TimeLib, s: Ctl): (r: Ctl)
    requires Inv(s) && s.clockInfo.mode !in {ViewDateTime, ViewTimeZone, ViewSettings}
    ensures Inv(r)
    ensures IsDateEdit(s.clockInfo.mode) ==>
      var dt := lib.normalize(s.changingInfo.dateTime);
      r == s.(clockInfo := s.clockInfo.(mode := ViewDateTime),
              changingInfo := s.changingInfo.(mode := ViewDateTime, dateTime := dt),
              clockWrites := s.clockWrites + [lib.toEpochSeconds(dt)])
    ensures s.clockInfo.mode == ChangeTimeZoneName ==>
      r == s.(clockInfo := s.changingInfo.(mode := ViewTimeZone),
              changingInfo := s.changingInfo.(mode := ViewTimeZone),
              storeWrites := s.storeWrites + [StoredOf(s.changingInfo)])
    ensures IsSettingsEdit(s.clockInfo.mode) ==>
      r == s.(clockInfo := s.clockInfo.(mode := ViewSettings),
              changingInfo := s.changingInfo.(mode := ViewSettings),
              storeWrites := s.storeWrites + [StoredOf(s.clockInfo)])
    ensures s.clockInfo.mode in {Unknown, ViewSysclock, ViewAbout} ==>
      r == s.(changingInfo := s.changingInfo.(mode := s.clockInfo.mode))
  {
    var ci := s.clockInfo;
    var m := ci.mode;
    if IsDateEdit(m) then
      var dt := lib.normalize(s.changingInfo.dateTime);
      s.(clockInfo := ci.(mode := ViewDateTime), changingInfo := s.changingInfo.(mode := ViewDateTime, dateTime := dt),
         clockWrites := s.clockWrites + [lib.toEpochSeconds(dt)])
    else if m == ChangeTimeZoneName then
      s.(clockInfo := s.changingInfo.(mode := ViewTimeZone), changingInfo := s.changingInfo.(mode := ViewTimeZone),
         storeWrites := s.storeWrites + [StoredOf(s.changingInfo)])
    else if IsSettingsEdit(m) then
      s.(clockInfo := ci.(mode := ViewSettings), changingInfo := s.changingInfo.(mode := ViewSettings),
         storeWrites := s.storeWrites + [StoredOf(ci)])
    else
      s.(changingInfo := s.changingInfo.(mode := m))
  }

  /**
   * Into the date edit and straight out again: the clock is set to the
   * normalized committed time (epoch 0 for an unset clock), and the
   * committed snapshot and the EEPROM are untouched.
   */
  lemma EnterAndLeaveDateEdit(lib: TimeLib, s: Ctl)
    requires Inv(s) && s.clockInfo.mode == ViewDateTime
    ensures var r := LongPressStep(lib, LongPressStep(lib, s));
      r.clockInfo == s.clockInfo && r.storeWrites == s.storeWrites &&
      r.clockWrites == s.clockWrites + [lib.toEpochSeconds(lib.normalize(EpochZeroFallback(lib, s.clockInfo.dateTime)))]
  {
    var t := LongPressStep(lib, s);
    assert t.clockInfo.mode == ChangeYear && IsDateEdit(t.clockInfo.mode);
    assert t.changingInfo.dateTime == EpochZeroFallback(lib, s.clockInfo.dateTime);
  }

  /**
   * Into the zone edit and straight out again: the committed zone is kept
   * and persisted, and only an unset clock's time changes (to epoch 0).
   */
  lemma EnterAndLeaveZoneEdit(lib: TimeLib, s: Ctl)
    requires Inv(s) && s.clockInfo.mode == ViewTimeZone
    ensures var r := LongPressStep(lib, LongPressStep(lib, s));
      r.clockInfo == InitChanging(lib, s.clockInfo) && r.clockWrites == s.clockWrites &&
      r.storeWrites == s.storeWrites + [StoredOf(s.clockInfo)]
  {
    var t := LongPressStep(lib, s);
    assert t.clockInfo.mode == ChangeTimeZoneName;
    assert t.changingInfo == InitChanging(lib, s.clockInfo).(mode := ChangeTimeZoneName);
  }

  /** handleModeButtonDoubleClick: leave an edit for its screen, saving nothing. */
  function DoubleClickStep(s: Ctl): (r: Ctl)
    requires Inv(s)
    ensures Inv(r)
    ensures r.clockInfo.mode == FamilyView(s.clockInfo.mode)
    ensures r == s.(clockInfo := s.clockInfo.(mode := r.clockInfo.mode))
  {
    s.(clockInfo := s.clockInfo.(mode := FamilyView(s.clockInfo.mode)))
  }

  /** A double click lands on the screen a long press would, but discards the edit. */
  lemma DoubleClickDiscards(lib: TimeLib, s: Ctl)
    requires Inv(s) && IsEdit(s.clockInfo.mode)
    ensures DoubleClickStep(s).clockInfo.mode == LongPressStep(lib, s).clockInfo.mode
    ensures var r := DoubleClickStep(s);
      r.clockWrites == s.clockWrites && r.storeWrites == s.storeWrites &&
      r.clockInfo == s.clockInfo.(mode := r.clockInfo.mode)
  {
  }

  /** The zoned_date_time_mutation call of each date edit but the second's. */
  function IncrementField(lib: TimeLib, m: Mode, dt: ZonedDateTime): (r: ZonedDateTime)
    requires IsDateEdit(m) && m != ChangeSecond
    ensures m == ChangeYear ==> r == lib.incrementYear(dt)
    ensures m == ChangeMonth ==> r == lib.incrementMonth(dt)
    ensures m == ChangeDay ==> r == lib.incrementDay(dt)
    ensures m == ChangeHour ==> r == lib.incrementHour(dt)
    ensures m == ChangeMinute ==> r == lib.incrementMinute(dt)
  {
    match m
    case ChangeYear => lib.incrementYear(dt)
    case ChangeMonth => lib.incrementMonth(dt)
    case ChangeDay => lib.incrementDay(dt)
    case ChangeHour => lib.incrementHour(dt)
    case ChangeMinute => lib.incrementMinute(dt)
  }

  /**
   * The switch of handleChangeButtonPress, after both snapshots start
   * suppressing the blink. On the date-time screen the 12/24 mode flips and
   * is persisted. A date edit increments one scratch field (the second is
   * zeroed and latched instead); the zone edit selects the next registry
   * zone and re-expresses the scratch time in it. The settings edits step
   * the committed contrast level through 0..9 and the invert setting
   * through its five values.
   */
  function ChangeStep(lib: TimeLib, s: Ctl): (r: Ctl)
    requires Inv(s)
    ensures Inv(r)
    ensures r.clockInfo.suppressBlink && r.changingInfo.suppressBlink
    ensures r.clockInfo.mode == s.clockInfo.mode && r.changingInfo.mode == s.changingInfo.mode
    ensures (r.presented, r.displayCalls, r.clockWrites) == (s.presented, s.displayCalls, s.clockWrites)
    ensures s.clockInfo.mode == ViewDateTime ==>
      r.clockInfo.hourMode % 2 != s.clockInfo.hourMode % 2 &&
      r.clockInfo == s.clockInfo.(suppressBlink := true, hourMode := r.clockInfo.hourMode) &&
      r.storeWrites == s.storeWrites + [StoredOf(r.clockInfo)]
    ensures s.clockInfo.mode != ViewDateTime ==> r.storeWrites == s.storeWrites
    ensures IsDateEdit(s.clockInfo.mode) ==>
      r.clockInfo == s.clockInfo.(suppressBlink := true) &&
      r.changingInfo == s.changingInfo.(suppressBlink := true, dateTime := r.changingInfo.dateTime) &&
      r.zoneRegistryIndex == s.zoneRegistryIndex
    ensures s.clockInfo.mode == ChangeYear ==> r.changingInfo.dateTime == lib.incrementYear(s.changingInfo.dateTime)
    ensures s.clockInfo.mode == ChangeMonth ==> r.changingInfo.dateTime == lib.incrementMonth(s.changingInfo.dateTime)
    ensures s.clockInfo.mode == ChangeDay ==> r.changingInfo.dateTime == lib.incrementDay(s.changingInfo.dateTime)
    ensures s.clockInfo.mode == ChangeHour ==> r.changingInfo.dateTime == lib.incrementHour(s.changingInfo.dateTime)
    ensures s.clockInfo.mode == ChangeMinute ==> r.changingInfo.dateTime == lib.incrementMinute(s.changingInfo.dateTime)
    ensures s.clockInfo.mode == ChangeSecond ==>
      r.changingInfo.dateTime == WithSecond(s.changingInfo.dateTime, 0) && r.secondFieldCleared
    ensures s.clockInfo.mode != ChangeSecond ==> r.secondFieldCleared == s.secondFieldCleared
    ensures s.clockInfo.mode == ChangeTimeZoneName ==>
      r.clockInfo == s.clockInfo.(suppressBlink := true) &&
      r.zoneRegistryIndex == NextRegistryIndex(s.zoneRegistryIndex, lib.registrySize) &&
      r.changingInfo == s.changingInfo.(suppressBlink := true, timeZone := lib.createForZoneIndex(r.zoneRegistryIndex),
        dateTime := lib.convertToTimeZone(s.changingInfo.dateTime, lib.createForZoneIndex(r.zoneRegistryIndex)))
    ensures s.clockInfo.mode == ChangeSettingsContrast ==>
      r.clockInfo == s.clockInfo.(suppressBlink := true,
                                  contrastLevel := IncrementMod(s.clockInfo.contrastLevel, 10))
    ensures s.clockInfo.mode == ChangeInvertDisplay ==>
      r.clockInfo == s.clockInfo.(suppressBlink := true,
                                  invertDisplay := IncrementMod(s.clockInfo.invertDisplay, 5))
    ensures s.clockInfo.mode != ChangeTimeZoneName ==> r.zoneRegistryIndex == s.zoneRegistryIndex
    ensures !EditsScratch(s.clockInfo.mode) ==> r.changingInfo == s.changingInfo.(suppressBlink := true)
    ensures !IsEdit(s.clockInfo.mode) && s.clockInfo.mode != ViewDateTime ==>
      r.clockInfo == s.clockInfo.(suppressBlink := true)
  {
    var ci := s.clockInfo.(suppressBlink := true);
    var c := s.changingInfo.(suppressBlink := true);
    var t := s.(clockInfo := ci, changingInfo := c);
    var dt := c.dateTime;
    var m := ci.mode;
    if m == ViewDateTime then
      var info := ci.(hourMode := ToggleLowBit(ci.hourMode));
      t.(clockInfo := info, storeWrites := s.storeWrites + [StoredOf(info)])
    else if IsDateEdit(m) && m != ChangeSecond then t.(changingInfo := c.(dateTime := IncrementField(lib, m, dt)))
    else if m == ChangeSecond then t.(changingInfo := c.(dateTime := dt.(second := 0)), secondFieldCleared := true)
    else if m == ChangeTimeZoneName then
      var i := NextRegistryIndex(s.zoneRegistryIndex, lib.registrySize);
      var tz := lib.createForZoneIndex(i);
      t.(zoneRegistryIndex := i, changingInfo := c.(timeZone := tz, dateTime := lib.convertToTimeZone(dt, tz)))
    else if m == ChangeSettingsContrast then t.(clockInfo := ci.(contrastLevel := IncrementMod(ci.contrastLevel, 10)))
    else if m == ChangeInvertDisplay then t.(clockInfo := ci.(invertDisplay := IncrementMod(ci.invertDisplay, 5)))
    else t
  }

  /** Two presses on the date-time screen restore the 12/24 mode, and the last record persisted says so. */
  lemma HourModeTogglesBack(lib: TimeLib, s: Ctl)
    requires Inv(s) && s.clockInfo.mode == ViewDateTime
    ensures ChangeStep(lib, ChangeStep(lib, s)).clockInfo == s.clockInfo.(suppressBlink := true)
    ensures var w := ChangeStep(lib, ChangeStep(lib, s)).storeWrites;
      |w| == |s.storeWrites| + 2 && w[|w| - 1] == StoredOf(s.clockInfo)
  {
    ToggleLowBitInvolution(s.clockInfo.hourMode);
  }

  /** Ten presses in the contrast edit bring a level of 0..9 back, and fewer do not. */
  lemma ContrastEditPeriod(lib: TimeLib, s: Ctl)
    requires 0 <= s.clockInfo.contrastLevel < 10
    ensures IncrementModTimes(s.clockInfo.contrastLevel, 10, 10) == s.clockInfo.contrastLevel
    ensures forall k :: 0 < k < 10 ==> IncrementModTimes(s.clockInfo.contrastLevel, 10, k) != s.clockInfo.contrastLevel
  {
    IncrementModPeriod(s.clockInfo.contrastLevel, 10);
    forall k | 0 < k < 10 ensures IncrementModTimes(s.clockInfo.contrastLevel, 10, k) != s.clockInfo.contrastLevel {
      IncrementModNoShorterPeriod(s.clockInfo.contrastLevel, 10, k);
    }
  }

  /** handleChangeButtonRelease: every edit mode stops suppressing the blink on both snapshots. */
  function ReleaseStep(s: Ctl): (r: Ctl)
    requires Inv(s)
    ensures Inv(r)
    ensures IsEdit(s.clockInfo.mode) ==>
      r == s.(clockInfo := s.clockInfo.(suppressBlink := false), changingInfo := s.changingInfo.(suppressBlink := false))
    ensures !IsEdit(s.clockInfo.mode) ==> r == s
  {
    if IsEdit(s.clockInfo.mode) then
      s.(clockInfo := s.clockInfo.(suppressBlink := false), changingInfo := s.changingInfo.(suppressBlink := false))
    else s
  }

  /** updatePresenter: the scratch snapshot in the date and zone edits, the committed one otherwise. */
  function PresenterStep(s: Ctl): (r: Ctl)
    ensures EditsScratch(s.clockInfo.mode) ==> r == s.(presented := s.changingInfo)
    ensures !EditsScratch(s.clockInfo.mode) ==> r == s.(presented := s.clockInfo)
  {
    s.(presented := if EditsScratch(s.clockInfo.mode) then s.changingInfo else s.clockInfo)
  }

  /** updateBlinkState: both snapshots flip their blink phase, and the presenter gets the shown one. */
  function BlinkStep(s: Ctl): (r: Ctl)
    requires Inv(s)
    ensures Inv(r)
    ensures r.clockInfo == s.clockInfo.(blinkShowState := !s.clockInfo.blinkShowState)
    ensures r.changingInfo == s.changingInfo.(blinkShowState := !s.changingInfo.blinkShowState)
    ensures r.presented.mode == s.clockInfo.mode
    ensures r == s.(clockInfo := r.clockInfo, changingInfo := r.changingInfo, presented := r.presented)
  {
    PresenterStep(s.(clockInfo := s.clockInfo.(blinkShowState := !s.clockInfo.blinkShowState),
                     changingInfo := s.changingInfo.(blinkShowState := !s.changingInfo.blinkShowState)))
  }

  /**
   * updateDateTime: the live time in the committed zone and the system
   * clock's sync readings; in a date edit the scratch second follows the
   * live one until it has been zeroed.
   */
  function DateTimeStep(lib: TimeLib, nowSeconds: int, status: ClockStatus, s: Ctl): (r: Ctl)
    ensures Inv(s) ==> Inv(r)
    ensures r.clockInfo.dateTime == lib.forEpochSeconds(nowSeconds, s.clockInfo.timeZone)
    ensures r.clockInfo == s.clockInfo.(dateTime := r.clockInfo.dateTime,
      prevSync := status.secondsSinceSyncAttempt, nextSync := status.secondsToSyncAttempt,
      clockSkew := status.clockSkew, syncStatusCode := status.syncStatusCode)
    ensures IsDateEdit(s.clockInfo.mode) && !s.secondFieldCleared ==>
      r.changingInfo == s.changingInfo.(dateTime := WithSecond(s.changingInfo.dateTime, r.clockInfo.dateTime.second))
    ensures !IsDateEdit(s.clockInfo.mode) || s.secondFieldCleared ==> r.changingInfo == s.changingInfo
    ensures r == s.(clockInfo := r.clockInfo, changingInfo := r.changingInfo)
  {
    var live := lib.forEpochSeconds(nowSeconds, s.clockInfo.timeZone);
    var c := s.changingInfo;
    s.(clockInfo := s.clockInfo.(dateTime := live,
         prevSync := status.secondsSinceSyncAttempt, nextSync := status.secondsToSyncAttempt,
         clockSkew := status.clockSkew, syncStatusCode := status.syncStatusCode),
       changingInfo := if IsDateEdit(s.clockInfo.mode) && !s.secondFieldCleared
                       then c.(dateTime := c.dateTime.(second := live.second)) else c)
  }

  /**
   * update: nothing in MODE_UNKNOWN; otherwise read the time, hand the
   * presenter the snapshot of the mode, and redraw. The snapshot handed over
   * always carries the controller's mode.
   */
  function UpdateStep(lib: TimeLib, nowSeconds: int, status: ClockStatus, s: Ctl): (r: Ctl)
    ensures Inv(s) ==> Inv(r)
    ensures s.clockInfo.mode == Unknown ==> r == s
    ensures s.clockInfo.mode != Unknown ==>
      var t := DateTimeStep(lib, nowSeconds, status, s);
      r.presented == (if EditsScratch(s.clockInfo.mode) then t.changingInfo else t.clockInfo) &&
      r.presented.mode == (if EditsScratch(s.clockInfo.mode) then s.changingInfo.mode else s.clockInfo.mode) &&
      r == t.(presented := r.presented, displayCalls := s.displayCalls + [r.presented])
    ensures Inv(s) && s.clockInfo.mode != Unknown ==> r.presented.mode == s.clockInfo.mode
  {
    if s.clockInfo.mode == Unknown then s
    else
      var t := PresenterStep(DateTimeStep(lib, nowSeconds, status, s));
      t.(displayCalls := t.displayCalls + [t.presented])
  }

  /**
   * As written, a mode press inside the date edit hands the presenter a
   * snapshot that still names the previous field: after moving from the
   * year to the month, the year keeps blinking and the month never does.
   */
  lemma StaleBlinkFieldAsWritten(lib: TimeLib, nowSeconds: int, status: ClockStatus, s: Ctl)
    requires Inv(s) && s.clockInfo.mode == ChangeYear
    ensures var r := UpdateStep(lib, nowSeconds, status, ModePressStepAsWritten(lib, s));
      r.clockInfo.mode == ChangeMonth && r.presented.mode == ChangeYear
    ensures !Inv(ModePressStepAsWritten(lib, s))
  {
  }

  /** With the scratch snapshot kept in step, the presenter is always shown the mode just entered. */
  lemma PressedModeIsPresented(lib: TimeLib, nowSeconds: int, status: ClockStatus, s: Ctl)
    requires Inv(s) && s.clockInfo.mode != Unknown
    ensures var r := UpdateStep(lib, nowSeconds, status, ModePressStep(lib, s));
      r.presented.mode == r.clockInfo.mode == NextMode(s.clockInfo.mode)
  {
  }

  /** StoredInfo's ClockInfo::kTwentyFour. */
  const TwentyFour := 1

  /** restoreClockInfo: a valid stored record, unless reset; otherwise the defaults, persisted. */
  function RestoreStep(initialTimeZone: TimeZone, initialContrast: int, factoryReset: bool, read: StoreRead, s: Ctl): (r: Ctl)
    requires Inv(s)
    requires !factoryReset && read.StoreOk? ==> 0 <= read.stored.hourMode < 256
    ensures Inv(r)
    ensures !factoryReset && read.StoreOk? ==> r == s.(clockInfo := WithStored(s.clockInfo, read.stored))
    ensures factoryReset || read.StoreBad? ==>
      var info := s.clockInfo.(hourMode := TwentyFour, timeZone := initialTimeZone,
                               contrastLevel := initialContrast, invertDisplay := InvertOff);
      r == s.(clockInfo := info, storeWrites := s.storeWrites + [StoredOf(info)])
  {
    if !factoryReset && read.StoreOk? then s.(clockInfo := WithStored(s.clockInfo, read.stored))
    else
      var info := s.clockInfo.(hourMode := TwentyFour, timeZone := initialTimeZone,
                               contrastLevel := initialContrast, invertDisplay := InvertOff);
      s.(clockInfo := info, storeWrites := s.storeWrites + [StoredOf(info)])
  }

  /** A factory reset persists exactly the defaults it installs, so the next boot reads them back. */
  lemma ResetThenRestore(initialTimeZone: TimeZone, initialContrast: int, read: StoreRead, s: Ctl)
    requires Inv(s)
    ensures var r := RestoreStep(initialTimeZone, initialContrast, true, read, s);
      var w := r.storeWrites[|r.storeWrites| - 1];
      RestoreStep(initialTimeZone, initialContrast, false, StoreOk(w), r).clockInfo == r.clockInfo
  {
    var r := RestoreStep(initialTimeZone, initialContrast, true, read, s);
    StoredRoundTrip(r.clockInfo);
  }

  class Controller {
    const lib: TimeLib
    const initialTimeZone: TimeZone
    /** OLED_INITIAL_CONTRAST. */
    const initialContrast: int

    var clockInfo: ClockInfo
    var changingInfo: ClockInfo
    var zoneRegistryIndex: int
    var secondFieldCleared: bool
    /** The ClockInfo last handed to the presenter's setClockInfo(). */
    var presented: ClockInfo
    /** The presenter's updateDisplay() calls, each with the ClockInfo it then held. */
    var displayCalls: seq<ClockInfo>
    /** The clock's setNow() calls, in epoch seconds. */
    var clockWrites: seq<int>
    /** The records written to the EEPROM. */
    var storeWrites: seq<StoredInfo>

    function State(): Ctl
      reads this
    {
      Ctl(clockInfo, changingInfo, zoneRegistryIndex, secondFieldCleared,
          presented, displayCalls, clockWrites, storeWrites)
    }

    ghost predicate Valid()
      reads this
    {
      Inv(State())
    }

    constructor (lib: TimeLib, initialTimeZone: TimeZone, initialContrast: int)
      ensures Valid()
      ensures this.lib == lib && this.initialTimeZone == initialTimeZone && this.initialContrast == initialContrast
      ensures State() == Ctl(ZeroClockInfo.(mode := ViewDateTime), ZeroClockInfo, 0, false, ZeroClockInfo, [], [], [])
    {
      this.lib := lib;
      this.initialTimeZone := initialTimeZone;
      this.initialContrast := initialContrast;
      clockInfo := ZeroClockInfo.(mode := ViewDateTime);
      changingInfo := ZeroClockInfo;
      zoneRegistryIndex := 0;
      secondFieldCleared := false;
      presented := ZeroClockInfo;
      displayCalls := [];
      clockWrites := [];
      storeWrites := [];
    }

    /** setup: restore the stored info, then read the time. */
    method Setup(factoryReset: bool, read: StoreRead, nowSeconds: int, status: ClockStatus)
      requires Valid()
      requires !factoryReset && read.StoreOk? ==> 0 <= read.stored.hourMode < 256
      modifies this
      ensures Valid()
      ensures State() == DateTimeStep(lib, nowSeconds, status,
                           RestoreStep(initialTimeZone, initialContrast, factoryReset, read, old(State())))
    {
      RestoreClockInfo(factoryReset, read);
      UpdateDateTime(nowSeconds, status);
    }

    method Update(nowSeconds: int, status: ClockStatus)
      requires Valid()
      modifies this
      ensures Valid()
      ensures State() == UpdateStep(lib, nowSeconds, status, old(State()))
    {
      if clockInfo.mode == Unknown {
        return;
      }
      UpdateDateTime(nowSeconds, status);
      UpdatePresenter();
      displayCalls := displayCalls + [presented];
    }

    method UpdateBlinkState()
      requires Valid()
      modifies this
      ensures Valid()
      ensures State() == BlinkStep(old(State()))
    {
      clockInfo := clockInfo.(blinkShowState := !clockInfo.blinkShowState);
      changingInfo := changingInfo.(blinkShowState := !changingInfo.blinkShowState);
      UpdatePresenter();
    }

    /** handleModeButtonPress, with the scratch snapshot kept in step (see ModePressStepAsWritten). */
    method HandleModeButtonPress()
      requires Valid()
      modifies this
      ensures Valid()
      ensures State() == ModePressStep(lib, old(State()))
    {
      var m := NextMode(clockInfo.mode);
      clockInfo := clockInfo.(mode := m);
      if m == ChangeTimeZoneName {
        zoneRegistryIndex := U16(lib.indexForZoneId(changingInfo.timeZone.zoneId));
      }
      changingInfo := changingInfo.(mode := m);
    }

    method HandleModeButtonLongPress()
      requires Valid()
      modifies this`clockInfo, this`changingInfo, this`secondFieldCleared, this`zoneRegistryIndex,
               this`clockWrites, this`storeWrites
      ensures Valid()
      ensures State() == LongPressStep(lib, old(State()))
    {
      if clockInfo.mode in {ViewDateTime, ViewTimeZone, ViewSettings} {
        EnterEdit();
      } else {
        LeaveEdit();
      }
    }

    /** handleModeButtonLongPress from a view that has edits. */
    method EnterEdit()
      requires Valid() && clockInfo.mode in {ViewDateTime, ViewTimeZone, ViewSettings}
      modifies this`clockInfo, this`changingInfo, this`secondFieldCleared, this`zoneRegistryIndex
      ensures Valid()
      ensures State() == EnterEditStep(lib, old(State()))
    {
      var m := clockInfo.mode;
      if m == ViewDateTime {
        changingInfo := clockInfo;
        InitChangingClock();
        secondFieldCleared := false;
        clockInfo := clockInfo.(mode := ChangeYear);
      } else if m == ViewTimeZone {
        changingInfo := clockInfo;
        InitChangingClock();
        zoneRegistryIndex := U16(lib.indexForZoneId(changingInfo.timeZone.zoneId));
        clockInfo := clockInfo.(mode := ChangeTimeZoneName);
      } else {
        clockInfo := clockInfo.(mode := ChangeSettingsContrast);
      }
      changingInfo := changingInfo.(mode := clockInfo.mode);
    }

    /** handleModeButtonLongPress from an edit, or from a view without edits. */
    method LeaveEdit()
      requires Valid() && clockInfo.mode !in {ViewDateTime, ViewTimeZone, ViewSettings}
      modifies this`clockInfo, this`changingInfo, this`clockWrites, this`storeWrites
      ensures Valid()
      ensures State() == LeaveEditStep(lib, old(State()))
    {
      var m := clockInfo.mode;
      if IsDateEdit(m) {
        SaveDateTime();
        clockInfo := clockInfo.(mode := ViewDateTime);
      } else if m == ChangeTimeZoneName {
        SaveChangingClockInfo();
        clockInfo := clockInfo.(mode := ViewTimeZone);
      } else if IsSettingsEdit(m) {
        SaveClockInfo();
        clockInfo := clockInfo.(mode := ViewSettings);
      }
      changingInfo := changingInfo.(mode := clockInfo.mode);
    }

    /** initChangingClock: an unset clock starts its edit at epoch 0. */
    method InitChangingClock()
      modifies this`changingInfo
      ensures State() == old(State()).(changingInfo := InitChanging(lib, old(changingInfo)))
    {
      if changingInfo.dateTime.isError {
        changingInfo := changingInfo.(dateTime := lib.forEpochSeconds(0, changingInfo.dateTime.timeZone));
      }
    }

    method HandleModeButtonDoubleClick()
      requires Valid()
      modifies this
      ensures Valid()
      ensures State() == DoubleClickStep(old(State()))
    {
      var m := clockInfo.mode;
      if IsDateEdit(m) {
        clockInfo := clockInfo.(mode := ViewDateTime);
      } else if m == ChangeTimeZoneName {
        clockInfo := clockInfo.(mode := ViewTimeZone);
      } else if IsSettingsEdit(m) {
        clockInfo := clockInfo.(mode := ViewSettings);
      }
    }

    method HandleChangeButtonPress(nowSeconds: int, status: ClockStatus)
      requires Valid()
      modifies this
      ensures Valid()
      ensures State() == UpdateStep(lib, nowSeconds, status, ChangeStep(lib, old(State())))
    {
      ApplyChange();
      Update(nowSeconds, status);
    }

    /** The switch of handleChangeButtonPress. */
    method ApplyChange()
      requires Valid()
      modifies this
      ensures Valid()
      ensures State() == ChangeStep(lib, old(State()))
    {
      clockInfo := clockInfo.(suppressBlink := true);
      changingInfo := changingInfo.(suppressBlink := true);
      var m := clockInfo.mode;
      if m == ViewDateTime {
        clockInfo := clockInfo.(hourMode := ToggleLowBit(clockInfo.hourMode));
        SaveClockInfo();
      } else if EditsScratch(m) {
        ChangeScratch(m);
      } else if m == ChangeSettingsContrast {
        clockInfo := clockInfo.(contrastLevel := IncrementMod(clockInfo.contrastLevel, 10));
      } else if m == ChangeInvertDisplay {
        clockInfo := clockInfo.(invertDisplay := IncrementMod(clockInfo.invertDisplay, 5));
      }
    }

    /** The date-time and zone-name edits of handleChangeButtonPress, once blinking is suppressed. */
    method ChangeScratch(m: Mode)
      requires Inv(State()) && m == clockInfo.mode && EditsScratch(m)
      requires clockInfo.suppressBlink && changingInfo.suppressBlink
      modifies this
      ensures Inv(State())
      ensures State() == ChangeStep(lib, old(State()))
    {
      ghost var s0 := State();
      if m == ChangeSecond {
        changingInfo := changingInfo.(dateTime := changingInfo.dateTime.(second := 0));
        secondFieldCleared := true;
        assert State() == s0.(changingInfo := changingInfo, secondFieldCleared := true);
      } else if m == ChangeTimeZoneName {
        zoneRegistryIndex := U16(zoneRegistryIndex + 1);
        if zoneRegistryIndex >= lib.registrySize {
          zoneRegistryIndex := 0;
        }
        var tz := lib.createForZoneIndex(zoneRegistryIndex);
        changingInfo := changingInfo.(timeZone := tz, dateTime := lib.convertToTimeZone(changingInfo.dateTime, tz));
        assert State() == s0.(changingInfo := changingInfo, zoneRegistryIndex := zoneRegistryIndex);
      } else {
        changingInfo := changingInfo.(dateTime := IncrementField(lib, m, changingInfo.dateTime));
        assert State() == s0.(changingInfo := changingInfo);
        assert ChangeStep(lib, s0) == s0.(changingInfo := changingInfo);
      }
    }

    /** A held button repeats the press, except on the date-time screen, where it would rewrite the EEPROM. */
    method HandleChangeButtonRepeatPress(nowSeconds: int, status: ClockStatus)
      requires Valid()
      modifies this
      ensures Valid()
      ensures old(clockInfo.mode) == ViewDateTime ==> State() == old(State())
      ensures old(clockInfo.mode) != ViewDateTime ==>
        State() == UpdateStep(lib, nowSeconds, status, ChangeStep(lib, old(State())))
    {
      if clockInfo.mode != ViewDateTime {
        HandleChangeButtonPress(nowSeconds, status);
      }
    }

    method HandleChangeButtonRelease()
      requires Valid()
      modifies this
      ensures Valid()
      ensures State() == ReleaseStep(old(State()))
    {
      if IsEdit(clockInfo.mode) {
        clockInfo := clockInfo.(suppressBlink := false);
        changingInfo := changingInfo.(suppressBlink := false);
      }
    }

    method UpdateDateTime(nowSeconds: int, status: ClockStatus)
      requires Valid()
      modifies this
      ensures Valid()
      ensures State() == DateTimeStep(lib, nowSeconds, status, old(State()))
    {
      clockInfo := clockInfo.(dateTime := lib.forEpochSeconds(nowSeconds, clockInfo.timeZone),
                              prevSync := status.secondsSinceSyncAttempt, nextSync := status.secondsToSyncAttempt,
                              clockSkew := status.clockSkew, syncStatusCode := status.syncStatusCode);
      if IsDateEdit(clockInfo.mode) && !secondFieldCleared {
        changingInfo := changingInfo.(dateTime := changingInfo.dateTime.(second := clockInfo.dateTime.second));
      }
    }

    method UpdatePresenter()
      modifies this
      ensures State() == PresenterStep(old(State()))
    {
      if EditsScratch(clockInfo.mode) {
        presented := changingInfo;
      } else {
        presented := clockInfo;
      }
    }

    /** saveDateTime: normalize the scratch date-time and set the clock to it. */
    method SaveDateTime()
      modifies this`changingInfo, this`clockWrites
      ensures State() == old(State()).(changingInfo := old(changingInfo).(dateTime := lib.normalize(old(changingInfo).dateTime)),
                                       clockWrites := old(clockWrites) + [lib.toEpochSeconds(lib.normalize(old(changingInfo).dateTime))])
    {
      changingInfo := changingInfo.(dateTime := lib.normalize(changingInfo.dateTime));
      clockWrites := clockWrites + [lib.toEpochSeconds(changingInfo.dateTime)];
    }

    /** saveChangingClockInfo: commit the scratch snapshot, then persist it. */
    method SaveChangingClockInfo()
      modifies this`clockInfo, this`storeWrites
      ensures State() == old(State()).(clockInfo := old(changingInfo),
                                       storeWrites := old(storeWrites) + [StoredOf(old(changingInfo))])
    {
      clockInfo := changingInfo;
      SaveClockInfo();
    }

    /** saveClockInfo: persist the committed snapshot's stored fields. */
    method SaveClockInfo()
      modifies this`storeWrites
      ensures State() == old(State()).(storeWrites := old(storeWrites) + [StoredOf(old(clockInfo))])
    {
      storeWrites := storeWrites + [StoredOf(clockInfo)];
    }

    method RestoreClockInfo(factoryReset: bool, read: StoreRead)
      requires Valid()
      requires !factoryReset && read.StoreOk? ==> 0 <= read.stored.hourMode < 256
      modifies this
      ensures Valid()
      ensures State() == RestoreStep(initialTimeZone, initialContrast, factoryReset, read, old(State()))
    {
      if !factoryReset && read.StoreOk? {
        clockInfo := WithStored(clockInfo, read.stored);
      } else {
        SetupClockInfo();
        SaveClockInfo();
      }
    }

    /** setupClockInfo: 24-hour mode, the initial zone and contrast, no inversion. */
    method SetupClockInfo()
      modifies this
      ensures State() == old(State()).(clockInfo := old(clockInfo).(hourMode := TwentyFour,
        timeZone := initialTimeZone, contrastLevel := initialContrast, invertDisplay := InvertOff))
    {
      clockInfo := clockInfo.(hourMode := TwentyFour, timeZone := initialTimeZone,
                              contrastLevel := initialContrast, invertDisplay := InvertOff);
    }
  }
}
