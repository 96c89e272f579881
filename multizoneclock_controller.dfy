/**
 * The Controller of MultiZoneClock (MultiZoneClock/Controller.h): a
 * ModeNavigator over a two-level tree of counted mode groups, a committed
 * ClockInfo of four zones and a scratch copy edited in the date-time and
 * zone-name edits, settings edits applied to the committed copy, a blink
 * timer, and the rendering info handed to the presenter.
 *
 * The clock's setNow() calls, the EEPROM writes of preserveClockInfo() and
 * the presenter's display() calls are kept as traces. The current epoch
 * seconds, the clock's sync readings and millis() are parameters of the
 * operations that read them; the mode tree, the zone registry and the year
 * range of the zone database are parameters of the controller.
 */
module MultiZoneClockController {
  import opened Widths
  import opened AceCommon
  import opened AceTime
  import opened ModeGroups
  import Blink
  import opened ZoneEdits
  import opened MultiZoneClockInfo

  /** LCD_INITIAL_CONTRAST and LCD_INITIAL_BIAS of the LCD builds. */
  const LcdInitialContrast := 20
  const LcdInitialBias := 7

  /** The controller's fields as one value; the class below keeps them in place. */
  datatype Ctl = Ctl(
    nav: Nav, clockInfo: ClockInfo, changingInfo: ClockInfo,
    currentZone: int, zoneRegistryIndex: int, secondFieldCleared: bool,
    suppressBlink: bool, blink: Blink.Timer,
    presented: RenderingInfo, displayCalls: seq<RenderingInfo>,
    clockWrites: seq<int>, storeWrites: seq<StoredInfo>)

  /** mNavigator.modeId(): the entry of the current group at the current index. */
  function NavModeId(n: Nav): int
  {
    if 0 <= n.index < |n.group.modes| then n.group.modes[n.index] else 0
  }

  /** The mode the controller is in: the navigator's identifier read as the build's enum. */
  function CurMode(lcd: bool, s: Ctl): Mode
  {
    ModeOf(lcd, NavModeId(s.nav))
  }

  /**
   * The navigation state can be walked, both snapshots hold four zones, the
   * uint8 and uint16 fields hold values of their width, and in a zone-name
   * edit mCurrentZone points at the zone of that edit.
   */
  ghost predicate Inv(root: ModeGroup, lcd: bool, s: Ctl)
  {
    FieldsOk(root, s) &&
    (CurMode(lcd, s).ChangeTimeZoneName? ==> s.currentZone == CurMode(lcd, s).zone)
  }

  /** Inv without the mCurrentZone part, which holds again once the entering action has run. */
  ghost predicate FieldsOk(root: ModeGroup, s: Ctl)
  {
    NavValid(root, Counted, s.nav) &&
    |s.clockInfo.zones| == NumZones && |s.changingInfo.zones| == NumZones &&
    0 <= s.clockInfo.hourMode < 256 && 0 <= s.changingInfo.hourMode < 256 &&
    0 <= s.zoneRegistryIndex < 65536 && 0 <= s.blink.cycleStartMillis < 65536
  }

  /** performEnteringModeAction: a zone-name edit points at its zone and looks up the zone's registry index. */
  function EnterModeAction(lib: TimeLib, lcd: bool, s: Ctl): (r: Ctl)
    requires |s.changingInfo.zones| == NumZones
    ensures CurMode(lcd, s).ChangeTimeZoneName? ==>
      r == s.(currentZone := CurMode(lcd, s).zone,
              zoneRegistryIndex := U16(lib.indexForZoneId(s.changingInfo.zones[CurMode(lcd, s).zone].zoneId)))
    ensures !CurMode(lcd, s).ChangeTimeZoneName? ==> r == s
  {
    match CurMode(lcd, s)
    case ChangeTimeZoneName(k) =>
      s.(currentZone := k, zoneRegistryIndex := U16(lib.indexForZoneId(s.changingInfo.zones[k].zoneId)))
    case _ => s
  }

  /**
   * handleModeButtonPress: the next sibling of the current group (wrapping
   * to the first), then the entering action of the new mode. Nothing is
   * committed, copied or persisted.
   */
  function ModePressStep(root: ModeGroup, lib: TimeLib, lcd: bool, s: Ctl): (r: Ctl)
    requires Inv(root, lcd, s)
    ensures Inv(root, lcd, r)
    ensures r.nav == ChangeModeCounted(root, s.nav)
    ensures r.nav.index == IncrementMod(s.nav.index, |s.nav.group.modes|) && r.nav.group == s.nav.group
    ensures CurMode(lcd, r).ChangeTimeZoneName? ==>
      r.zoneRegistryIndex == U16(lib.indexForZoneId(s.changingInfo.zones[CurMode(lcd, r).zone].zoneId))
    ensures r == s.(nav := r.nav, currentZone := r.currentZone, zoneRegistryIndex := r.zoneRegistryIndex)
  {
    EnterModeAction(lib, lcd, s.(nav := ChangeModeCounted(root, s.nav)))
  }

  /** saveDateTime: the scratch date-time is normalized in place and the clock set to it. */
  function SaveDateTimeStep(lib: TimeLib, s: Ctl): (r: Ctl)
    ensures r.clockWrites == s.clockWrites + [lib.toEpochSeconds(r.changingInfo.dateTime)]
    ensures r == s.(changingInfo := s.changingInfo.(dateTime := lib.normalize(s.changingInfo.dateTime)),
                    clockWrites := r.clockWrites)
  {
    var dt := lib.normalize(s.changingInfo.dateTime);
    s.(changingInfo := s.changingInfo.(dateTime := dt), clockWrites := s.clockWrites + [lib.toEpochSeconds(dt)])
  }

  /**
   * performLeavingModeGroupAction: a date-time edit sets the clock; a
   * zone-name edit commits the scratch snapshot and persists it; a settings
   * edit (and, in the LCD build too, ChangeInvertDisplay) persists the
   * committed snapshot.
   */
  function LeaveGroupAction(lib: TimeLib, lcd: bool, s: Ctl): (r: Ctl)
    ensures IsDateEdit(CurMode(lcd, s)) ==> r == SaveDateTimeStep(lib, s)
    ensures CurMode(lcd, s).ChangeTimeZoneName? ==>
      r == s.(clockInfo := s.changingInfo, storeWrites := s.storeWrites + [StoredOf(lcd, s.changingInfo)])
    ensures IsSettingsEdit(lcd, CurMode(lcd, s)) || CurMode(lcd, s) == ChangeInvertDisplay ==>
      r == s.(storeWrites := s.storeWrites + [StoredOf(lcd, s.clockInfo)])
    ensures (!EditsScratch(CurMode(lcd, s)) && !IsSettingsEdit(lcd, CurMode(lcd, s)) &&
             CurMode(lcd, s) != ChangeInvertDisplay) ==> r == s
  {
    var m := CurMode(lcd, s);
    if IsDateEdit(m) then SaveDateTimeStep(lib, s)
    else if m.ChangeTimeZoneName? then
      s.(clockInfo := s.changingInfo, storeWrites := s.storeWrites + [StoredOf(lcd, s.changingInfo)])
    else if IsSettingsEdit(lcd, m) || m == ChangeInvertDisplay then
      s.(storeWrites := s.storeWrites + [StoredOf(lcd, s.clockInfo)])
    else s
  }

  /**
   * performEnteringModeGroupAction: a date-time or zone-name edit starts
   * from a copy of the committed snapshot, with the second unlatched and an
   * unset time replaced by epoch 0 in its own zone.
   */
  function EnterGroupAction(lib: TimeLib, lcd: bool, s: Ctl): (r: Ctl)
    ensures EditsScratch(CurMode(lcd, s)) ==>
      r == s.(changingInfo := s.clockInfo.(dateTime := EpochZeroFallback(lib, s.clockInfo.dateTime)),
              secondFieldCleared := false)
    ensures !EditsScratch(CurMode(lcd, s)) ==> r == s
  {
    if EditsScratch(CurMode(lcd, s)) then
      s.(changingInfo := s.clockInfo.(dateTime := EpochZeroFallback(lib, s.clockInfo.dateTime)),
         secondFieldCleared := false)
    else s
  }

  /** mNavigator.changeGroup(), then the entering actions of the new group and mode. */
  function ChangeGroupAndEnter(root: ModeGroup, lib: TimeLib, lcd: bool, s: Ctl): (r: Ctl)
    requires FieldsOk(root, s)
    ensures Inv(root, lcd, r)
    ensures r.nav == ChangeGroup(root, Counted, s.nav)
    ensures EditsScratch(CurMode(lcd, r)) ==>
      r.changingInfo == s.clockInfo.(dateTime := EpochZeroFallback(lib, s.clockInfo.dateTime)) &&
      !r.secondFieldCleared
    ensures !EditsScratch(CurMode(lcd, r)) ==>
      r.changingInfo == s.changingInfo && r.secondFieldCleared == s.secondFieldCleared
    ensures CurMode(lcd, r).ChangeTimeZoneName? ==>
      r.zoneRegistryIndex == U16(lib.indexForZoneId(r.changingInfo.zones[CurMode(lcd, r).zone].zoneId))
    ensures r == s.(nav := r.nav, changingInfo := r.changingInfo, secondFieldCleared := r.secondFieldCleared,
                    currentZone := r.currentZone, zoneRegistryIndex := r.zoneRegistryIndex)
  {
    var t := s.(nav := ChangeGroup(root, Counted, s.nav));
    var u := EnterGroupAction(lib, lcd, t);
    EnterModeAction(lib, lcd, u)
  }

  /**
   * handleModeButtonLongPress: the leaving action of the group (set the
   * clock, commit the zones, or persist the settings), the change of group,
   * and the entering actions of the group and mode entered.
   */
  function LongPressStep(root: ModeGroup, lib: TimeLib, lcd: bool, s: Ctl): (r: Ctl)
    requires Inv(root, lcd, s)
    ensures Inv(root, lcd, r)
    ensures r.nav == ChangeGroup(root, Counted, s.nav)
    ensures IsDateEdit(CurMode(lcd, s)) ==>
      r.clockWrites == s.clockWrites + [lib.toEpochSeconds(lib.normalize(s.changingInfo.dateTime))] &&
      r.clockInfo == s.clockInfo && r.storeWrites == s.storeWrites
    ensures CurMode(lcd, s).ChangeTimeZoneName? ==>
      r.clockInfo == s.changingInfo && r.storeWrites == s.storeWrites + [StoredOf(lcd, s.changingInfo)] &&
      r.clockWrites == s.clockWrites
    ensures IsSettingsEdit(lcd, CurMode(lcd, s)) || CurMode(lcd, s) == ChangeInvertDisplay ==>
      r.clockInfo == s.clockInfo && r.storeWrites == s.storeWrites + [StoredOf(lcd, s.clockInfo)] &&
      r.clockWrites == s.clockWrites
    ensures (!EditsScratch(CurMode(lcd, s)) && !IsSettingsEdit(lcd, CurMode(lcd, s)) &&
             CurMode(lcd, s) != ChangeInvertDisplay) ==>
      r.clockInfo == s.clockInfo && r.clockWrites == s.clockWrites && r.storeWrites == s.storeWrites
    ensures EditsScratch(CurMode(lcd, r)) ==>
      r.changingInfo == r.clockInfo.(dateTime := EpochZeroFallback(lib, r.clockInfo.dateTime)) &&
      !r.secondFieldCleared
    ensures (r.suppressBlink, r.blink, r.presented, r.displayCalls) ==
            (s.suppressBlink, s.blink, s.presented, s.displayCalls)
  {
    var t := LeaveGroupAction(lib, lcd, s);
    ChangeGroupAndEnter(root, lib, lcd, t)
  }

  /**
   * Long-pressing into a group whose first mode is a date-time edit and
   * straight out again sets the clock to the committed time (epoch 0 if it
   * was unset), returns to the same top-level mode, and persists nothing.
   */
  lemma EnterAndLeaveDateEdit(root: ModeGroup, lib: TimeLib, lcd: bool, s: Ctl)
    requires Inv(root, lcd, s) && !s.nav.inChild && HasChildAt(root, s.nav.index)
    requires CurMode(lcd, s) in {ViewDateTime, ViewTimeZone, ViewSettings, ViewSysclock, ViewAbout}
    requires IsDateEdit(ModeOf(lcd, root.childGroups.slots[s.nav.index].group.modes[0]))
    ensures var r := LongPressStep(root, lib, lcd, LongPressStep(root, lib, lcd, s));
      r.nav == s.nav.(topLevelIndexSave := s.nav.index) &&
      r.clockWrites == s.clockWrites + [lib.toEpochSeconds(lib.normalize(EpochZeroFallback(lib, s.clockInfo.dateTime)))] &&
      r.clockInfo == s.clockInfo && r.storeWrites == s.storeWrites
  {
    var t := LongPressStep(root, lib, lcd, s);
    assert t.nav == Nav(root.childGroups.slots[s.nav.index].group, true, 0, s.nav.index);
    assert IsDateEdit(CurMode(lcd, t));
    assert t.changingInfo.dateTime == EpochZeroFallback(lib, s.clockInfo.dateTime);
    assert (t.clockInfo, t.clockWrites, t.storeWrites) == (s.clockInfo, s.clockWrites, s.storeWrites);
    ChangeGroupRoundTrip(root, Counted, s.nav);
  }

  /**
   * Long-pressing into a group whose first mode is a zone-name edit and
   * straight out again persists the committed zones and settings unchanged.
   */
  lemma EnterAndLeaveZoneEdit(root: ModeGroup, lib: TimeLib, lcd: bool, s: Ctl)
    requires Inv(root, lcd, s) && !s.nav.inChild && HasChildAt(root, s.nav.index)
    requires CurMode(lcd, s) in {ViewDateTime, ViewTimeZone, ViewSettings, ViewSysclock, ViewAbout}
    requires ModeOf(lcd, root.childGroups.slots[s.nav.index].group.modes[0]).ChangeTimeZoneName?
    ensures var r := LongPressStep(root, lib, lcd, LongPressStep(root, lib, lcd, s));
      r.nav == s.nav.(topLevelIndexSave := s.nav.index) &&
      r.clockInfo == s.clockInfo.(dateTime := EpochZeroFallback(lib, s.clockInfo.dateTime)) &&
      r.storeWrites == s.storeWrites + [StoredOf(lcd, s.clockInfo)] && r.clockWrites == s.clockWrites
  {
    var t := LongPressStep(root, lib, lcd, s);
    assert t.nav == Nav(root.childGroups.slots[s.nav.index].group, true, 0, s.nav.index);
    assert CurMode(lcd, t).ChangeTimeZoneName?;
    assert t.changingInfo == s.clockInfo.(dateTime := EpochZeroFallback(lib, s.clockInfo.dateTime));
    assert (t.clockInfo, t.clockWrites, t.storeWrites) == (s.clockInfo, s.clockWrites, s.storeWrites);
    assert StoredOf(lcd, t.changingInfo) == StoredOf(lcd, s.clockInfo);
    ChangeGroupRoundTrip(root, Counted, s.nav);
  }

  /**
   * handleModeButtonDoubleClick: in an edit mode, change group with no
   * leaving action, so nothing is committed or persisted; elsewhere, nothing.
   */
  function DoubleClickStep(root: ModeGroup, lib: TimeLib, lcd: bool, s: Ctl): (r: Ctl)
    requires Inv(root, lcd, s)
    ensures Inv(root, lcd, r)
    ensures IsEdit(lcd, CurMode(lcd, s)) ==>
      r.nav == ChangeGroup(root, Counted, s.nav) &&
      (r.clockInfo, r.clockWrites, r.storeWrites) == (s.clockInfo, s.clockWrites, s.storeWrites)
    ensures !IsEdit(lcd, CurMode(lcd, s)) ==> r == s
  {
    if IsEdit(lcd, CurMode(lcd, s)) then ChangeGroupAndEnter(root, lib, lcd, s) else s
  }

  /** The zoned_date_time_mutation increments of the month, day, hour and minute edits. */
  function IncrementField(lib: TimeLib, m: Mode, dt: ZonedDateTime): (r: ZonedDateTime)
    requires m in {ChangeMonth, ChangeDay, ChangeHour, ChangeMinute}
    ensures m == ChangeMonth ==> r == lib.incrementMonth(dt)
    ensures m == ChangeDay ==> r == lib.incrementDay(dt)
    ensures m == ChangeHour ==> r == lib.incrementHour(dt)
    ensures m == ChangeMinute ==> r == lib.incrementMinute(dt)
  {
    match m
    case ChangeMonth => lib.incrementMonth(dt)
    case ChangeDay => lib.incrementDay(dt)
    case ChangeHour => lib.incrementHour(dt)
    case ChangeMinute => lib.incrementMinute(dt)
  }

  /** The field a settings edit of a build changes. */
  function SettingValue(lcd: bool, m: Mode, c: ClockInfo): int
  {
    if lcd then
      (if m == ChangeSettingsBacklight then c.backlightLevel
       else if m == ChangeSettingsContrast then c.contrast
       else if m == ChangeSettingsBias then c.bias
       else 0)
    else
      (if m == ChangeSettingsContrast then c.contrastLevel
       else if m == ChangeInvertDisplay then c.invertDisplay
       else 0)
  }

  /** The modulus of each settings edit: backlight 10, contrast 128, bias 8 (LCD); contrast level 10, invert 3 (OLED). */
  function SettingModulus(lcd: bool, m: Mode): (n: int)
    ensures n > 0
  {
    if lcd then (if m == ChangeSettingsContrast then 128 else if m == ChangeSettingsBias then 8 else 10)
    else (if m == ChangeInvertDisplay then 3 else 10)
  }

  /** The settings edit of a press: incrementMod of the edited field, every other field kept. */
  function SettingsChange(lcd: bool, m: Mode, c: ClockInfo): (r: ClockInfo)
    requires IsSettingsEdit(lcd, m)
    ensures SettingValue(lcd, m, r) == IncrementMod(SettingValue(lcd, m, c), SettingModulus(lcd, m))
    ensures lcd && m == ChangeSettingsBacklight ==> r == c.(backlightLevel := r.backlightLevel)
    ensures lcd && m == ChangeSettingsContrast ==> r == c.(contrast := r.contrast)
    ensures lcd && m == ChangeSettingsBias ==> r == c.(bias := r.bias)
    ensures !lcd && m == ChangeSettingsContrast ==> r == c.(contrastLevel := r.contrastLevel)
    ensures !lcd && m == ChangeInvertDisplay ==> r == c.(invertDisplay := r.invertDisplay)
  {
    if lcd then
      (if m == ChangeSettingsBacklight then c.(backlightLevel := IncrementMod(c.backlightLevel, 10))
       else if m == ChangeSettingsContrast then c.(contrast := IncrementMod(c.contrast, 128))
       else c.(bias := IncrementMod(c.bias, 8)))
    else
      (if m == ChangeSettingsContrast then c.(contrastLevel := IncrementMod(c.contrastLevel, 10))
       else c.(invertDisplay := IncrementMod(c.invertDisplay, 3)))
  }

  /** The next zone of the registry in the edited position; zone 0 also re-expresses the scratch time in it. */
  function ZoneChange(lib: TimeLib, s: Ctl): (r: Ctl)
    requires 0 <= s.currentZone < |s.changingInfo.zones|
    ensures r.zoneRegistryIndex == NextRegistryIndex(s.zoneRegistryIndex, lib.registrySize)
    ensures r.changingInfo.zones == s.changingInfo.zones[s.currentZone := lib.createForZoneIndex(r.zoneRegistryIndex)]
    ensures r.changingInfo.dateTime ==
      (if s.currentZone == 0 then lib.convertToTimeZone(s.changingInfo.dateTime, r.changingInfo.zones[0])
       else s.changingInfo.dateTime)
    ensures r == s.(zoneRegistryIndex := r.zoneRegistryIndex, changingInfo := r.changingInfo)
  {
    var i := NextRegistryIndex(s.zoneRegistryIndex, lib.registrySize);
    var tz := lib.createForZoneIndex(i);
    var c := s.changingInfo.(zones := s.changingInfo.zones[s.currentZone := tz]);
    s.(zoneRegistryIndex := i,
       changingInfo := if s.currentZone == 0 then c.(dateTime := lib.convertToTimeZone(c.dateTime, tz)) else c)
  }

  /** An edit of the scratch snapshot keeps the invariant while it keeps the four zones and the navigation. */
  lemma ScratchEditKeepsInv(root: ModeGroup, lcd: bool, s: Ctl, r: Ctl)
    requires Inv(root, lcd, s) && |r.changingInfo.zones| == NumZones && 0 <= r.zoneRegistryIndex < 65536
    requires r == s.(suppressBlink := r.suppressBlink, changingInfo := r.changingInfo,
                     secondFieldCleared := r.secondFieldCleared, zoneRegistryIndex := r.zoneRegistryIndex)
    requires 0 <= r.changingInfo.hourMode < 256
    ensures Inv(root, lcd, r)
  {
  }

  /**
   * A date-time edit press: blinking is suppressed and one field of the
   * scratch time changes. The year wraps within the zone database's range;
   * the second is zeroed and latched; the other fields step as the time
   * library increments them.
   */
  function DateFieldChange(lib: TimeLib, startYear: int, untilYear: int, m: Mode, s: Ctl): (r: Ctl)
    requires IsDateEdit(m)
    ensures r == s.(suppressBlink := true, changingInfo := r.changingInfo, secondFieldCleared := r.secondFieldCleared)
    ensures r.changingInfo.zones == s.changingInfo.zones && r.changingInfo.hourMode == s.changingInfo.hourMode
    ensures m == ChangeYear ==>
      r.changingInfo == s.changingInfo.(dateTime := s.changingInfo.dateTime.(
        year := NextYear(s.changingInfo.dateTime.year, startYear, untilYear)))
    ensures m in {ChangeMonth, ChangeDay, ChangeHour, ChangeMinute} ==>
      r.changingInfo == s.changingInfo.(dateTime := IncrementField(lib, m, s.changingInfo.dateTime))
    ensures m == ChangeSecond ==>
      r.changingInfo == s.changingInfo.(dateTime := WithSecond(s.changingInfo.dateTime, 0)) && r.secondFieldCleared
    ensures m != ChangeSecond ==> r.secondFieldCleared == s.secondFieldCleared
  {
    var c := s.changingInfo;
    var dt := c.dateTime;
    if m == ChangeYear then
      s.(suppressBlink := true, changingInfo := c.(dateTime := dt.(year := NextYear(dt.year, startYear, untilYear))))
    else if m == ChangeSecond then
      s.(suppressBlink := true, changingInfo := c.(dateTime := dt.(second := 0)), secondFieldCleared := true)
    else
      s.(suppressBlink := true, changingInfo := c.(dateTime := IncrementField(lib, m, dt)))
  }

  /**
   * The switch of handleChangeButtonPress. On the date-time screen the 12/24
   * mode flips and is persisted. Every edit suppresses blinking. A date-time
   * edit changes one field of the scratch time (the year wraps within the
   * zone database's range; the second is zeroed and latched); a zone-name
   * edit selects the next registry zone for its position; a settings edit
   * steps its field of the committed snapshot. Other modes are left alone.
   */
  function ChangeStep(root: ModeGroup, lib: TimeLib, lcd: bool, startYear: int, untilYear: int, s: Ctl): (r: Ctl)
    requires Inv(root, lcd, s)
    ensures Inv(root, lcd, r)
    ensures r.nav == s.nav && (r.clockWrites, r.blink, r.presented, r.displayCalls) ==
                              (s.clockWrites, s.blink, s.presented, s.displayCalls)
    ensures CurMode(lcd, s) == ViewDateTime ==>
      r.clockInfo.hourMode % 2 != s.clockInfo.hourMode % 2 && r.clockInfo.hourMode / 2 == s.clockInfo.hourMode / 2 &&
      r.clockInfo == s.clockInfo.(hourMode := r.clockInfo.hourMode) &&
      r == s.(clockInfo := r.clockInfo, storeWrites := s.storeWrites + [StoredOf(lcd, r.clockInfo)])
    ensures IsEdit(lcd, CurMode(lcd, s)) ==> r.suppressBlink
    ensures EditsScratch(CurMode(lcd, s)) ==>
      r == s.(suppressBlink := true, changingInfo := r.changingInfo, secondFieldCleared := r.secondFieldCleared,
              zoneRegistryIndex := r.zoneRegistryIndex)
    ensures IsDateEdit(CurMode(lcd, s)) ==>
      r == DateFieldChange(lib, startYear, untilYear, CurMode(lcd, s), s)
    ensures CurMode(lcd, s).ChangeTimeZoneName? ==>
      r == ZoneChange(lib, s).(suppressBlink := true)
    ensures IsSettingsEdit(lcd, CurMode(lcd, s)) ==>
      r == s.(suppressBlink := true, clockInfo := SettingsChange(lcd, CurMode(lcd, s), s.clockInfo))
    ensures CurMode(lcd, s) != ViewDateTime && !IsEdit(lcd, CurMode(lcd, s)) ==> r == s
  {
    var m := CurMode(lcd, s);
    var c := s.changingInfo;
    var dt := c.dateTime;
    if m == ViewDateTime then
      var info := s.clockInfo.(hourMode := ToggleLowBit(s.clockInfo.hourMode));
      s.(clockInfo := info, storeWrites := s.storeWrites + [StoredOf(lcd, info)])
    else if IsDateEdit(m) then
      DateFieldChange(lib, startYear, untilYear, m, s)
    else if m.ChangeTimeZoneName? then
      ZoneChange(lib, s).(suppressBlink := true)
    else if IsSettingsEdit(lcd, m) then
      s.(suppressBlink := true, clockInfo := SettingsChange(lcd, m, s.clockInfo))
    else s
  }

  /** The settings edit applied k times, as k change presses in that edit apply it. */
  function SettingsChangeTimes(lcd: bool, m: Mode, c: ClockInfo, k: nat): ClockInfo
    requires IsSettingsEdit(lcd, m)
  {
    if k == 0 then c else SettingsChange(lcd, m, SettingsChangeTimes(lcd, m, c, k - 1))
  }

  /** k presses in a settings edit step its field k times around its modulus and keep the zones and the 12/24 mode. */
  lemma {:induction false} SettingsPresses(lcd: bool, m: Mode, c: ClockInfo, k: nat)
    requires IsSettingsEdit(lcd, m)
    ensures var r := SettingsChangeTimes(lcd, m, c, k);
      SettingValue(lcd, m, r) == IncrementModTimes(SettingValue(lcd, m, c), SettingModulus(lcd, m), k) &&
      r.zones == c.zones && r.hourMode == c.hourMode && r.dateTime == c.dateTime
  {
    if k > 0 {
      SettingsPresses(lcd, m, c, k - 1);
    }
  }

  /** As many presses as the modulus bring an in-range setting back to its value. */
  lemma SettingsEditPeriod(lcd: bool, m: Mode, c: ClockInfo)
    requires IsSettingsEdit(lcd, m) && 0 <= SettingValue(lcd, m, c) < SettingModulus(lcd, m)
    ensures SettingValue(lcd, m, SettingsChangeTimes(lcd, m, c, SettingModulus(lcd, m))) == SettingValue(lcd, m, c)
  {
    SettingsPresses(lcd, m, c, SettingModulus(lcd, m));
    IncrementModPeriod(SettingValue(lcd, m, c), SettingModulus(lcd, m));
  }

  /** Two presses on the date-time screen restore the 12/24 mode and persist it twice. */
  lemma HourModeTogglesBack(root: ModeGroup, lib: TimeLib, lcd: bool, startYear: int, untilYear: int, s: Ctl)
    requires Inv(root, lcd, s) && CurMode(lcd, s) == ViewDateTime
    ensures var r := ChangeStep(root, lib, lcd, startYear, untilYear, ChangeStep(root, lib, lcd, startYear, untilYear, s));
      r.clockInfo == s.clockInfo && |r.storeWrites| == |s.storeWrites| + 2 &&
      r.storeWrites[|s.storeWrites| + 1] == StoredOf(lcd, s.clockInfo)
  {
    var t := ChangeStep(root, lib, lcd, startYear, untilYear, s);
    ToggleLowBitInvolution(s.clockInfo.hourMode);
    assert ToggleLowBit(t.clockInfo.hourMode) == s.clockInfo.hourMode;
  }

  /** Within the database's range, the year edit never leaves it. */
  lemma YearEditStaysInRange(root: ModeGroup, lib: TimeLib, lcd: bool, startYear: int, untilYear: int, s: Ctl)
    requires Inv(root, lcd, s) && CurMode(lcd, s) == ChangeYear
    requires -32768 <= startYear <= s.changingInfo.dateTime.year < untilYear < 32768
    ensures var y := ChangeStep(root, lib, lcd, startYear, untilYear, s).changingInfo.dateTime.year;
      startYear <= y < untilYear &&
      y == IncrementModOffset(s.changingInfo.dateTime.year, untilYear - startYear, startYear)
  {
    NextYearIsIncrementModOffset(s.changingInfo.dateTime.year, startYear, untilYear);
  }

  /** handleChangeButtonRelease: leaving an edit's button lets its field blink again. */
  function ReleaseStep(lcd: bool, s: Ctl): (r: Ctl)
    ensures r.suppressBlink <==> s.suppressBlink && !IsEdit(lcd, CurMode(lcd, s))
    ensures r == s.(suppressBlink := r.suppressBlink)
  {
    if IsEdit(lcd, CurMode(lcd, s)) then s.(suppressBlink := false) else s
  }

  /** A press and a release in an edit leave blinking unsuppressed, whatever the press did. */
  lemma PressThenReleaseBlinks(root: ModeGroup, lib: TimeLib, lcd: bool, startYear: int, untilYear: int, s: Ctl)
    requires Inv(root, lcd, s) && IsEdit(lcd, CurMode(lcd, s))
    ensures !ReleaseStep(lcd, ChangeStep(root, lib, lcd, startYear, untilYear, s)).suppressBlink
  {
    assert ChangeStep(root, lib, lcd, startYear, untilYear, s).nav == s.nav;
  }

  /**
   * updateDateTime: the time of zone 0 and the sync readings from the
   * clock; in a date-time edit the scratch second follows the clock's until
   * the second has been zeroed.
   */
  function DateTimeStep(lib: TimeLib, lcd: bool, nowSeconds: int, status: ClockStatus, s: Ctl): (r: Ctl)
    requires |s.clockInfo.zones| == NumZones
    ensures r.clockInfo == s.clockInfo.(dateTime := lib.forEpochSeconds(nowSeconds, s.clockInfo.zones[0]),
      prevSync := status.secondsSinceSyncAttempt, nextSync := status.secondsToSyncAttempt,
      clockSkew := status.clockSkew, syncStatusCode := status.syncStatusCode)
    ensures IsDateEdit(CurMode(lcd, s)) && !s.secondFieldCleared ==>
      r.changingInfo.dateTime == WithSecond(s.changingInfo.dateTime, r.clockInfo.dateTime.second)
    ensures !(IsDateEdit(CurMode(lcd, s)) && !s.secondFieldCleared) ==> r.changingInfo == s.changingInfo
    ensures r == s.(clockInfo := r.clockInfo, changingInfo := r.changingInfo.(dateTime := r.changingInfo.dateTime))
    ensures r.changingInfo == s.changingInfo.(dateTime := r.changingInfo.dateTime)
  {
    var live := lib.forEpochSeconds(nowSeconds, s.clockInfo.zones[0]);
    var info := s.clockInfo.(dateTime := live,
      prevSync := status.secondsSinceSyncAttempt, nextSync := status.secondsToSyncAttempt,
      clockSkew := status.clockSkew, syncStatusCode := status.syncStatusCode);
    var c := if IsDateEdit(CurMode(lcd, s)) && !s.secondFieldCleared
             then s.changingInfo.(dateTime := s.changingInfo.dateTime.(second := live.second))
             else s.changingInfo;
    s.(clockInfo := info, changingInfo := c)
  }

  /** updateRenderingInfo: the scratch snapshot in the date-time and zone edits, the committed one elsewhere. */
  function RenderingOf(lcd: bool, s: Ctl): (r: RenderingInfo)
    ensures r.mode == CurMode(lcd, s)
    ensures r.blinkShowState <==> s.suppressBlink || s.blink.showState
    ensures r.clockInfo == (if EditsScratch(CurMode(lcd, s)) then s.changingInfo else s.clockInfo)
  {
    var m := CurMode(lcd, s);
    RenderingInfo(m, s.suppressBlink || s.blink.showState, if EditsScratch(m) then s.changingInfo else s.clockInfo)
  }

  /**
   * update(): nothing in the Unknown mode; otherwise the clock is read, the
   * blink timer advanced, the rendering info handed over and the display
   * asked to redraw.
   */
  function UpdateStep(lib: TimeLib, lcd: bool, nowSeconds: int, status: ClockStatus, nowMillis: int, s: Ctl): (r: Ctl)
    requires |s.clockInfo.zones| == NumZones
    ensures CurMode(lcd, s) == Unknown ==> r == s
    ensures CurMode(lcd, s) != Unknown ==>
      var t := DateTimeStep(lib, lcd, nowSeconds, status, s).(blink := Blink.Update(s.blink, nowMillis));
      r == t.(presented := RenderingOf(lcd, t), displayCalls := s.displayCalls + [RenderingOf(lcd, t)])
    ensures forall root :: Inv(root, lcd, s) ==> Inv(root, lcd, r)
    ensures r.nav == s.nav && r.storeWrites == s.storeWrites && r.clockWrites == s.clockWrites
  {
    if CurMode(lcd, s) == Unknown then s
    else
      var t := DateTimeStep(lib, lcd, nowSeconds, status, s).(blink := Blink.Update(s.blink, nowMillis));
      t.(presented := RenderingOf(lcd, t), displayCalls := s.displayCalls + [RenderingOf(lcd, t)])
  }

  /** While a field's button is held, the presenter is told to show it, whatever the blink phase. */
  lemma SuppressedFieldIsShown(lib: TimeLib, lcd: bool, nowSeconds: int, status: ClockStatus, nowMillis: int, s: Ctl)
    requires |s.clockInfo.zones| == NumZones && s.suppressBlink && CurMode(lcd, s) != Unknown
    ensures UpdateStep(lib, lcd, nowSeconds, status, nowMillis, s).presented.blinkShowState
  {
  }

  /**
   * In a date-time edit the presented second is the clock's, until the
   * second edit zeroes it; from then on it stays 0 through every update.
   */
  lemma PresentedSecond(root: ModeGroup, lib: TimeLib, lcd: bool, startYear: int, untilYear: int,
                        nowSeconds: int, status: ClockStatus, nowMillis: int, s: Ctl)
    requires Inv(root, lcd, s) && IsDateEdit(CurMode(lcd, s))
    ensures !s.secondFieldCleared ==>
      UpdateStep(lib, lcd, nowSeconds, status, nowMillis, s).presented.clockInfo.dateTime.second ==
      lib.forEpochSeconds(nowSeconds, s.clockInfo.zones[0]).second
    ensures CurMode(lcd, s) == ChangeSecond ==>
      var t := ChangeStep(root, lib, lcd, startYear, untilYear, s);
      UpdateStep(lib, lcd, nowSeconds, status, nowMillis, t).presented.clockInfo.dateTime.second == 0
  {
    if CurMode(lcd, s) == ChangeSecond {
      var t := ChangeStep(root, lib, lcd, startYear, untilYear, s);
      assert t.secondFieldCleared && t.nav == s.nav && t.changingInfo.dateTime.second == 0;
    }
  }

  /** setupClockInfo: 24-hour mode, the configured zones, and the build's initial settings. */
  function DefaultInfo(lcd: bool, displayZones: seq<TimeZone>, oledInitialContrast: int, c: ClockInfo): (r: ClockInfo)
    ensures r.hourMode == TwentyFour && r.zones == displayZones
    ensures lcd ==> r == c.(hourMode := TwentyFour, zones := displayZones,
                            backlightLevel := 0, contrast := LcdInitialContrast, bias := LcdInitialBias)
    ensures !lcd ==> r == c.(hourMode := TwentyFour, zones := displayZones,
                             contrastLevel := oledInitialContrast, invertDisplay := InvertOff)
  {
    if lcd then
      c.(hourMode := TwentyFour, zones := displayZones,
         backlightLevel := 0, contrast := LcdInitialContrast, bias := LcdInitialBias)
    else
      c.(hourMode := TwentyFour, zones := displayZones,
         contrastLevel := oledInitialContrast, invertDisplay := InvertOff)
  }

  /**
   * restoreClockInfo: a valid record (no factory reset requested) is loaded;
   * otherwise the defaults are set up and written to the store.
   */
  function RestoreStep(root: ModeGroup, lcd: bool, displayZones: seq<TimeZone>, oledInitialContrast: int,
                       factoryReset: bool, read: StoreRead, s: Ctl): (r: Ctl)
    requires Inv(root, lcd, s) && |displayZones| == NumZones
    requires read.StoreOk? ==> 0 <= read.stored.hourMode < 256 && |read.stored.zones| == NumZones
    ensures Inv(root, lcd, r)
    ensures !factoryReset && read.StoreOk? ==>
      r == s.(clockInfo := WithStored(lcd, s.clockInfo, read.stored))
    ensures factoryReset || read.StoreBad? ==>
      r.clockInfo == DefaultInfo(lcd, displayZones, oledInitialContrast, s.clockInfo) &&
      r == s.(clockInfo := r.clockInfo, storeWrites := s.storeWrites + [StoredOf(lcd, r.clockInfo)])
  {
    if !factoryReset && read.StoreOk? then
      s.(clockInfo := WithStored(lcd, s.clockInfo, read.stored))
    else
      var info := DefaultInfo(lcd, displayZones, oledInitialContrast, s.clockInfo);
      s.(clockInfo := info, storeWrites := s.storeWrites + [StoredOf(lcd, info)])
  }

  /** The defaults written by a factory reset are what the next restore loads. */
  lemma ResetThenRestore(root: ModeGroup, lcd: bool, displayZones: seq<TimeZone>, oledInitialContrast: int,
                         read: StoreRead, s: Ctl)
    requires Inv(root, lcd, s) && |displayZones| == NumZones
    requires read.StoreOk? ==> 0 <= read.stored.hourMode < 256 && |read.stored.zones| == NumZones
    ensures var r := RestoreStep(root, lcd, displayZones, oledInitialContrast, true, read, s);
      var u := RestoreStep(root, lcd, displayZones, oledInitialContrast, false, StoreOk(r.storeWrites[|r.storeWrites| - 1]), r);
      u.clockInfo == r.clockInfo
  {
    var r := RestoreStep(root, lcd, displayZones, oledInitialContrast, true, read, s);
    StoredRoundTrip(lcd, r.clockInfo);
  }

  /** The state after construction: the root group's first mode, default snapshots, nothing written. */
  function InitialCtl(root: ModeGroup): Ctl
  {
    Ctl(Initial(root), ZeroClockInfo, ZeroClockInfo, -1, 0, false, false, Blink.Timer(true, 0),
        ZeroRenderingInfo, [], [], [])
  }

  class Controller {
    const root: ModeGroup
    const lib: TimeLib
    const lcd: bool
    /** mDisplayZones: the zones set up by a factory reset. */
    const displayZones: seq<TimeZone>
    /** The year range of the zone database (kZoneContext.startYear and untilYear). */
    const startYear: int
    const untilYear: int
    /** OLED_INITIAL_CONTRAST, which the OLED build's config leaves to the build. */
    const oledInitialContrast: int

    /** mNavigator, whose changeMode() and changeGroup() are ModeGroups' counted layout. */
    var navigator: Nav
    var clockInfo: ClockInfo
    var changingInfo: ClockInfo
    /** The position in changingInfo.zones that mCurrentZone points at; -1 for nullptr. */
    var currentZone: int
    var zoneRegistryIndex: int
    var secondFieldCleared: bool
    var suppressBlink: bool
    var blinkShowState: bool
    var blinkCycleStartMillis: int
    /** The RenderingInfo last handed to the presenter's setRenderingInfo(). */
    var presented: RenderingInfo
    /** The presenter's display() calls, each with the RenderingInfo it then held. */
    var displayCalls: seq<RenderingInfo>
    /** The clock's setNow() calls, in epoch seconds. */
    var clockWrites: seq<int>
    /** The records written to the EEPROM. */
    var storeWrites: seq<StoredInfo>

    function State(): Ctl
      reads this
    {
      Ctl(navigator, clockInfo, changingInfo, currentZone, zoneRegistryIndex, secondFieldCleared,
          suppressBlink, Blink.Timer(blinkShowState, blinkCycleStartMillis),
          presented, displayCalls, clockWrites, storeWrites)
    }

    ghost predicate Valid()
      reads this
    {
      Inv(root, lcd, State()) && |displayZones| == NumZones
    }

    constructor (rootModeGroup: ModeGroup, lib: TimeLib, lcd: bool, displayZones: seq<TimeZone>,
                 startYear: int, untilYear: int, oledInitialContrast: int)
      requires WellFormed(rootModeGroup, Counted) && |displayZones| == NumZones
      requires !ModeOf(lcd, rootModeGroup.modes[0]).ChangeTimeZoneName?
      ensures Valid()
      ensures (root, this.lib, this.lcd, this.displayZones) == (rootModeGroup, lib, lcd, displayZones)
      ensures (this.startYear, this.untilYear, this.oledInitialContrast) == (startYear, untilYear, oledInitialContrast)
      ensures State() == InitialCtl(rootModeGroup)
    {
      root := rootModeGroup;
      this.lib := lib;
      this.lcd := lcd;
      this.displayZones := displayZones;
      this.startYear := startYear;
      this.untilYear := untilYear;
      this.oledInitialContrast := oledInitialContrast;
      navigator := Initial(rootModeGroup);
      clockInfo := ZeroClockInfo;
      changingInfo := ZeroClockInfo;
      currentZone := -1;
      zoneRegistryIndex := 0;
      secondFieldCleared := false;
      suppressBlink := false;
      blinkShowState := true;
      blinkCycleStartMillis := 0;
      presented := ZeroRenderingInfo;
      displayCalls := [];
      clockWrites := [];
      storeWrites := [];
    }

    /** setup: restore the stored info (or the defaults), then read the time. */
    method Setup(factoryReset: bool, read: StoreRead, nowSeconds: int, status: ClockStatus)
      requires Valid()
      requires read.StoreOk? ==> 0 <= read.stored.hourMode < 256 && |read.stored.zones| == NumZones
      modifies this
      ensures Valid()
      ensures State() == DateTimeStep(lib, lcd, nowSeconds, status,
        RestoreStep(root, lcd, displayZones, oledInitialContrast, factoryReset, read, old(State())))
    {
      RestoreClockInfo(factoryReset, read);
      UpdateDateTime(nowSeconds, status);
    }

    /** update: called every 0.1 s from the loop. */
    method Update(nowSeconds: int, status: ClockStatus, nowMillis: int)
      requires Valid()
      modifies this
      ensures Valid()
      ensures State() == UpdateStep(lib, lcd, nowSeconds, status, nowMillis, old(State()))
    {
      if ModeOf(lcd, NavModeId(navigator)) == Unknown {
        return;
      }
      UpdateDateTime(nowSeconds, status);
      UpdateBlinkState(nowMillis);
      UpdateRenderingInfo();
      displayCalls := displayCalls + [presented];
    }

    method HandleModeButtonPress()
      requires Valid()
      modifies this
      ensures Valid()
      ensures State() == ModePressStep(root, lib, lcd, old(State()))
    {
      navigator := ChangeModeCounted(root, navigator);
      PerformEnteringModeAction();
    }

    method PerformEnteringModeAction()
      requires FieldsOk(root, State())
      modifies this
      ensures State() == EnterModeAction(lib, lcd, old(State()))
    {
      var m := ModeOf(lcd, NavModeId(navigator));
      if m.ChangeTimeZoneName? {
        currentZone := m.zone;
        zoneRegistryIndex := U16(lib.indexForZoneId(changingInfo.zones[m.zone].zoneId));
      }
    }

    method HandleModeButtonLongPress()
      requires Valid()
      modifies this
      ensures Valid()
      ensures State() == LongPressStep(root, lib, lcd, old(State()))
    {
      PerformLeavingModeGroupAction();
      ChangeGroupAndEnterActions();
    }

    /** mNavigator.changeGroup(), performEnteringModeGroupAction(), performEnteringModeAction(). */
    method ChangeGroupAndEnterActions()
      requires FieldsOk(root, State()) && |displayZones| == NumZones
      modifies this
      ensures Valid()
      ensures State() == ChangeGroupAndEnter(root, lib, lcd, old(State()))
    {
      navigator := ChangeGroup(root, Counted, navigator);
      PerformEnteringModeGroupAction();
      PerformEnteringModeAction();
    }

    /** Exit an edit throwing away its changes; nothing outside the edits. */
    method HandleModeButtonDoubleClick()
      requires Valid()
      modifies this
      ensures Valid()
      ensures State() == DoubleClickStep(root, lib, lcd, old(State()))
    {
      if IsEdit(lcd, ModeOf(lcd, NavModeId(navigator))) {
        ChangeGroupAndEnterActions();
      }
    }

    method PerformEnteringModeGroupAction()
      requires FieldsOk(root, State())
      modifies this
      ensures FieldsOk(root, State())
      ensures State() == EnterGroupAction(lib, lcd, old(State()))
    {
      if EditsScratch(ModeOf(lcd, NavModeId(navigator))) {
        changingInfo := clockInfo;
        changingInfo := changingInfo.(dateTime := EpochZeroFallback(lib, changingInfo.dateTime));
        secondFieldCleared := false;
      }
    }

    method PerformLeavingModeGroupAction()
      requires Valid()
      modifies this
      ensures FieldsOk(root, State())
      ensures State() == LeaveGroupAction(lib, lcd, old(State()))
    {
      var m := ModeOf(lcd, NavModeId(navigator));
      if IsDateEdit(m) {
        SaveDateTime();
      } else if m.ChangeTimeZoneName? {
        SaveClockInfo();
      } else if IsSettingsEdit(lcd, m) || m == ChangeInvertDisplay {
        PreserveClockInfo(clockInfo);
      }
    }

    /** The press, then update(). */
    method HandleChangeButtonPress(nowSeconds: int, status: ClockStatus, nowMillis: int)
      requires Valid()
      modifies this
      ensures Valid()
      ensures State() == UpdateStep(lib, lcd, nowSeconds, status, nowMillis,
        ChangeStep(root, lib, lcd, startYear, untilYear, old(State())))
    {
      ApplyChange();
      Update(nowSeconds, status, nowMillis);
    }

    /** The switch of handleChangeButtonPress. */
    method ApplyChange()
      requires Valid()
      modifies this
      ensures Valid()
      ensures State() == ChangeStep(root, lib, lcd, startYear, untilYear, old(State()))
    {
      var m := ModeOf(lcd, NavModeId(navigator));
      if m == ViewDateTime {
        clockInfo := clockInfo.(hourMode := ToggleLowBit(clockInfo.hourMode));
        PreserveClockInfo(clockInfo);
      } else if IsDateEdit(m) {
        ChangeDateTimeField(m);
      } else if m.ChangeTimeZoneName? {
        ChangeZoneName(m.zone);
      } else if IsSettingsEdit(lcd, m) {
        suppressBlink := true;
        clockInfo := SettingsChange(lcd, m, clockInfo);
      }
    }

    /** The date-time edits of handleChangeButtonPress, on the scratch snapshot. */
    method ChangeDateTimeField(m: Mode)
      requires Valid() && IsDateEdit(m)
      modifies this`suppressBlink, this`changingInfo, this`secondFieldCleared
      ensures Valid()
      ensures State() == DateFieldChange(lib, startYear, untilYear, m, old(State()))
    {
      ghost var s0 := State();
      var c := changingInfo;
      var cleared := secondFieldCleared;
      if m == ChangeYear {
        c := c.(dateTime := c.dateTime.(year := NextYear(c.dateTime.year, startYear, untilYear)));
      } else if m == ChangeSecond {
        c := c.(dateTime := c.dateTime.(second := 0));
        cleared := true;
      } else {
        c := c.(dateTime := IncrementField(lib, m, c.dateTime));
      }
      assert DateFieldChange(lib, startYear, untilYear, m, s0) ==
             s0.(suppressBlink := true, changingInfo := c, secondFieldCleared := cleared);
      ScratchEditKeepsInv(root, lcd, s0, DateFieldChange(lib, startYear, untilYear, m, s0));
      suppressBlink := true;
      changingInfo := c;
      secondFieldCleared := cleared;
    }

    /** The zone-name edit of handleChangeButtonPress: the next registry zone at mCurrentZone. */
    method ChangeZoneName(k: int)
      requires Valid() && currentZone == k && 0 <= k < NumZones
      modifies this`suppressBlink, this`zoneRegistryIndex, this`changingInfo
      ensures Valid()
      ensures State() == ZoneChange(lib, old(State())).(suppressBlink := true)
    {
      ghost var s0 := State();
      var i := U16(zoneRegistryIndex + 1);
      if i >= lib.registrySize {
        i := 0;
      }
      var tz := lib.createForZoneIndex(i);
      var c := changingInfo.(zones := changingInfo.zones[currentZone := tz]);
      if k == 0 {
        c := c.(dateTime := lib.convertToTimeZone(c.dateTime, tz));
      }
      assert ZoneChange(lib, s0) == s0.(zoneRegistryIndex := i, changingInfo := c);
      ScratchEditKeepsInv(root, lcd, s0, ZoneChange(lib, s0).(suppressBlink := true));
      suppressBlink := true;
      zoneRegistryIndex := i;
      changingInfo := c;
      assert State() == ZoneChange(lib, s0).(suppressBlink := true);
    }

    /** Repeated presses while the button is held; ignored on the date-time screen. */
    method HandleChangeButtonRepeatPress(nowSeconds: int, status: ClockStatus, nowMillis: int)
      requires Valid()
      modifies this
      ensures Valid()
      ensures CurMode(lcd, old(State())) == ViewDateTime ==> State() == old(State())
      ensures CurMode(lcd, old(State())) != ViewDateTime ==>
        State() == UpdateStep(lib, lcd, nowSeconds, status, nowMillis,
          ChangeStep(root, lib, lcd, startYear, untilYear, old(State())))
    {
      if ModeOf(lcd, NavModeId(navigator)) != ViewDateTime {
        HandleChangeButtonPress(nowSeconds, status, nowMillis);
      }
    }

    method HandleChangeButtonRelease()
      requires Valid()
      modifies this
      ensures Valid()
      ensures State() == ReleaseStep(lcd, old(State()))
    {
      if IsEdit(lcd, ModeOf(lcd, NavModeId(navigator))) {
        suppressBlink := false;
      }
    }

    method UpdateDateTime(nowSeconds: int, status: ClockStatus)
      requires Valid()
      modifies this
      ensures Valid()
      ensures State() == DateTimeStep(lib, lcd, nowSeconds, status, old(State()))
    {
      clockInfo := clockInfo.(dateTime := lib.forEpochSeconds(nowSeconds, clockInfo.zones[0]));
      clockInfo := clockInfo.(prevSync := status.secondsSinceSyncAttempt, nextSync := status.secondsToSyncAttempt);
      clockInfo := clockInfo.(clockSkew := status.clockSkew, syncStatusCode := status.syncStatusCode);
      if IsDateEdit(ModeOf(lcd, NavModeId(navigator))) && !secondFieldCleared {
        changingInfo := changingInfo.(dateTime := changingInfo.dateTime.(second := clockInfo.dateTime.second));
      }
    }

    method UpdateBlinkState(nowMillis: int)
      requires Valid()
      modifies this
      ensures Valid()
      ensures State() == old(State()).(blink := Blink.Update(old(State()).blink, nowMillis))
    {
      var now := U16(nowMillis);
      var duration := U16(now - blinkCycleStartMillis);
      if duration < 500 {
        blinkShowState := true;
      } else if duration < 1000 {
        blinkShowState := false;
      } else {
        blinkCycleStartMillis := now;
      }
    }

    method UpdateRenderingInfo()
      requires Valid()
      modifies this
      ensures Valid()
      ensures State() == old(State()).(presented := RenderingOf(lcd, old(State())))
    {
      var m := ModeOf(lcd, NavModeId(navigator));
      var info := if EditsScratch(m) then changingInfo else clockInfo;
      presented := RenderingInfo(m, suppressBlink || blinkShowState, info);
    }

    method SaveDateTime()
      modifies this
      ensures State() == SaveDateTimeStep(lib, old(State()))
    {
      changingInfo := changingInfo.(dateTime := lib.normalize(changingInfo.dateTime));
      clockWrites := clockWrites + [lib.toEpochSeconds(changingInfo.dateTime)];
    }

    method SaveClockInfo()
      modifies this
      ensures State() == old(State()).(clockInfo := old(changingInfo),
                                       storeWrites := old(storeWrites) + [StoredOf(lcd, old(changingInfo))])
    {
      clockInfo := changingInfo;
      PreserveClockInfo(clockInfo);
    }

    method PreserveClockInfo(info: ClockInfo)
      modifies this
      ensures State() == old(State()).(storeWrites := old(storeWrites) + [StoredOf(lcd, info)])
    {
      storeWrites := storeWrites + [StoredOf(lcd, info)];
    }

    method RestoreClockInfo(factoryReset: bool, read: StoreRead)
      requires Valid()
      requires read.StoreOk? ==> 0 <= read.stored.hourMode < 256 && |read.stored.zones| == NumZones
      modifies this
      ensures Valid()
      ensures State() == RestoreStep(root, lcd, displayZones, oledInitialContrast, factoryReset, read, old(State()))
    {
      if !factoryReset && read.StoreOk? {
        clockInfo := WithStored(lcd, clockInfo, read.stored);
      } else {
        SetupClockInfo();
        PreserveClockInfo(clockInfo);
      }
    }

    method SetupClockInfo()
      requires Valid()
      modifies this
      ensures Valid()
      ensures State() == old(State()).(clockInfo := DefaultInfo(lcd, displayZones, oledInitialContrast, old(clockInfo)))
    {
      clockInfo := clockInfo.(hourMode := TwentyFour, zones := displayZones);
      if lcd {
        clockInfo := clockInfo.(backlightLevel := 0, contrast := LcdInitialContrast, bias := LcdInitialBias);
      } else {
        clockInfo := clockInfo.(contrastLevel := oledInitialContrast, invertDisplay := InvertOff);
      }
    }
  }
}
