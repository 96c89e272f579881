/**
 * The Controller of WorldClockLcd (WorldClockLcd/Controller.h): a
 * zero-terminated two-level mode tree walked with two buttons, a committed
 * ClockInfo of four zones and a scratch copy edited in the date-time and
 * zone-name modes, settings edited in place and pushed to the display at
 * once, a blink timer, and the snapshot handed to the Presenter.
 *
 * The clock's setNow() calls, the EEPROM writes, the presenter's
 * setBrightness/setContrast/setBias calls and its display() calls are kept
 * as traces. The current epoch seconds and millis() are parameters of the
 * operations that read them; the zone database's year range and the
 * backlight and contrast tables (defined outside Controller.h) are part of
 * the configuration.
 */
module WorldClockLcdController {
  import opened Widths
  import opened AceCommon
  import opened AceTime
  import opened ModeGroups
  import Blink
  import opened Display
  import TextScreens
  import opened WorldClockLcdInfo
  import opened ZoneEdits

  /** LCD_INITIAL_CONTRAST and LCD_INITIAL_BIAS of the LCD builds. */
  const LcdInitialContrast := 20
  const LcdInitialBias := 7
  /** The OLED's factory contrast level. */
  const OledInitialContrastLevel := 5

  /**
   * The build and the values the controller is given: the display type, the
   * zone database's [startYear, untilYear), the kBacklightValues and
   * kContrastValues tables, and the factory zones (mDisplayZones).
   */
  datatype Config = Config(
    lcd: bool, startYear: int, untilYear: int,
    backlightValues: seq<int>, contrastValues: seq<int>, displayZones: seq<TimeZone>)

  predicate ConfigOk(cfg: Config)
  {
    |cfg.backlightValues| == 10 && |cfg.contrastValues| == 10 && |cfg.displayZones| == NumZones
  }

  /** The controller's fields as one value; the class below keeps them in place. */
  datatype Ctl = Ctl(
    nav: Nav, mode: int,
    clockInfo: ClockInfo, changingInfo: ClockInfo,
    currentZone: int, zoneRegistryIndex: int, secondFieldCleared: bool,
    suppressBlink: bool, blink: Blink.Timer, isPreparingToSleep: bool,
    presented: Handover, displayCalls: seq<Handover>, settingCalls: seq<Op>,
    clockWrites: seq<int>, storeWrites: seq<StoredInfo>)

  predicate Byte(x: int)
  {
    0 <= x < 256
  }

  /** The uint8 fields of a snapshot hold bytes, and it has its four zones. */
  predicate InfoOk(c: ClockInfo)
  {
    |c.zones| == NumZones && Byte(c.hourMode) &&
    Byte(c.backlightLevel) && Byte(c.contrast) && Byte(c.bias) && Byte(c.contrastLevel)
  }

  /**
   * The navigation state can be walked, the mode is the entry it points at
   * (or the initial MODE_DATE_TIME before the first move), both snapshots are
   * well formed, the uint16 fields hold their width, and in a zone-name edit
   * mCurrentZone points at the scratch zone of that edit.
   */
  ghost predicate Inv(root: ModeGroup, s: Ctl)
  {
    NavValid(root, ZeroTerminated, s.nav) &&
    (s.mode == CurrentMode(s.nav) || (s.nav == Initial(root) && s.mode == ModeDateTime)) &&
    InfoOk(s.clockInfo) && InfoOk(s.changingInfo) &&
    0 <= s.zoneRegistryIndex < 65536 && 0 <= s.blink.cycleStartMillis < 65536 &&
    (IsZoneEdit(s.mode) ==> s.currentZone == s.mode - ModeChangeTimeZone0Name)
  }

  /** changeSiblingMode: the next entry of the group, or its first one at the 0 entry. */
  function SiblingStep(root: ModeGroup, s: Ctl): (r: Ctl)
    requires Inv(root, s)
    ensures NavValid(root, ZeroTerminated, r.nav) && r.mode == CurrentMode(r.nav) && r.mode != ModeUnknown
    ensures r.nav.index == IncrementMod(s.nav.index, NumModes(s.nav.group, ZeroTerminated))
    ensures r == s.(nav := r.nav, mode := r.mode)
  {
    var n := ChangeSibling(root, s.nav);
    ChangeSiblingIsIncrementMod(root, s.nav);
    ChangeSiblingNeverSentinel(root, s.nav);
    s.(nav := n, mode := CurrentMode(n))
  }

  /** performEnteringModeAction: a zone-name edit points at its scratch zone and looks up its registry index. */
  function EnterModeAction(lib: TimeLib, s: Ctl): (r: Ctl)
    requires |s.changingInfo.zones| == NumZones
    ensures IsZoneEdit(s.mode) ==>
      r.currentZone == s.mode - ModeChangeTimeZone0Name &&
      r.zoneRegistryIndex == U16(lib.indexForZoneId(s.changingInfo.zones[r.currentZone].zoneId))
    ensures r == s.(currentZone := r.currentZone, zoneRegistryIndex := r.zoneRegistryIndex)
    ensures !IsZoneEdit(s.mode) ==> r == s
  {
    if IsZoneEdit(s.mode) then
      var k := s.mode - ModeChangeTimeZone0Name;
      s.(currentZone := k, zoneRegistryIndex := U16(lib.indexForZoneId(s.changingInfo.zones[k].zoneId)))
    else s
  }

  /** handleModeButtonPress: the next sibling mode; no snapshot, flag or trace changes. */
  function ModePressStep(root: ModeGroup, lib: TimeLib, s: Ctl): (r: Ctl)
    requires Inv(root, s)
    ensures Inv(root, r) && r.mode == CurrentMode(r.nav) && r.mode != ModeUnknown
    ensures r.nav.index == IncrementMod(s.nav.index, NumModes(s.nav.group, ZeroTerminated))
    ensures r.nav.(index := s.nav.index) == s.nav
    ensures r == s.(nav := r.nav, mode := r.mode, currentZone := r.currentZone, zoneRegistryIndex := r.zoneRegistryIndex)
  {
    EnterModeAction(lib, SiblingStep(root, s))
  }

  /**
   * performLeavingModeGroupAction: leaving a date-time edit sets the clock,
   * leaving a zone-name edit commits the scratch snapshot and persists it,
   * leaving a settings edit persists the committed snapshot.
   */
  function LeaveGroupAction(lib: TimeLib, lcd: bool, s: Ctl): (r: Ctl)
    ensures IsDateTimeEdit(s.mode) ==>
      r == s.(clockWrites := s.clockWrites + [lib.toEpochSeconds(s.changingInfo.dateTime)])
    ensures IsZoneEdit(s.mode) ==>
      r == s.(clockInfo := s.changingInfo, storeWrites := s.storeWrites + [StoredOf(lcd, s.changingInfo)])
    ensures IsSettingsEdit(lcd, s.mode) ==>
      r == s.(storeWrites := s.storeWrites + [StoredOf(lcd, s.clockInfo)])
    ensures !IsEdit(lcd, s.mode) ==> r == s
  {
    if IsDateTimeEdit(s.mode) then
      s.(clockWrites := s.clockWrites + [lib.toEpochSeconds(s.changingInfo.dateTime)])
    else if IsZoneEdit(s.mode) then
      s.(clockInfo := s.changingInfo, storeWrites := s.storeWrites + [StoredOf(lcd, s.changingInfo)])
    else if IsSettingsEdit(lcd, s.mode) then
      s.(storeWrites := s.storeWrites + [StoredOf(lcd, s.clockInfo)])
    else s
  }

  /** changeModeGroup followed by re-reading mMode. */
  function GroupStep(root: ModeGroup, s: Ctl): (r: Ctl)
    requires NavValid(root, ZeroTerminated, s.nav)
    ensures NavValid(root, ZeroTerminated, r.nav) && r.mode == CurrentMode(r.nav)
    ensures r == s.(nav := ChangeGroup(root, ZeroTerminated, s.nav), mode := r.mode)
  {
    var n := ChangeGroup(root, ZeroTerminated, s.nav);
    s.(nav := n, mode := CurrentMode(n))
  }

  /** performEnteringModeGroupAction: a date-time or zone-name edit starts from a copy of the committed snapshot. */
  function EnterGroupAction(s: Ctl): (r: Ctl)
    ensures EditsScratch(s.mode) ==> r == s.(changingInfo := s.clockInfo, secondFieldCleared := false)
    ensures !EditsScratch(s.mode) ==> r == s
  {
    if EditsScratch(s.mode) then s.(changingInfo := s.clockInfo, secondFieldCleared := false) else s
  }

  /** handleModeButtonLongPress: leave the group's edits, change group, and enter the new mode and group. */
  function LongPressStep(root: ModeGroup, lib: TimeLib, lcd: bool, s: Ctl): (r: Ctl)
    requires Inv(root, s)
    ensures Inv(root, r) && r.mode == CurrentMode(r.nav)
    ensures r.nav == ChangeGroup(root, ZeroTerminated, s.nav)
  {
    var t := LeaveGroupAction(lib, lcd, s);
    assert t.nav == s.nav && InfoOk(t.clockInfo) && InfoOk(t.changingInfo) && t.zoneRegistryIndex == s.zoneRegistryIndex;
    var u := GroupStep(root, t);
    var v := EnterGroupAction(u);
    assert v.nav == u.nav && v.mode == u.mode && InfoOk(v.changingInfo) && v.blink == s.blink;
    EnterModeAction(lib, v)
  }

  /**
   * What a long press commits: the edits of the group it leaves are saved
   * (the clock set, or the snapshot persisted), and the group it enters
   * starts from a fresh copy of the committed snapshot.
   */
  lemma LongPressCommits(root: ModeGroup, lib: TimeLib, lcd: bool, s: Ctl)
    requires Inv(root, s)
    ensures var r := LongPressStep(root, lib, lcd, s);
      (IsDateTimeEdit(s.mode) ==>
         r.clockWrites == s.clockWrites + [lib.toEpochSeconds(s.changingInfo.dateTime)] &&
         r.storeWrites == s.storeWrites && r.clockInfo == s.clockInfo) &&
      (IsZoneEdit(s.mode) ==>
         r.clockInfo == s.changingInfo && r.storeWrites == s.storeWrites + [StoredOf(lcd, s.changingInfo)] &&
         r.clockWrites == s.clockWrites) &&
      (IsSettingsEdit(lcd, s.mode) ==>
         r.clockInfo == s.clockInfo && r.storeWrites == s.storeWrites + [StoredOf(lcd, s.clockInfo)] &&
         r.clockWrites == s.clockWrites) &&
      (!IsEdit(lcd, s.mode) ==>
         r.clockInfo == s.clockInfo && r.clockWrites == s.clockWrites && r.storeWrites == s.storeWrites) &&
      (EditsScratch(r.mode) ==> r.changingInfo == r.clockInfo && !r.secondFieldCleared) &&
      (!EditsScratch(r.mode) ==> r.changingInfo == s.changingInfo && r.secondFieldCleared == s.secondFieldCleared) &&
      (r.suppressBlink, r.blink, r.presented, r.displayCalls, r.settingCalls) ==
      (s.suppressBlink, s.blink, s.presented, s.displayCalls, s.settingCalls)
  {
    var t := LeaveGroupAction(lib, lcd, s);
    var u := GroupStep(root, t);
    var v := EnterGroupAction(u);
    assert LongPressStep(root, lib, lcd, s) == EnterModeAction(lib, v);
  }

  /**
   * A long press into a date-time edit group and a long press out again,
   * with no edit between them, sets the clock to the committed date-time and
   * comes back to the same top-level mode.
   */
  lemma EnterAndLeaveDateEdit(root: ModeGroup, lib: TimeLib, lcd: bool, s: Ctl)
    requires Inv(root, s) && !s.nav.inChild && HasChildAt(root, s.nav.index) && !IsEdit(lcd, s.mode)
    requires IsDateTimeEdit(root.childGroups.slots[s.nav.index].group.modes[0])
    ensures var r := LongPressStep(root, lib, lcd, LongPressStep(root, lib, lcd, s));
      r.nav == s.nav.(topLevelIndexSave := s.nav.index) &&
      r.clockWrites == s.clockWrites + [lib.toEpochSeconds(s.clockInfo.dateTime)] &&
      r.clockInfo == s.clockInfo && r.storeWrites == s.storeWrites
  {
    var t := LongPressStep(root, lib, lcd, s);
    LongPressCommits(root, lib, lcd, s);
    LongPressCommits(root, lib, lcd, t);
    assert t.nav == Nav(root.childGroups.slots[s.nav.index].group, true, 0, s.nav.index);
    assert IsDateTimeEdit(t.mode) && t.changingInfo == s.clockInfo;
    ChangeGroupRoundTrip(root, ZeroTerminated, s.nav);
  }

  /**
   * A long press into a zone-name edit group and out again, with no edit
   * between them, leaves the committed snapshot as it was and persists it.
   */
  lemma EnterAndLeaveZoneEdit(root: ModeGroup, lib: TimeLib, lcd: bool, s: Ctl)
    requires Inv(root, s) && !s.nav.inChild && HasChildAt(root, s.nav.index) && !IsEdit(lcd, s.mode)
    requires IsZoneEdit(root.childGroups.slots[s.nav.index].group.modes[0])
    ensures var r := LongPressStep(root, lib, lcd, LongPressStep(root, lib, lcd, s));
      r.nav == s.nav.(topLevelIndexSave := s.nav.index) &&
      r.clockInfo == s.clockInfo && r.storeWrites == s.storeWrites + [StoredOf(lcd, s.clockInfo)] &&
      r.clockWrites == s.clockWrites
  {
    var t := LongPressStep(root, lib, lcd, s);
    LongPressCommits(root, lib, lcd, s);
    LongPressCommits(root, lib, lcd, t);
    assert t.nav == Nav(root.childGroups.slots[s.nav.index].group, true, 0, s.nav.index);
    assert IsZoneEdit(t.mode) && t.changingInfo == s.clockInfo;
    ChangeGroupRoundTrip(root, ZeroTerminated, s.nav);
  }

  /** The zoned_date_time_mutation step of a date-time edit other than the second; the year stays in the database's range. */
  function DateTimeChange(lib: TimeLib, cfg: Config, m: int, dt: ZonedDateTime): (r: ZonedDateTime)
    requires ModeChangeYear <= m <= ModeChangeMinute
    ensures m == ModeChangeYear ==> r == dt.(year := NextYear(dt.year, cfg.startYear, cfg.untilYear))
    ensures m == ModeChangeMonth ==> r == lib.incrementMonth(dt)
    ensures m == ModeChangeDay ==> r == lib.incrementDay(dt)
    ensures m == ModeChangeHour ==> r == lib.incrementHour(dt)
    ensures m == ModeChangeMinute ==> r == lib.incrementMinute(dt)
  {
    if m == ModeChangeYear then dt.(year := NextYear(dt.year, cfg.startYear, cfg.untilYear))
    else if m == ModeChangeMonth then lib.incrementMonth(dt)
    else if m == ModeChangeDay then lib.incrementDay(dt)
    else if m == ModeChangeHour then lib.incrementHour(dt)
    else lib.incrementMinute(dt)
  }

  /** The field a settings edit of a build changes. */
  function SettingValue(lcd: bool, m: int, c: ClockInfo): int
  {
    if lcd then
      (if m == ModeChangeSettingsBacklight then c.backlightLevel
       else if m == ModeChangeSettingsLcdContrast then c.contrast
       else if m == ModeChangeSettingsBias then c.bias
       else 0)
    else if m == ModeChangeSettingsOledContrast then c.contrastLevel
    else 0
  }

  /** The modulus of each settings edit: backlight 10, contrast 128, bias 8 (LCD); contrast level 10 (OLED). */
  function SettingModulus(lcd: bool, m: int): (n: int)
    ensures n > 0
  {
    if lcd && m == ModeChangeSettingsLcdContrast then 128
    else if lcd && m == ModeChangeSettingsBias then 8
    else 10
  }

  /** The settings edit of a press: incrementMod of the edited field, every other field kept. */
  function SettingsChange(lcd: bool, m: int, c: ClockInfo): (r: ClockInfo)
    requires IsSettingsEdit(lcd, m)
    ensures SettingValue(lcd, m, r) == IncrementMod(SettingValue(lcd, m, c), SettingModulus(lcd, m))
    ensures lcd && m == ModeChangeSettingsBacklight ==> r == c.(backlightLevel := r.backlightLevel)
    ensures lcd && m == ModeChangeSettingsLcdContrast ==> r == c.(contrast := r.contrast)
    ensures lcd && m == ModeChangeSettingsBias ==> r == c.(bias := r.bias)
    ensures !lcd ==> r == c.(contrastLevel := r.contrastLevel)
  {
    if lcd then
      (if m == ModeChangeSettingsBacklight then c.(backlightLevel := IncrementMod(c.backlightLevel, 10))
       else if m == ModeChangeSettingsLcdContrast then c.(contrast := IncrementMod(c.contrast, 128))
       else c.(bias := IncrementMod(c.bias, 8)))
    else c.(contrastLevel := IncrementMod(c.contrastLevel, 10))
  }

  /** getBacklightValue: the PWM value of a level; the pin is active low, so 1023 less the table entry. */
  function BacklightValue(cfg: Config, level: int): (v: int)
    requires ConfigOk(cfg) && Byte(level)
    ensures v == 1023 - cfg.backlightValues[if level > 9 then 9 else level]
  {
    TextScreens.BacklightValue(cfg.backlightValues, level)
  }

  /** getContrastValue: the table entry of a contrast level, levels above 9 read as 9. */
  function ContrastValue(cfg: Config, level: int): (v: int)
    requires ConfigOk(cfg) && Byte(level)
    ensures v == cfg.contrastValues[if level > 9 then 9 else level]
  {
    TextScreens.ContrastValue(cfg.contrastValues, level)
  }

  /**
   * updateBacklight, updateLcdContrast, updateBias and updateContrast: the
   * presenter call that pushes one setting of the committed snapshot.
   */
  function SettingPush(cfg: Config, m: int, c: ClockInfo): Op
    requires ConfigOk(cfg) && InfoOk(c)
  {
    if !cfg.lcd then SetContrast(ContrastValue(cfg, c.contrastLevel))
    else if m == ModeChangeSettingsBacklight then SetBacklight(BacklightValue(cfg, c.backlightLevel))
    else if m == ModeChangeSettingsLcdContrast then SetContrast(c.contrast)
    else SetBias(c.bias)
  }

  /** The next zone of the registry in the edited position; zone 0 also re-expresses the scratch time in it. */
  function ZoneChange(lib: TimeLib, s: Ctl): (r: Ctl)
    requires 0 <= s.currentZone < |s.changingInfo.zones|
    ensures 0 <= r.zoneRegistryIndex < 65536 && |r.changingInfo.zones| == |s.changingInfo.zones|
    ensures r.changingInfo == s.changingInfo.(zones := r.changingInfo.zones, dateTime := r.changingInfo.dateTime)
    ensures r == s.(zoneRegistryIndex := r.zoneRegistryIndex, changingInfo := r.changingInfo)
  {
    var i := NextRegistryIndex(s.zoneRegistryIndex, lib.registrySize);
    var tz := lib.createForZoneIndex(i);
    var c := s.changingInfo.(zones := s.changingInfo.zones[s.currentZone := tz]);
    s.(zoneRegistryIndex := i,
       changingInfo := if s.currentZone == 0 then c.(dateTime := lib.convertToTimeZone(c.dateTime, tz)) else c)
  }

  /** The press on the date-time screen: the 12/24 mode flips and is persisted. */
  function HourModePress(lcd: bool, s: Ctl): (r: Ctl)
    requires InfoOk(s.clockInfo)
    ensures InfoOk(r.clockInfo)
  {
    var info := s.clockInfo.(hourMode := ToggleLowBit(s.clockInfo.hourMode));
    s.(clockInfo := info, storeWrites := s.storeWrites + [StoredOf(lcd, info)])
  }

  /** A press in a date-time edit: one field of the scratch time changes; the second is zeroed and latched. */
  function DateFieldPress(lib: TimeLib, cfg: Config, s: Ctl): (r: Ctl)
    requires IsDateTimeEdit(s.mode)
  {
    var c := s.changingInfo;
    if s.mode == ModeChangeSecond then
      s.(suppressBlink := true, changingInfo := c.(dateTime := c.dateTime.(second := 0)), secondFieldCleared := true)
    else
      s.(suppressBlink := true, changingInfo := c.(dateTime := DateTimeChange(lib, cfg, s.mode, c.dateTime)))
  }

  /** A press in a settings edit: the field steps and its new value is pushed to the display. */
  function SettingsPress(cfg: Config, s: Ctl): (r: Ctl)
    requires IsSettingsEdit(cfg.lcd, s.mode) && ConfigOk(cfg) && InfoOk(s.clockInfo)
    ensures InfoOk(r.clockInfo)
  {
    var info := SettingsChange(cfg.lcd, s.mode, s.clockInfo);
    assert InfoOk(info) by {
      assert SettingValue(cfg.lcd, s.mode, info) < SettingModulus(cfg.lcd, s.mode) <= 128;
    }
    s.(suppressBlink := true, clockInfo := info, settingCalls := s.settingCalls + [SettingPush(cfg, s.mode, info)])
  }

  /** The switch of handleChangeButtonPress; what each case does is stated by ChangePressEffects. */
  function ChangeStep(root: ModeGroup, lib: TimeLib, cfg: Config, s: Ctl): (r: Ctl)
    requires Inv(root, s) && ConfigOk(cfg)
    ensures Inv(root, r)
    ensures (r.nav, r.mode, r.clockWrites, r.blink, r.isPreparingToSleep, r.presented, r.displayCalls) ==
            (s.nav, s.mode, s.clockWrites, s.blink, s.isPreparingToSleep, s.presented, s.displayCalls)
  {
    var m := s.mode;
    if m == ModeDateTime then HourModePress(cfg.lcd, s)
    else if IsDateTimeEdit(m) then DateFieldPress(lib, cfg, s)
    else if IsZoneEdit(m) then ZoneChange(lib, s).(suppressBlink := true)
    else if IsSettingsEdit(cfg.lcd, m) then SettingsPress(cfg, s)
    else s
  }

  /**
   * What a change press does. On the date-time screen the 12/24 mode flips
   * and is persisted. Every edit suppresses blinking. A date-time edit
   * changes one field of the scratch time (the second is zeroed and
   * latched); a zone-name edit selects the next registry zone for its
   * position; a settings edit steps its field of the committed snapshot and
   * pushes it to the display. Other modes are left alone.
   */
  lemma ChangePressEffects(root: ModeGroup, lib: TimeLib, cfg: Config, s: Ctl)
    requires Inv(root, s) && ConfigOk(cfg)
    ensures var r := ChangeStep(root, lib, cfg, s);
      (s.mode == ModeDateTime ==>
         r.clockInfo.hourMode % 2 != s.clockInfo.hourMode % 2 && r.clockInfo.hourMode / 2 == s.clockInfo.hourMode / 2 &&
         r.clockInfo == s.clockInfo.(hourMode := r.clockInfo.hourMode) &&
         r == s.(clockInfo := r.clockInfo, storeWrites := s.storeWrites + [StoredOf(cfg.lcd, r.clockInfo)])) &&
      (IsEdit(cfg.lcd, s.mode) ==> r.suppressBlink) &&
      (EditsScratch(s.mode) ==>
         r == s.(suppressBlink := true, changingInfo := r.changingInfo, secondFieldCleared := r.secondFieldCleared,
                 zoneRegistryIndex := r.zoneRegistryIndex)) &&
      (ModeChangeYear <= s.mode <= ModeChangeMinute ==>
         r.changingInfo == s.changingInfo.(dateTime := DateTimeChange(lib, cfg, s.mode, s.changingInfo.dateTime)) &&
         r.secondFieldCleared == s.secondFieldCleared && r.zoneRegistryIndex == s.zoneRegistryIndex) &&
      (s.mode == ModeChangeSecond ==>
         r.changingInfo == s.changingInfo.(dateTime := WithSecond(s.changingInfo.dateTime, 0)) &&
         r.secondFieldCleared && r.zoneRegistryIndex == s.zoneRegistryIndex) &&
      (IsZoneEdit(s.mode) ==> r == ZoneChange(lib, s).(suppressBlink := true)) &&
      (IsSettingsEdit(cfg.lcd, s.mode) ==>
         r.clockInfo == SettingsChange(cfg.lcd, s.mode, s.clockInfo) &&
         r == s.(suppressBlink := true, clockInfo := r.clockInfo,
                 settingCalls := s.settingCalls + [SettingPush(cfg, s.mode, r.clockInfo)])) &&
      (s.mode != ModeDateTime && !IsEdit(cfg.lcd, s.mode) ==> r == s)
  {
  }

  /**
   * A press in the edit of zone k selects the next zone of the registry
   * (wrapping to the first) for position k only; editing zone 0 also
   * re-expresses the scratch time in the new zone, since the displayed time
   * is kept in zone 0.
   */
  lemma ZonePressSelectsNextZone(root: ModeGroup, lib: TimeLib, cfg: Config, s: Ctl)
    requires Inv(root, s) && ConfigOk(cfg) && IsZoneEdit(s.mode)
    requires 0 <= s.zoneRegistryIndex < lib.registrySize <= 65536
    ensures var r := ChangeStep(root, lib, cfg, s);
      var k := s.mode - ModeChangeTimeZone0Name;
      r.zoneRegistryIndex == IncrementMod(s.zoneRegistryIndex, lib.registrySize) &&
      r.changingInfo.zones[k] == lib.createForZoneIndex(r.zoneRegistryIndex) &&
      (forall j :: 0 <= j < NumZones && j != k ==> r.changingInfo.zones[j] == s.changingInfo.zones[j]) &&
      r.changingInfo.dateTime ==
        (if k == 0 then lib.convertToTimeZone(s.changingInfo.dateTime, r.changingInfo.zones[0])
         else s.changingInfo.dateTime) &&
      r.clockInfo == s.clockInfo && r.storeWrites == s.storeWrites
  {
    ChangePressEffects(root, lib, cfg, s);
  }

  /** Two presses on the date-time screen restore the 12/24 mode and persist it twice. */
  lemma HourModeTogglesBack(root: ModeGroup, lib: TimeLib, cfg: Config, s: Ctl)
    requires Inv(root, s) && ConfigOk(cfg) && s.mode == ModeDateTime
    ensures var r := ChangeStep(root, lib, cfg, ChangeStep(root, lib, cfg, s));
      r.clockInfo == s.clockInfo && |r.storeWrites| == |s.storeWrites| + 2 &&
      r.storeWrites[|s.storeWrites| + 1] == StoredOf(cfg.lcd, s.clockInfo)
  {
    var t := ChangeStep(root, lib, cfg, s);
    ToggleLowBitInvolution(s.clockInfo.hourMode);
    assert ToggleLowBit(t.clockInfo.hourMode) == s.clockInfo.hourMode;
  }

  /**
   * A press on the LCD's backlight edit pushes the PWM value of the new
   * level at once: the next brighter table entry, or the dimmest after
   * level 9.
   */
  lemma BacklightPressPushesNewLevel(root: ModeGroup, lib: TimeLib, cfg: Config, s: Ctl)
    requires Inv(root, s) && ConfigOk(cfg) && cfg.lcd && s.mode == ModeChangeSettingsBacklight
    requires s.clockInfo.backlightLevel < 10
    ensures var r := ChangeStep(root, lib, cfg, s);
      var level := IncrementMod(s.clockInfo.backlightLevel, 10);
      r.clockInfo.backlightLevel == level &&
      r.settingCalls == s.settingCalls + [SetBacklight(1023 - cfg.backlightValues[level])]
  {
    var r := ChangeStep(root, lib, cfg, s);
    assert SettingValue(cfg.lcd, s.mode, r.clockInfo) == r.clockInfo.backlightLevel;
  }

  /** A year edit inside the zone database's range stays inside it, wrapping from the last year to the first. */
  lemma YearEditStaysInRange(root: ModeGroup, lib: TimeLib, cfg: Config, s: Ctl)
    requires Inv(root, s) && ConfigOk(cfg) && s.mode == ModeChangeYear
    requires -32768 <= cfg.startYear <= s.changingInfo.dateTime.year < cfg.untilYear < 32768
    ensures var y := ChangeStep(root, lib, cfg, s).changingInfo.dateTime.year;
      cfg.startYear <= y < cfg.untilYear &&
      y == IncrementModOffset(s.changingInfo.dateTime.year, cfg.untilYear - cfg.startYear, cfg.startYear)
  {
    NextYearIsIncrementModOffset(s.changingInfo.dateTime.year, cfg.startYear, cfg.untilYear);
  }

  /** handleChangeButtonRelease: the edit modes stop suppressing the blink; nothing else changes. */
  function ReleaseStep(lcd: bool, s: Ctl): (r: Ctl)
    ensures r.suppressBlink <==> s.suppressBlink && !IsEdit(lcd, s.mode)
    ensures r == s.(suppressBlink := r.suppressBlink)
  {
    if IsEdit(lcd, s.mode) then s.(suppressBlink := false) else s
  }

  /** A change press in an edit followed by its release leaves blinking on, whatever the flag was before. */
  lemma PressThenReleaseBlinks(root: ModeGroup, lib: TimeLib, cfg: Config, s: Ctl)
    requires Inv(root, s) && ConfigOk(cfg) && IsEdit(cfg.lcd, s.mode)
    ensures !ReleaseStep(cfg.lcd, ChangeStep(root, lib, cfg, s)).suppressBlink
  {
  }

  /** updateDateTime: the live time in zone 0; the unlatched scratch second of a date-time edit follows it. */
  function DateTimeStep(lib: TimeLib, nowSeconds: int, s: Ctl): (r: Ctl)
    requires |s.clockInfo.zones| == NumZones
    ensures r.clockInfo == s.clockInfo.(dateTime := lib.forEpochSeconds(nowSeconds, s.clockInfo.zones[0]))
    ensures IsDateTimeEdit(s.mode) && !s.secondFieldCleared ==>
      r.changingInfo == s.changingInfo.(dateTime := WithSecond(s.changingInfo.dateTime, r.clockInfo.dateTime.second))
    ensures !IsDateTimeEdit(s.mode) || s.secondFieldCleared ==> r.changingInfo == s.changingInfo
    ensures r == s.(clockInfo := r.clockInfo, changingInfo := r.changingInfo)
  {
    var live := lib.forEpochSeconds(nowSeconds, s.clockInfo.zones[0]);
    var c := s.changingInfo;
    s.(clockInfo := s.clockInfo.(dateTime := live),
       changingInfo := if IsDateTimeEdit(s.mode) && !s.secondFieldCleared
                       then c.(dateTime := c.dateTime.(second := live.second)) else c)
  }

  /** Reading the clock keeps the invariant. */
  lemma DateTimeKeepsInv(root: ModeGroup, lib: TimeLib, nowSeconds: int, s: Ctl)
    requires Inv(root, s)
    ensures Inv(root, DateTimeStep(lib, nowSeconds, s))
  {
  }

  /** updateRenderingInfo: the scratch snapshot in the date-time and zone-name edits, the committed one otherwise. */
  function RenderStep(s: Ctl): (r: Ctl)
    ensures r.presented.clockInfo == (if EditsScratch(s.mode) then s.changingInfo else s.clockInfo)
    ensures r.presented == Handover(s.mode, s.suppressBlink, s.blink.showState, r.presented.clockInfo)
    ensures r == s.(presented := r.presented)
  {
    s.(presented := Handover(s.mode, s.suppressBlink, s.blink.showState,
                             if EditsScratch(s.mode) then s.changingInfo else s.clockInfo))
  }

  /**
   * update: nothing in MODE_UNKNOWN or while preparing to sleep; otherwise
   * read the time, run the blink timer, hand the presenter the snapshot of
   * the mode, and call display().
   */
  function UpdateStep(lib: TimeLib, nowSeconds: int, nowMillis: int, s: Ctl): (r: Ctl)
    requires |s.clockInfo.zones| == NumZones
    ensures s.mode == ModeUnknown || s.isPreparingToSleep ==> r == s
    ensures s.mode != ModeUnknown && !s.isPreparingToSleep ==>
      var t := DateTimeStep(lib, nowSeconds, s);
      r.blink == Blink.Update(s.blink, nowMillis) &&
      r.presented == Handover(s.mode, s.suppressBlink, r.blink.showState,
                              if EditsScratch(s.mode) then t.changingInfo else t.clockInfo) &&
      r == t.(blink := r.blink, presented := r.presented, displayCalls := s.displayCalls + [r.presented])
  {
    if s.mode == ModeUnknown || s.isPreparingToSleep then s
    else
      var t := RenderStep(DateTimeStep(lib, nowSeconds, s).(blink := Blink.Update(s.blink, nowMillis)));
      t.(displayCalls := t.displayCalls + [t.presented])
  }

  /** update keeps the invariant: the time and the blink timer change, the navigation and the snapshots' shapes do not. */
  lemma UpdateKeepsInv(root: ModeGroup, lib: TimeLib, nowSeconds: int, nowMillis: int, s: Ctl)
    requires Inv(root, s)
    ensures Inv(root, UpdateStep(lib, nowSeconds, nowMillis, s))
  {
    Blink.StartStaysInRange(s.blink, nowMillis);
  }

  /** While a change button is held in an edit, every field shows whatever the blink phase: the handover carries the suppression. */
  lemma HeldButtonSuppressesBlink(root: ModeGroup, lib: TimeLib, cfg: Config, nowSeconds: int, nowMillis: int, s: Ctl)
    requires Inv(root, s) && ConfigOk(cfg) && IsEdit(cfg.lcd, s.mode) && !s.isPreparingToSleep
    ensures UpdateStep(lib, nowSeconds, nowMillis, ChangeStep(root, lib, cfg, s)).presented.suppressBlink
  {
  }

  /** setupClockInfo: the factory snapshot: 24-hour mode, the display zones, and the build's initial settings. */
  function FactoryInfo(cfg: Config, c: ClockInfo): (r: ClockInfo)
    requires ConfigOk(cfg)
    ensures InfoOk(c) ==> InfoOk(r)
    ensures r.hourMode == TwentyFour && r.zones == cfg.displayZones && r.dateTime == c.dateTime
    ensures cfg.lcd ==> (r.backlightLevel, r.contrast, r.bias, r.contrastLevel) ==
                        (0, LcdInitialContrast, LcdInitialBias, c.contrastLevel)
    ensures !cfg.lcd ==> (r.backlightLevel, r.contrast, r.bias, r.contrastLevel) ==
                         (c.backlightLevel, c.contrast, c.bias, OledInitialContrastLevel)
  {
    if cfg.lcd then
      c.(hourMode := TwentyFour, zones := cfg.displayZones,
         backlightLevel := 0, contrast := LcdInitialContrast, bias := LcdInitialBias)
    else c.(hourMode := TwentyFour, zones := cfg.displayZones, contrastLevel := OledInitialContrastLevel)
  }

  /** A record as the EEPROM holds it: uint8 fields and NUM_TIME_ZONES zones. */
  predicate StoredOk(b: StoredInfo)
  {
    |b.zones| == NumZones && Byte(b.hourMode) &&
    Byte(b.backlightLevel) && Byte(b.contrast) && Byte(b.bias) && Byte(b.contrastLevel)
  }

  /**
   * restoreClockInfo: a factory reset installs and persists the factory
   * snapshot. Otherwise the record read from the EEPROM is used whether or
   * not its CRC matched: the read's result is overwritten with true, so the
   * buffer (bad or not) is restored and nothing is persisted.
   */
  function RestoreStep(cfg: Config, factoryReset: bool, buffer: StoredInfo, s: Ctl): (r: Ctl)
    requires ConfigOk(cfg)
    ensures InfoOk(s.clockInfo) && StoredOk(buffer) ==> InfoOk(r.clockInfo)
    ensures !factoryReset ==> r == s.(clockInfo := WithStored(cfg.lcd, s.clockInfo, buffer))
    ensures factoryReset ==>
      r.clockInfo == FactoryInfo(cfg, s.clockInfo) &&
      r == s.(clockInfo := r.clockInfo, storeWrites := s.storeWrites + [StoredOf(cfg.lcd, r.clockInfo)])
  {
    if !factoryReset then s.(clockInfo := WithStored(cfg.lcd, s.clockInfo, buffer))
    else
      var info := FactoryInfo(cfg, s.clockInfo);
      s.(clockInfo := info, storeWrites := s.storeWrites + [StoredOf(cfg.lcd, info)])
  }

  /** A factory reset followed by a normal restart restores the factory snapshot from the record it persisted. */
  lemma ResetThenRestore(cfg: Config, s: Ctl)
    requires ConfigOk(cfg)
    ensures var t := RestoreStep(cfg, true, StoredInfo(0, 0, 0, 0, 0, []), s);
      RestoreStep(cfg, false, t.storeWrites[|t.storeWrites| - 1], t).clockInfo == t.clockInfo
  {
    var t := RestoreStep(cfg, true, StoredInfo(0, 0, 0, 0, 0, []), s);
    StoredRoundTrip(cfg.lcd, t.clockInfo);
  }

  /** setup: after the restore, the settings of the build are pushed to the display. */
  function SetupPushes(cfg: Config, c: ClockInfo): (ops: seq<Op>)
    requires ConfigOk(cfg) && InfoOk(c)
    ensures cfg.lcd ==> ops == [SettingPush(cfg, ModeChangeSettingsBacklight, c),
                                SettingPush(cfg, ModeChangeSettingsLcdContrast, c),
                                SettingPush(cfg, ModeChangeSettingsBias, c)]
    ensures !cfg.lcd ==> ops == [SettingPush(cfg, ModeChangeSettingsOledContrast, c)]
  {
    if cfg.lcd then
      [SetBacklight(BacklightValue(cfg, c.backlightLevel)), SetContrast(c.contrast), SetBias(c.bias)]
    else [SetContrast(ContrastValue(cfg, c.contrastLevel))]
  }

  /** The state after construction. */
  function InitialCtl(root: ModeGroup): Ctl
  {
    Ctl(Initial(root), ModeDateTime, ZeroClockInfo, ZeroClockInfo, -1, 0, false,
        false, Blink.Timer(true, 0), false, ZeroHandover, [], [], [], [])
  }

  class Controller {
    const root: ModeGroup
    const lib: TimeLib
    const cfg: Config

    var currentModeGroup: ModeGroup
    /** True when currentModeGroup has a parentGroup (the root). */
    var inChild: bool
    var topLevelIndexSave: int
    var currentModeIndex: int
    var mode: int
    var clockInfo: ClockInfo
    var changingInfo: ClockInfo
    /** The scratch zone mCurrentZone points at, or -1 for nullptr. */
    var currentZone: int
    var zoneRegistryIndex: int
    var secondFieldCleared: bool
    var suppressBlink: bool
    var blinkShowState: bool
    var blinkCycleStartMillis: int
    var isPreparingToSleep: bool
    /** The arguments of the last setRenderingInfo() call. */
    var presented: Handover
    /** The presenter's display() calls, each with the handover it then held. */
    var displayCalls: seq<Handover>
    /** The presenter's setBrightness, setContrast and setBias calls. */
    var settingCalls: seq<Op>
    /** The clock's setNow() calls, in epoch seconds. */
    var clockWrites: seq<int>
    /** The records written to the EEPROM. */
    var storeWrites: seq<StoredInfo>

    /** The navigation fields as one value. */
    function NavState(): Nav
      reads this
    {
      Nav(currentModeGroup, inChild, currentModeIndex, topLevelIndexSave)
    }

    function State(): Ctl
      reads this
    {
      Ctl(NavState(), mode,
          clockInfo, changingInfo, currentZone, zoneRegistryIndex, secondFieldCleared,
          suppressBlink, Blink.Timer(blinkShowState, blinkCycleStartMillis), isPreparingToSleep,
          presented, displayCalls, settingCalls, clockWrites, storeWrites)
    }

    ghost predicate Valid()
      reads this
    {
      Inv(root, State()) && ConfigOk(cfg)
    }

    constructor (rootModeGroup: ModeGroup, lib: TimeLib, cfg: Config)
      requires WellFormed(rootModeGroup, ZeroTerminated) && ConfigOk(cfg)
      ensures Valid()
      ensures root == rootModeGroup && this.lib == lib && this.cfg == cfg
      ensures State() == InitialCtl(rootModeGroup)
    {
      root := rootModeGroup;
      this.lib := lib;
      this.cfg := cfg;
      currentModeGroup := rootModeGroup;
      inChild := false;
      topLevelIndexSave := 0;
      currentModeIndex := 0;
      mode := ModeDateTime;
      clockInfo := ZeroClockInfo;
      changingInfo := ZeroClockInfo;
      currentZone := -1;
      zoneRegistryIndex := 0;
      secondFieldCleared := false;
      suppressBlink := false;
      blinkShowState := true;
      blinkCycleStartMillis := 0;
      isPreparingToSleep := false;
      presented := ZeroHandover;
      displayCalls := [];
      settingCalls := [];
      clockWrites := [];
      storeWrites := [];
    }

    /**
     * setup: restore the stored info, push the settings to the display, then
     * read the time. The stored record's fields are uint8 and its zones an
     * array of NUM_TIME_ZONES.
     */
    method Setup(factoryReset: bool, readOk: bool, buffer: StoredInfo, nowSeconds: int)
      requires Valid()
      requires StoredOk(buffer)
      modifies this
      ensures Valid()
      ensures var t := RestoreStep(cfg, factoryReset, buffer, old(State()));
        State() == DateTimeStep(lib, nowSeconds, t.(settingCalls := t.settingCalls + SetupPushes(cfg, t.clockInfo)))
    {
      RestoreClockInfo(factoryReset, readOk, buffer);
      ghost var t := State();
      assert Inv(root, t);
      if cfg.lcd {
        UpdateBacklight();
        UpdateLcdContrast();
        UpdateBias();
      } else {
        UpdateContrast();
      }
      ghost var w := State();
      assert w == t.(settingCalls := t.settingCalls + SetupPushes(cfg, t.clockInfo)) && Inv(root, w);
      UpdateDateTime(nowSeconds);
      DateTimeKeepsInv(root, lib, nowSeconds, w);
    }

    /** update: called every 0.1 s from the loop. */
    method Update(nowSeconds: int, nowMillis: int)
      requires Valid()
      modifies this
      ensures Valid()
      ensures State() == UpdateStep(lib, nowSeconds, nowMillis, old(State()))
    {
      if mode == ModeUnknown || isPreparingToSleep {
        return;
      }
      UpdateDateTime(nowSeconds);
      UpdateBlinkState(nowMillis);
      UpdateRenderingInfo();
      displayCalls := displayCalls + [presented];
      UpdateKeepsInv(root, lib, nowSeconds, nowMillis, old(State()));
    }

    method HandleModeButtonPress()
      requires Valid()
      modifies this
      ensures Valid()
      ensures State() == ModePressStep(root, lib, old(State()))
    {
      ChangeSiblingMode();
      PerformEnteringModeAction();
    }

    method ChangeSiblingMode()
      requires Valid()
      modifies this
      ensures State() == SiblingStep(root, old(State()))
    {
      currentModeIndex := currentModeIndex + 1;
      if currentModeGroup.modes[currentModeIndex] == 0 {
        currentModeIndex := 0;
      }
      mode := currentModeGroup.modes[currentModeIndex];
    }

    method PerformEnteringModeAction()
      requires |changingInfo.zones| == NumZones
      modifies this`currentZone, this`zoneRegistryIndex
      ensures State() == EnterModeAction(lib, old(State()))
    {
      if IsZoneEdit(mode) {
        currentZone := mode - ModeChangeTimeZone0Name;
        zoneRegistryIndex := U16(lib.indexForZoneId(changingInfo.zones[currentZone].zoneId));
      }
    }

    method HandleModeButtonLongPress()
      requires Valid()
      modifies this
      ensures Valid()
      ensures State() == LongPressStep(root, lib, cfg.lcd, old(State()))
    {
      PerformLeavingModeGroupAction();
      ChangeGroupAndEnterActions();
    }

    /** changeModeGroup(), performEnteringModeGroupAction(), performEnteringModeAction(). */
    method ChangeGroupAndEnterActions()
      requires NavValid(root, ZeroTerminated, NavState()) && InfoOk(clockInfo) && InfoOk(changingInfo)
      modifies this`currentModeGroup, this`inChild, this`currentModeIndex, this`topLevelIndexSave, this`mode
      modifies this`changingInfo, this`secondFieldCleared, this`currentZone, this`zoneRegistryIndex
      ensures State() == EnterModeAction(lib, EnterGroupAction(GroupStep(root, old(State()))))
    {
      ghost var s0 := State();
      ChangeModeGroup();
      ghost var u := State();
      assert u == GroupStep(root, s0);
      PerformEnteringModeGroupAction();
      ghost var v := State();
      PerformEnteringModeAction();
      assert State() == EnterModeAction(lib, v);
    }

    method ChangeModeGroup()
      requires NavValid(root, ZeroTerminated, NavState())
      modifies this`currentModeGroup, this`inChild, this`currentModeIndex, this`topLevelIndexSave, this`mode
      ensures NavState() == ChangeGroup(root, ZeroTerminated, old(NavState()))
      ensures NavValid(root, ZeroTerminated, NavState()) && mode == CurrentMode(NavState())
    {
      if inChild {
        currentModeGroup := root;
        inChild := false;
        currentModeIndex := topLevelIndexSave;
      } else {
        var childGroups := currentModeGroup.childGroups;
        if childGroups.Table? && currentModeIndex < |childGroups.slots| &&
           childGroups.slots[currentModeIndex].Child? {
          currentModeGroup := childGroups.slots[currentModeIndex].group;
          inChild := true;
          topLevelIndexSave := currentModeIndex;
          currentModeIndex := 0;
        }
      }
      mode := currentModeGroup.modes[currentModeIndex];
    }

    method PerformEnteringModeGroupAction()
      modifies this`changingInfo, this`secondFieldCleared
      ensures State() == EnterGroupAction(old(State()))
    {
      if EditsScratch(mode) {
        changingInfo := clockInfo;
        secondFieldCleared := false;
      }
    }

    method PerformLeavingModeGroupAction()
      modifies this`clockInfo, this`clockWrites, this`storeWrites
      ensures State() == LeaveGroupAction(lib, cfg.lcd, old(State()))
    {
      if IsDateTimeEdit(mode) {
        SaveDateTime();
      } else if IsZoneEdit(mode) {
        SaveClockInfo();
      } else if IsSettingsEdit(cfg.lcd, mode) {
        PreserveClockInfo(clockInfo);
      }
    }

    /** handleChangeButtonPress: the change of the mode, then update() at once to avoid jitter. */
    method HandleChangeButtonPress(nowSeconds: int, nowMillis: int)
      requires Valid()
      modifies this
      ensures Valid()
      ensures State() == UpdateStep(lib, nowSeconds, nowMillis, ChangeStep(root, lib, cfg, old(State())))
    {
      ApplyChange();
      Update(nowSeconds, nowMillis);
    }

    /** The switch of handleChangeButtonPress. */
    method ApplyChange()
      requires Valid()
      modifies this
      ensures State() == ChangeStep(root, lib, cfg, old(State()))
    {
      ghost var s0 := State();
      if mode == ModeDateTime {
        clockInfo := clockInfo.(hourMode := ToggleLowBit(clockInfo.hourMode));
        PreserveClockInfo(clockInfo);
        assert State() == HourModePress(cfg.lcd, s0);
      } else if IsDateTimeEdit(mode) {
        ChangeDateTimeField();
      } else if IsZoneEdit(mode) {
        ChangeZoneName();
      } else if IsSettingsEdit(cfg.lcd, mode) {
        ChangeSetting();
      }
    }

    /** The date-time cases of handleChangeButtonPress. */
    method ChangeDateTimeField()
      requires IsDateTimeEdit(mode)
      modifies this`suppressBlink, this`changingInfo, this`secondFieldCleared
      ensures State() == DateFieldPress(lib, cfg, old(State()))
    {
      suppressBlink := true;
      if mode == ModeChangeSecond {
        changingInfo := changingInfo.(dateTime := changingInfo.dateTime.(second := 0));
        secondFieldCleared := true;
      } else {
        changingInfo := changingInfo.(dateTime := DateTimeChange(lib, cfg, mode, changingInfo.dateTime));
      }
    }

    /** The zone-name cases: the next registry zone into the pointed-at scratch zone. */
    method ChangeZoneName()
      requires IsZoneEdit(mode) && currentZone == mode - ModeChangeTimeZone0Name && |changingInfo.zones| == NumZones
      modifies this`suppressBlink, this`zoneRegistryIndex, this`changingInfo
      ensures State() == ZoneChange(lib, old(State())).(suppressBlink := true)
    {
      suppressBlink := true;
      zoneRegistryIndex := U16(zoneRegistryIndex + 1);
      if zoneRegistryIndex >= lib.registrySize {
        zoneRegistryIndex := 0;
      }
      var tz := lib.createForZoneIndex(zoneRegistryIndex);
      changingInfo := changingInfo.(zones := changingInfo.zones[currentZone := tz]);
      if mode == ModeChangeTimeZone0Name {
        changingInfo := changingInfo.(dateTime := lib.convertToTimeZone(changingInfo.dateTime, tz));
      }
    }

    /** The settings cases: incrementMod of the field, pushed to the display at once. */
    method ChangeSetting()
      requires IsSettingsEdit(cfg.lcd, mode) && ConfigOk(cfg) && InfoOk(clockInfo)
      modifies this`suppressBlink, this`clockInfo, this`settingCalls
      ensures State() == SettingsPress(cfg, old(State()))
    {
      suppressBlink := true;
      if !cfg.lcd {
        clockInfo := clockInfo.(contrastLevel := IncrementMod(clockInfo.contrastLevel, 10));
        UpdateContrast();
      } else if mode == ModeChangeSettingsBacklight {
        clockInfo := clockInfo.(backlightLevel := IncrementMod(clockInfo.backlightLevel, 10));
        UpdateBacklight();
      } else if mode == ModeChangeSettingsLcdContrast {
        clockInfo := clockInfo.(contrast := IncrementMod(clockInfo.contrast, 128));
        UpdateLcdContrast();
      } else {
        clockInfo := clockInfo.(bias := IncrementMod(clockInfo.bias, 8));
        UpdateBias();
      }
    }

    method UpdateBacklight()
      requires ConfigOk(cfg) && InfoOk(clockInfo)
      modifies this`settingCalls
      ensures settingCalls == old(settingCalls) + [SetBacklight(BacklightValue(cfg, clockInfo.backlightLevel))]
    {
      settingCalls := settingCalls + [SetBacklight(BacklightValue(cfg, clockInfo.backlightLevel))];
    }

    method UpdateLcdContrast()
      modifies this`settingCalls
      ensures settingCalls == old(settingCalls) + [SetContrast(clockInfo.contrast)]
    {
      settingCalls := settingCalls + [SetContrast(clockInfo.contrast)];
    }

    method UpdateBias()
      modifies this`settingCalls
      ensures settingCalls == old(settingCalls) + [SetBias(clockInfo.bias)]
    {
      settingCalls := settingCalls + [SetBias(clockInfo.bias)];
    }

    method UpdateContrast()
      requires ConfigOk(cfg) && InfoOk(clockInfo)
      modifies this`settingCalls
      ensures settingCalls == old(settingCalls) + [SetContrast(ContrastValue(cfg, clockInfo.contrastLevel))]
    {
      settingCalls := settingCalls + [SetContrast(ContrastValue(cfg, clockInfo.contrastLevel))];
    }

    /** A held button repeats the press, except on the date-time screen, where it would rewrite the EEPROM. */
    method HandleChangeButtonRepeatPress(nowSeconds: int, nowMillis: int)
      requires Valid()
      modifies this
      ensures Valid()
      ensures old(mode) == ModeDateTime ==> State() == old(State())
      ensures old(mode) != ModeDateTime ==>
        State() == UpdateStep(lib, nowSeconds, nowMillis, ChangeStep(root, lib, cfg, old(State())))
    {
      if mode != ModeDateTime {
        HandleChangeButtonPress(nowSeconds, nowMillis);
      }
    }

    method HandleChangeButtonRelease()
      modifies this
      ensures State() == ReleaseStep(cfg.lcd, old(State()))
    {
      if IsEdit(cfg.lcd, mode) {
        suppressBlink := false;
      }
    }

    method UpdateDateTime(nowSeconds: int)
      requires |clockInfo.zones| == NumZones
      modifies this
      ensures State() == DateTimeStep(lib, nowSeconds, old(State()))
    {
      clockInfo := clockInfo.(dateTime := lib.forEpochSeconds(nowSeconds, clockInfo.zones[0]));
      if IsDateTimeEdit(mode) && !secondFieldCleared {
        changingInfo := changingInfo.(dateTime := changingInfo.dateTime.(second := clockInfo.dateTime.second));
      }
    }

    method UpdateBlinkState(nowMillis: int)
      modifies this
      ensures State() == old(State()).(blink := Blink.Update(old(State()).blink, nowMillis))
    {
      var duration := U16(U16(nowMillis) - blinkCycleStartMillis);
      if duration < 500 {
        blinkShowState := true;
      } else if duration < 1000 {
        blinkShowState := false;
      } else {
        blinkCycleStartMillis := U16(nowMillis);
      }
    }

    method UpdateRenderingInfo()
      modifies this
      ensures State() == RenderStep(old(State()))
    {
      if EditsScratch(mode) {
        presented := Handover(mode, suppressBlink, blinkShowState, changingInfo);
      } else {
        presented := Handover(mode, suppressBlink, blinkShowState, clockInfo);
      }
    }

    /** saveDateTime: the clock is set to the scratch date-time. */
    method SaveDateTime()
      modifies this`clockWrites
      ensures State() == old(State()).(clockWrites := old(clockWrites) + [lib.toEpochSeconds(changingInfo.dateTime)])
    {
      clockWrites := clockWrites + [lib.toEpochSeconds(changingInfo.dateTime)];
    }

    /** saveClockInfo: commit the scratch snapshot and persist it. */
    method SaveClockInfo()
      modifies this`clockInfo, this`storeWrites
      ensures State() == old(State()).(clockInfo := old(changingInfo),
                                       storeWrites := old(storeWrites) + [StoredOf(cfg.lcd, old(changingInfo))])
    {
      clockInfo := changingInfo;
      PreserveClockInfo(clockInfo);
    }

    method PreserveClockInfo(info: ClockInfo)
      modifies this`storeWrites
      ensures State() == old(State()).(storeWrites := old(storeWrites) + [StoredOf(cfg.lcd, info)])
    {
      storeWrites := storeWrites + [StoredOf(cfg.lcd, info)];
    }

    /** restoreClockInfo: the result of the read is overwritten with true, so only a factory reset uses the defaults. */
    method RestoreClockInfo(factoryReset: bool, readOk: bool, buffer: StoredInfo)
      requires ConfigOk(cfg)
      modifies this
      ensures State() == RestoreStep(cfg, factoryReset, buffer, old(State()))
    {
      var isValid: bool;
      if factoryReset {
        isValid := false;
      } else {
        isValid := readOk;
        isValid := true;
      }
      if isValid {
        clockInfo := WithStored(cfg.lcd, clockInfo, buffer);
      } else {
        SetupClockInfo();
        PreserveClockInfo(clockInfo);
      }
    }

    method SetupClockInfo()
      requires ConfigOk(cfg)
      modifies this
      ensures State() == old(State()).(clockInfo := FactoryInfo(cfg, old(clockInfo)))
    {
      clockInfo := clockInfo.(hourMode := TwentyFour, zones := cfg.displayZones);
      if cfg.lcd {
        clockInfo := clockInfo.(backlightLevel := 0, contrast := LcdInitialContrast, bias := LcdInitialBias);
      } else {
        clockInfo := clockInfo.(contrastLevel := OledInitialContrastLevel);
      }
    }
  }
}
