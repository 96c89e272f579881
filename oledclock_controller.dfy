/**
 * The Controller of OledClock (OledClock/Controller.h): a zero-terminated
 * two-level mode tree walked with two buttons, a committed ClockInfo and a
 * scratch copy edited in the change modes, a blink timer, and the rendering
 * info handed to the Presenter.
 *
 * The clock's setNow() calls, the EEPROM writes of preserveClockInfo() and
 * the presenter's display() calls are kept as traces. The current epoch
 * seconds and millis() are parameters of the operations that read them.
 */
module OledClockController {
  import opened Widths
  import opened AceCommon
  import opened AceTime
  import opened ModeGroups
  import Blink
  import opened OledClockInfo
  import opened ZoneEdits

  /** The controller's fields as one value; the class below keeps them in place. */
  datatype Ctl = Ctl(
    nav: Nav, mode: int,
    clockInfo: ClockInfo, changingInfo: ClockInfo,
    zoneRegistryIndex: int, secondFieldCleared: bool,
    suppressBlink: bool, blink: Blink.Timer, isPreparingToSleep: bool,
    presented: RenderingInfo, displayCalls: seq<RenderingInfo>,
    clockWrites: seq<int>, storeWrites: seq<StoredInfo>)

  /**
   * The navigation state can be walked, the mode is the entry it points at
   * (or the initial MODE_DATE_TIME before the first move), and the uint8 and
   * uint16 fields hold values of their width.
   */
  ghost predicate Inv(root: ModeGroup, s: Ctl)
  {
    NavValid(root, ZeroTerminated, s.nav) &&
    (s.mode == CurrentMode(s.nav) || (s.nav == Initial(root) && s.mode == ModeDateTime)) &&
    0 <= s.zoneRegistryIndex < 65536 && 0 <= s.blink.cycleStartMillis < 65536 &&
    0 <= s.clockInfo.hourMode < 256 && 0 <= s.changingInfo.hourMode < 256
  }

  /** changeSiblingMode: the next entry of the group, or its first one at the 0 entry. */
  function SiblingStep(root: ModeGroup, s: Ctl): (r: Ctl)
    requires Inv(root, s)
    ensures Inv(root, r) && r.mode == CurrentMode(r.nav) && r.mode != ModeUnknown
    ensures r.nav.index == IncrementMod(s.nav.index, NumModes(s.nav.group, ZeroTerminated))
    ensures r == s.(nav := r.nav, mode := r.mode)
  {
    var n := ChangeSibling(root, s.nav);
    ChangeSiblingIsIncrementMod(root, s.nav);
    ChangeSiblingNeverSentinel(root, s.nav);
    s.(nav := n, mode := CurrentMode(n))
  }

  /** performEnteringModeAction: the zone-name edit looks up the scratch zone's registry index. */
  function EnterModeAction(lib: TimeLib, s: Ctl): (r: Ctl)
    ensures r.mode == ModeChangeTimeZoneName ==>
      r.zoneRegistryIndex == U16(lib.indexForZoneId(s.changingInfo.timeZone.zoneId))
    ensures r == s.(zoneRegistryIndex := r.zoneRegistryIndex)
    ensures r.mode != ModeChangeTimeZoneName ==> r == s
  {
    if s.mode == ModeChangeTimeZoneName then
      s.(zoneRegistryIndex := U16(lib.indexForZoneId(s.changingInfo.timeZone.zoneId)))
    else s
  }

  /** handleModeButtonPress: the next sibling mode; no snapshot, flag or trace changes. */
  function ModePressStep(root: ModeGroup, lib: TimeLib, s: Ctl): (r: Ctl)
    requires Inv(root, s)
    ensures Inv(root, r) && r.mode == CurrentMode(r.nav) && r.mode != ModeUnknown
    ensures r.nav.index == IncrementMod(s.nav.index, NumModes(s.nav.group, ZeroTerminated))
    ensures r.nav.(index := s.nav.index) == s.nav
    ensures r.mode == ModeChangeTimeZoneName ==>
      r.zoneRegistryIndex == U16(lib.indexForZoneId(s.changingInfo.timeZone.zoneId))
    ensures r == s.(nav := r.nav, mode := r.mode, zoneRegistryIndex := r.zoneRegistryIndex)
  {
    EnterModeAction(lib, SiblingStep(root, s))
  }

  /** performLeavingModeGroupAction: commit the edits of the mode being left. */
  function LeaveGroupAction(lib: TimeLib, s: Ctl): (r: Ctl)
    ensures IsDateTimeEdit(s.mode) ==>
      r == s.(clockWrites := s.clockWrites + [lib.toEpochSeconds(s.changingInfo.dateTime)])
    ensures s.mode == ModeChangeTimeZoneName ==>
      r == s.(clockInfo := s.changingInfo, storeWrites := s.storeWrites + [StoredOf(s.changingInfo)])
    ensures !IsEdit(s.mode) ==> r == s
    ensures r == s.(clockInfo := r.clockInfo, clockWrites := r.clockWrites, storeWrites := r.storeWrites)
  {
    if IsDateTimeEdit(s.mode) then
      s.(clockWrites := s.clockWrites + [lib.toEpochSeconds(s.changingInfo.dateTime)])
    else if s.mode == ModeChangeTimeZoneName then
      s.(clockInfo := s.changingInfo, storeWrites := s.storeWrites + [StoredOf(s.changingInfo)])
    else s
  }

  /** changeModeGroup followed by re-reading mMode. */
  function GroupStep(root: ModeGroup, s: Ctl): (r: Ctl)
    requires Inv(root, s)
    ensures Inv(root, r) && r.mode == CurrentMode(r.nav)
    ensures r == s.(nav := ChangeGroup(root, ZeroTerminated, s.nav), mode := r.mode)
  {
    var n := ChangeGroup(root, ZeroTerminated, s.nav);
    s.(nav := n, mode := CurrentMode(n))
  }

  /** performEnteringModeGroupAction: an edit mode starts from a copy of the committed snapshot. */
  function EnterGroupAction(s: Ctl): (r: Ctl)
    ensures IsEdit(s.mode) ==> r == s.(changingInfo := s.clockInfo, secondFieldCleared := false)
    ensures !IsEdit(s.mode) ==> r == s
    ensures r == s.(changingInfo := r.changingInfo, secondFieldCleared := r.secondFieldCleared)
  {
    if IsEdit(s.mode) then s.(changingInfo := s.clockInfo, secondFieldCleared := false) else s
  }

  /**
   * handleModeButtonLongPress: leaving a date or time edit sets the clock to
   * the scratch date-time; leaving the zone-name edit commits the scratch
   * snapshot and persists it; the group changes; entering an edit mode copies
   * the committed snapshot into the scratch one. What it commits and what it
   * enters are stated by the two lemmas below.
   */
  function LongPressStep(root: ModeGroup, lib: TimeLib, s: Ctl): (r: Ctl)
    requires Inv(root, s)
    ensures Inv(root, r) && r.mode == CurrentMode(r.nav)
    ensures r.nav == ChangeGroup(root, ZeroTerminated, s.nav)
    ensures (r.suppressBlink, r.blink, r.isPreparingToSleep, r.presented, r.displayCalls) ==
            (s.suppressBlink, s.blink, s.isPreparingToSleep, s.presented, s.displayCalls)
  {
    var t := LeaveGroupAction(lib, s);
    assert Inv(root, t);
    var u := GroupStep(root, t);
    var v := EnterGroupAction(u);
    assert Inv(root, v);
    EnterModeAction(lib, v)
  }

  /**
   * What a long press commits: the clock write of a date or time edit, the
   * snapshot and its EEPROM record of the zone-name edit, nothing elsewhere.
   */
  lemma LongPressCommits(root: ModeGroup, lib: TimeLib, s: Ctl)
    requires Inv(root, s)
    ensures var r := LongPressStep(root, lib, s);
      (IsDateTimeEdit(s.mode) ==>
        r.clockWrites == s.clockWrites + [lib.toEpochSeconds(s.changingInfo.dateTime)] &&
        r.storeWrites == s.storeWrites && r.clockInfo == s.clockInfo) &&
      (s.mode == ModeChangeTimeZoneName ==>
        r.clockInfo == s.changingInfo && r.storeWrites == s.storeWrites + [StoredOf(s.changingInfo)] &&
        r.clockWrites == s.clockWrites) &&
      (!IsEdit(s.mode) ==>
        r.clockInfo == s.clockInfo && r.clockWrites == s.clockWrites && r.storeWrites == s.storeWrites)
  {
    var t := LeaveGroupAction(lib, s);
    assert Inv(root, t);
    var v := EnterGroupAction(GroupStep(root, t));
    assert (v.clockInfo, v.clockWrites, v.storeWrites) == (t.clockInfo, t.clockWrites, t.storeWrites);
  }

  /**
   * What a long press enters: an edit mode starts from a copy of the
   * committed snapshot with the second not cleared, and the zone-name edit
   * from the registry index of the committed zone; elsewhere the scratch
   * snapshot, the latch and the index are kept.
   */
  lemma LongPressEnters(root: ModeGroup, lib: TimeLib, s: Ctl)
    requires Inv(root, s)
    ensures var r := LongPressStep(root, lib, s);
      (IsEdit(r.mode) ==> r.changingInfo == r.clockInfo && !r.secondFieldCleared) &&
      (!IsEdit(r.mode) ==> r.changingInfo == s.changingInfo && r.secondFieldCleared == s.secondFieldCleared) &&
      (r.mode != ModeChangeTimeZoneName ==> r.zoneRegistryIndex == s.zoneRegistryIndex) &&
      (r.mode == ModeChangeTimeZoneName ==>
        r.zoneRegistryIndex == U16(lib.indexForZoneId(r.clockInfo.timeZone.zoneId)))
  {
    var t := LeaveGroupAction(lib, s);
    assert Inv(root, t);
    var u := GroupStep(root, t);
    assert (u.changingInfo, u.secondFieldCleared, u.zoneRegistryIndex) ==
           (s.changingInfo, s.secondFieldCleared, s.zoneRegistryIndex);
    var v := EnterGroupAction(u);
    assert v.mode == u.mode && v.clockInfo == u.clockInfo;
  }

  /**
   * A long press into an edit group and a long press out again, with no
   * edit between them, sets the clock to the committed date-time and comes
   * back to the same top-level mode.
   */
  lemma EnterAndLeaveDateEdit(root: ModeGroup, lib: TimeLib, s: Ctl)
    requires Inv(root, s) && !s.nav.inChild && HasChildAt(root, s.nav.index) && !IsEdit(s.mode)
    requires IsDateTimeEdit(root.childGroups.slots[s.nav.index].group.modes[0])
    ensures var r := LongPressStep(root, lib, LongPressStep(root, lib, s));
      r.nav == s.nav.(topLevelIndexSave := s.nav.index) &&
      r.clockWrites == s.clockWrites + [lib.toEpochSeconds(s.clockInfo.dateTime)] &&
      r.clockInfo == s.clockInfo && r.storeWrites == s.storeWrites
  {
    var t := LongPressStep(root, lib, s);
    LongPressCommits(root, lib, s);
    LongPressEnters(root, lib, s);
    assert t.nav == Nav(root.childGroups.slots[s.nav.index].group, true, 0, s.nav.index);
    assert IsDateTimeEdit(t.mode) && t.changingInfo == s.clockInfo;
    LongPressCommits(root, lib, t);
    ChangeGroupRoundTrip(root, ZeroTerminated, s.nav);
  }

  /**
   * The switch of handleChangeButtonPress. In MODE_DATE_TIME the hour mode
   * flips and is persisted. An edit press suppresses blinking and changes
   * only the scratch snapshot: one date-time field is incremented, the second
   * is zeroed and latched, or the next zone of the registry is selected and
   * the scratch date-time re-expressed in it. Other modes are left alone.
   */
  function ChangeStep(lib: TimeLib, s: Ctl): (r: Ctl)
    requires 0 <= s.clockInfo.hourMode
    ensures s.mode == ModeDateTime ==>
      r.clockInfo.hourMode % 2 != s.clockInfo.hourMode % 2 &&
      r.clockInfo == s.clockInfo.(hourMode := r.clockInfo.hourMode) &&
      r == s.(clockInfo := r.clockInfo, storeWrites := s.storeWrites + [StoredOf(r.clockInfo)])
    ensures IsEdit(s.mode) ==>
      r.suppressBlink && r.changingInfo.hourMode == s.changingInfo.hourMode &&
      r == s.(suppressBlink := true, changingInfo := r.changingInfo,
              secondFieldCleared := r.secondFieldCleared, zoneRegistryIndex := r.zoneRegistryIndex)
    ensures IsDateTimeEdit(s.mode) ==>
      r.changingInfo.timeZone == s.changingInfo.timeZone && r.zoneRegistryIndex == s.zoneRegistryIndex
    ensures s.mode == ModeChangeSecond ==>
      r.changingInfo.dateTime == WithSecond(s.changingInfo.dateTime, 0) && r.secondFieldCleared
    ensures IsDateTimeEdit(s.mode) && s.mode != ModeChangeSecond ==> r.secondFieldCleared == s.secondFieldCleared
    ensures s.mode == ModeChangeTimeZoneName ==>
      r.zoneRegistryIndex == NextRegistryIndex(s.zoneRegistryIndex, lib.registrySize) &&
      r.changingInfo.timeZone == lib.createForZoneIndex(r.zoneRegistryIndex) &&
      r.changingInfo.dateTime == lib.convertToTimeZone(s.changingInfo.dateTime, r.changingInfo.timeZone) &&
      r.secondFieldCleared == s.secondFieldCleared
    ensures s.mode != ModeDateTime && !IsEdit(s.mode) ==> r == s
  {
    var c := s.changingInfo;
    var dt := c.dateTime;
    if s.mode == ModeDateTime then
      var info := s.clockInfo.(hourMode := ToggleLowBit(s.clockInfo.hourMode));
      s.(clockInfo := info, storeWrites := s.storeWrites + [StoredOf(info)])
    else if s.mode == ModeChangeYear then
      s.(suppressBlink := true, changingInfo := c.(dateTime := lib.incrementYear(dt)))
    else if s.mode == ModeChangeMonth then
      s.(suppressBlink := true, changingInfo := c.(dateTime := lib.incrementMonth(dt)))
    else if s.mode == ModeChangeDay then
      s.(suppressBlink := true, changingInfo := c.(dateTime := lib.incrementDay(dt)))
    else if s.mode == ModeChangeHour then
      s.(suppressBlink := true, changingInfo := c.(dateTime := lib.incrementHour(dt)))
    else if s.mode == ModeChangeMinute then
      s.(suppressBlink := true, changingInfo := c.(dateTime := lib.incrementMinute(dt)))
    else if s.mode == ModeChangeSecond then
      s.(suppressBlink := true, changingInfo := c.(dateTime := dt.(second := 0)), secondFieldCleared := true)
    else if s.mode == ModeChangeTimeZoneName then
      var i := NextRegistryIndex(s.zoneRegistryIndex, lib.registrySize);
      var tz := lib.createForZoneIndex(i);
      s.(suppressBlink := true, zoneRegistryIndex := i,
         changingInfo := c.(timeZone := tz, dateTime := lib.convertToTimeZone(dt, tz)))
    else s
  }

  /** Two presses in MODE_DATE_TIME restore the hour mode, and the last record persisted is the original one. */
  lemma HourModeTogglesBack(lib: TimeLib, s: Ctl)
    requires s.mode == ModeDateTime && 0 <= s.clockInfo.hourMode
    ensures ChangeStep(lib, ChangeStep(lib, s)).clockInfo == s.clockInfo
    ensures var w := ChangeStep(lib, ChangeStep(lib, s)).storeWrites;
      |w| == |s.storeWrites| + 2 && w[|w| - 1] == StoredOf(s.clockInfo)
  {
    ToggleLowBitInvolution(s.clockInfo.hourMode);
  }

  /** handleChangeButtonRelease: the edit modes stop suppressing the blink; nothing else changes. */
  function ReleaseStep(s: Ctl): (r: Ctl)
    ensures r.suppressBlink <==> s.suppressBlink && !IsEdit(s.mode)
    ensures r == s.(suppressBlink := r.suppressBlink)
  {
    if IsEdit(s.mode) then s.(suppressBlink := false) else s
  }

  /** updateDateTime: the live time in the committed zone; the unlatched scratch second follows it. */
  function DateTimeStep(lib: TimeLib, nowSeconds: int, s: Ctl): Ctl
  {
    var live := lib.forEpochSeconds(nowSeconds, s.clockInfo.timeZone);
    var c := s.changingInfo;
    s.(clockInfo := s.clockInfo.(dateTime := live),
       changingInfo := if IsDateTimeEdit(s.mode) && !s.secondFieldCleared
                       then c.(dateTime := c.dateTime.(second := live.second)) else c)
  }

  /** The rendering info of a snapshot in the current mode and blink state. */
  function RenderingOf(s: Ctl, c: ClockInfo): RenderingInfo
  {
    RenderingInfo(s.mode, s.suppressBlink, s.blink.showState, c.hourMode, c.timeZone, c.dateTime)
  }

  /** updateRenderingInfo: the committed snapshot in the views, the scratch one in the edits, no call otherwise. */
  function RenderStep(s: Ctl): Ctl
  {
    if s.mode in {ModeDateTime, ModeTimeZone, ModeAbout} then s.(presented := RenderingOf(s, s.clockInfo))
    else if IsEdit(s.mode) then s.(presented := RenderingOf(s, s.changingInfo))
    else s
  }

  /**
   * update: nothing in MODE_UNKNOWN or while preparing to sleep; otherwise
   * read the time, run the blink timer, hand the presenter the snapshot of
   * the mode (the scratch one in the edit modes), and call display().
   */
  function UpdateStep(lib: TimeLib, nowSeconds: int, nowMillis: int, s: Ctl): (r: Ctl)
    ensures s.mode == ModeUnknown || s.isPreparingToSleep ==> r == s
    ensures s.mode != ModeUnknown && !s.isPreparingToSleep ==>
      r.clockInfo == s.clockInfo.(dateTime := lib.forEpochSeconds(nowSeconds, s.clockInfo.timeZone)) &&
      r.blink == Blink.Update(s.blink, nowMillis) &&
      r.displayCalls == s.displayCalls + [r.presented] &&
      (s.mode in {ModeDateTime, ModeTimeZone, ModeAbout} ==>
         r.presented == RenderingInfo(s.mode, s.suppressBlink, r.blink.showState,
                                      s.clockInfo.hourMode, s.clockInfo.timeZone, r.clockInfo.dateTime)) &&
      (IsEdit(s.mode) ==>
         r.presented == RenderingInfo(s.mode, s.suppressBlink, r.blink.showState,
                                      s.changingInfo.hourMode, s.changingInfo.timeZone, r.changingInfo.dateTime)) &&
      (!IsEdit(s.mode) && s.mode !in {ModeDateTime, ModeTimeZone, ModeAbout} ==> r.presented == s.presented) &&
      (IsDateTimeEdit(s.mode) && !s.secondFieldCleared ==>
         r.changingInfo.dateTime == WithSecond(s.changingInfo.dateTime, r.clockInfo.dateTime.second)) &&
      (!IsDateTimeEdit(s.mode) || s.secondFieldCleared ==> r.changingInfo == s.changingInfo) &&
      r.changingInfo.(dateTime := s.changingInfo.dateTime) == s.changingInfo &&
      r == s.(clockInfo := r.clockInfo, changingInfo := r.changingInfo, blink := r.blink,
              presented := r.presented, displayCalls := r.displayCalls)
  {
    if s.mode == ModeUnknown || s.isPreparingToSleep then s
    else
      var t := RenderStep(DateTimeStep(lib, nowSeconds, s).(blink := Blink.Update(s.blink, nowMillis)));
      t.(displayCalls := t.displayCalls + [t.presented])
  }

  /** restoreClockInfo: a valid stored record, unless reset; otherwise the defaults, persisted. */
  function RestoreStep(initialTimeZone: TimeZone, factoryReset: bool, read: StoreRead, s: Ctl): (r: Ctl)
    ensures !factoryReset && read.StoreOk? ==>
      r == s.(clockInfo := WithStored(s.clockInfo, read.stored))
    ensures factoryReset || read.StoreBad? ==>
      r.clockInfo == s.clockInfo.(hourMode := TwentyFour, timeZone := initialTimeZone) &&
      r == s.(clockInfo := r.clockInfo, storeWrites := s.storeWrites + [StoredInfo(TwentyFour, initialTimeZone)])
  {
    var isValid := !factoryReset && read.StoreOk?;
    if isValid then s.(clockInfo := WithStored(s.clockInfo, read.stored))
    else
      var info := s.clockInfo.(hourMode := TwentyFour, timeZone := initialTimeZone);
      s.(clockInfo := info, storeWrites := s.storeWrites + [StoredOf(info)])
  }

  /** StoredInfo::kTwentyFour. */
  const TwentyFour := 1

  /** The state after construction. */
  function InitialCtl(root: ModeGroup): Ctl
  {
    Ctl(Initial(root), ModeDateTime, ZeroClockInfo, ZeroClockInfo, 0, false,
        false, Blink.Timer(true, 0), false, ZeroRenderingInfo, [], [], [])
  }

  class Controller {
    const root: ModeGroup
    const lib: TimeLib
    const initialTimeZone: TimeZone

    var currentModeGroup: ModeGroup
    /** True when currentModeGroup has a parentGroup (the root). */
    var inChild: bool
    var topLevelIndexSave: int
    var currentModeIndex: int
    var mode: int
    var clockInfo: ClockInfo
    var changingInfo: ClockInfo
    var zoneRegistryIndex: int
    var secondFieldCleared: bool
    var suppressBlink: bool
    var blinkShowState: bool
    var blinkCycleStartMillis: int
    var isPreparingToSleep: bool
    /** The RenderingInfo last handed to the presenter's setRenderingInfo(). */
    var presented: RenderingInfo
    /** The presenter's display() calls, each with the RenderingInfo it then held. */
    var displayCalls: seq<RenderingInfo>
    /** The clock's setNow() calls, in epoch seconds. */
    var clockWrites: seq<int>
    /** The records written to the EEPROM. */
    var storeWrites: seq<StoredInfo>

    function State(): Ctl
      reads this
    {
      Ctl(Nav(currentModeGroup, inChild, currentModeIndex, topLevelIndexSave), mode,
          clockInfo, changingInfo, zoneRegistryIndex, secondFieldCleared,
          suppressBlink, Blink.Timer(blinkShowState, blinkCycleStartMillis), isPreparingToSleep,
          presented, displayCalls, clockWrites, storeWrites)
    }

    ghost predicate Valid()
      reads this
    {
      Inv(root, State())
    }

    constructor (rootModeGroup: ModeGroup, lib: TimeLib, initialTimeZone: TimeZone)
      requires WellFormed(rootModeGroup, ZeroTerminated)
      ensures Valid()
      ensures root == rootModeGroup && this.lib == lib && this.initialTimeZone == initialTimeZone
      ensures State() == InitialCtl(rootModeGroup)
    {
      root := rootModeGroup;
      this.lib := lib;
      this.initialTimeZone := initialTimeZone;
      currentModeGroup := rootModeGroup;
      inChild := false;
      topLevelIndexSave := 0;
      currentModeIndex := 0;
      mode := ModeDateTime;
      clockInfo := ZeroClockInfo;
      changingInfo := ZeroClockInfo;
      zoneRegistryIndex := 0;
      secondFieldCleared := false;
      suppressBlink := false;
      blinkShowState := true;
      blinkCycleStartMillis := 0;
      isPreparingToSleep := false;
      presented := ZeroRenderingInfo;
      displayCalls := [];
      clockWrites := [];
      storeWrites := [];
    }

    /** setup: restore the stored info, then read the time. */
    method Setup(factoryReset: bool, read: StoreRead, nowSeconds: int)
      requires Valid()
      requires read.StoreOk? ==> 0 <= read.stored.hourMode < 256
      modifies this
      ensures Valid()
      ensures State() == DateTimeStep(lib, nowSeconds, RestoreStep(initialTimeZone, factoryReset, read, old(State())))
    {
      RestoreClockInfo(factoryReset, read);
      UpdateDateTime(nowSeconds);
    }

    /** update: called every 0.1 s from the loop. */
    method Update(nowSeconds: int, nowMillis: int)
      requires Valid()
      modifies this
      ensures Valid()
      ensures State() == UpdateStep(lib, nowSeconds, nowMillis, old(State()))
    {
      if mode == ModeUnknown || isPreparingToSleep {
        return;
      }
      ghost var s0 := State();
      UpdateDateTime(nowSeconds);
      UpdateBlinkState(nowMillis);
      ghost var s2 := State();
      assert s2 == DateTimeStep(lib, nowSeconds, s0).(blink := Blink.Update(s0.blink, nowMillis));
      UpdateRenderingInfo();
      displayCalls := displayCalls + [presented];
      assert State() == RenderStep(s2).(displayCalls := s0.displayCalls + [presented]);
    }

    method HandleModeButtonPress()
      requires Valid()
      modifies this
      ensures Valid()
      ensures State() == ModePressStep(root, lib, old(State()))
    {
      ChangeSiblingMode();
      PerformEnteringModeAction();
    }

    method ChangeSiblingMode()
      requires Valid()
      modifies this
      ensures Valid()
      ensures State() == SiblingStep(root, old(State()))
    {
      currentModeIndex := currentModeIndex + 1;
      if currentModeGroup.modes[currentModeIndex] == 0 {
        currentModeIndex := 0;
      }
      mode := currentModeGroup.modes[currentModeIndex];
    }

    method PerformEnteringModeAction()
      modifies this
      ensures State() == EnterModeAction(lib, old(State()))
    {
      if mode == ModeChangeTimeZoneName {
        zoneRegistryIndex := U16(lib.indexForZoneId(changingInfo.timeZone.zoneId));
      }
    }

    method HandleModeButtonLongPress()
      requires Valid()
      modifies this
      ensures Valid()
      ensures State() == LongPressStep(root, lib, old(State()))
    {
      PerformLeavingModeGroupAction();
      ChangeModeGroup();
      PerformEnteringModeGroupAction();
      PerformEnteringModeAction();
    }

    /** changeModeGroup: out of a child group to the saved top-level index, or into the child of the current mode. */
    method ChangeModeGroup()
      requires Valid()
      modifies this`currentModeGroup, this`inChild, this`currentModeIndex, this`topLevelIndexSave, this`mode
      ensures Valid()
      ensures State() == GroupStep(root, old(State()))
    {
      if inChild {
        LeaveChildGroup();
      } else {
        var childGroups := currentModeGroup.childGroups;
        if childGroups.Table? && currentModeIndex < |childGroups.slots| &&
           childGroups.slots[currentModeIndex].Child? {
          EnterChildGroup();
        } else {
          mode := currentModeGroup.modes[currentModeIndex];
        }
      }
    }

    method LeaveChildGroup()
      requires Valid() && inChild
      modifies this`currentModeGroup, this`inChild, this`currentModeIndex, this`mode
      ensures Valid()
      ensures State() == GroupStep(root, old(State()))
    {
      currentModeGroup := root;
      inChild := false;
      currentModeIndex := topLevelIndexSave;
      mode := currentModeGroup.modes[currentModeIndex];
    }

    method EnterChildGroup()
      requires Valid() && !inChild && HasChildAt(currentModeGroup, currentModeIndex)
      modifies this`currentModeGroup, this`inChild, this`currentModeIndex, this`topLevelIndexSave, this`mode
      ensures Valid()
      ensures State() == GroupStep(root, old(State()))
    {
      currentModeGroup := currentModeGroup.childGroups.slots[currentModeIndex].group;
      inChild := true;
      topLevelIndexSave := currentModeIndex;
      currentModeIndex := 0;
      mode := currentModeGroup.modes[currentModeIndex];
    }

    method PerformEnteringModeGroupAction()
      modifies this
      ensures State() == EnterGroupAction(old(State()))
    {
      if IsEdit(mode) {
        changingInfo := clockInfo;
        secondFieldCleared := false;
      }
    }

    method PerformLeavingModeGroupAction()
      requires Valid()
      modifies this
      ensures Valid()
      ensures State() == LeaveGroupAction(lib, old(State()))
    {
      if IsDateTimeEdit(mode) {
        SaveDateTime();
      } else if mode == ModeChangeTimeZoneName {
        SaveClockInfo();
      }
    }

    method HandleChangeButtonPress(nowSeconds: int, nowMillis: int)
      requires Valid()
      modifies this
      ensures Valid()
      ensures State() == UpdateStep(lib, nowSeconds, nowMillis, ChangeStep(lib, old(State())))
    {
      ApplyChange();
      Update(nowSeconds, nowMillis);
    }

    /** The switch of handleChangeButtonPress. */
    method ApplyChange()
      requires Valid()
      modifies this
      ensures Valid()
      ensures State() == ChangeStep(lib, old(State()))
    {
      if mode == ModeDateTime {
        clockInfo := clockInfo.(hourMode := ToggleLowBit(clockInfo.hourMode));
        PreserveClockInfo(clockInfo);
      } else if IsDateTimeEdit(mode) {
        ChangeDateTimeField();
      } else if mode == ModeChangeTimeZoneName {
        ChangeZoneName();
      }
    }

    /** The date and time edits of handleChangeButtonPress, on the scratch snapshot. */
    method ChangeDateTimeField()
      requires Valid() && IsDateTimeEdit(mode)
      modifies this`suppressBlink, this`changingInfo, this`secondFieldCleared
      ensures Valid()
      ensures State() == ChangeStep(lib, old(State()))
    {
      ghost var s0 := State();
      var dt := changingInfo.dateTime;
      suppressBlink := true;
      if mode == ModeChangeYear {
        changingInfo := changingInfo.(dateTime := lib.incrementYear(dt));
      } else if mode == ModeChangeMonth {
        changingInfo := changingInfo.(dateTime := lib.incrementMonth(dt));
      } else if mode == ModeChangeDay {
        changingInfo := changingInfo.(dateTime := lib.incrementDay(dt));
      } else if mode == ModeChangeHour {
        changingInfo := changingInfo.(dateTime := lib.incrementHour(dt));
      } else if mode == ModeChangeMinute {
        changingInfo := changingInfo.(dateTime := lib.incrementMinute(dt));
      } else {
        changingInfo := changingInfo.(dateTime := dt.(second := 0));
        secondFieldCleared := true;
      }
      assert State() == s0.(suppressBlink := true, changingInfo := changingInfo, secondFieldCleared := secondFieldCleared);
    }

    /** The zone-name edit of handleChangeButtonPress: the next zone of the registry, wrapping to 0. */
    method ChangeZoneName()
      requires Valid() && mode == ModeChangeTimeZoneName
      modifies this`suppressBlink, this`changingInfo, this`zoneRegistryIndex
      ensures Valid()
      ensures State() == ChangeStep(lib, old(State()))
    {
      ghost var s0 := State();
      var i := U16(zoneRegistryIndex + 1);
      if i >= lib.registrySize {
        i := 0;
      }
      var tz := lib.createForZoneIndex(i);
      var c := changingInfo.(timeZone := tz, dateTime := lib.convertToTimeZone(changingInfo.dateTime, tz));
      suppressBlink := true;
      zoneRegistryIndex := i;
      changingInfo := c;
      assert State() == s0.(suppressBlink := true, changingInfo := c, zoneRegistryIndex := i);
    }

    /** A held button repeats the press, except in MODE_DATE_TIME, where it would rewrite the EEPROM. */
    method HandleChangeButtonRepeatPress(nowSeconds: int, nowMillis: int)
      requires Valid()
      modifies this
      ensures Valid()
      ensures old(mode) == ModeDateTime ==> State() == old(State())
      ensures old(mode) != ModeDateTime ==>
        State() == UpdateStep(lib, nowSeconds, nowMillis, ChangeStep(lib, old(State())))
    {
      if mode != ModeDateTime {
        HandleChangeButtonPress(nowSeconds, nowMillis);
      }
    }

    method HandleChangeButtonRelease()
      modifies this
      ensures State() == ReleaseStep(old(State()))
    {
      if IsEdit(mode) {
        suppressBlink := false;
      }
    }

    method UpdateDateTime(nowSeconds: int)
      modifies this`clockInfo, this`changingInfo
      ensures State() == DateTimeStep(lib, nowSeconds, old(State()))
    {
      clockInfo := clockInfo.(dateTime := lib.forEpochSeconds(nowSeconds, clockInfo.timeZone));
      if IsDateTimeEdit(mode) && !secondFieldCleared {
        changingInfo := changingInfo.(dateTime := changingInfo.dateTime.(second := clockInfo.dateTime.second));
      }
    }

    method UpdateBlinkState(nowMillis: int)
      modifies this`blinkShowState, this`blinkCycleStartMillis
      ensures State() == old(State()).(blink := Blink.Update(old(State()).blink, nowMillis))
    {
      var duration := U16(U16(nowMillis) - blinkCycleStartMillis);
      if duration < 500 {
        blinkShowState := true;
      } else if duration < 1000 {
        blinkShowState := false;
      } else {
        blinkCycleStartMillis := U16(nowMillis);
      }
    }

    method UpdateRenderingInfo()
      modifies this`presented
      ensures State() == RenderStep(old(State()))
    {
      if mode in {ModeDateTime, ModeTimeZone, ModeAbout} {
        presented := RenderingInfo(mode, suppressBlink, blinkShowState,
                                   clockInfo.hourMode, clockInfo.timeZone, clockInfo.dateTime);
      } else if IsEdit(mode) {
        presented := RenderingInfo(mode, suppressBlink, blinkShowState,
                                   changingInfo.hourMode, changingInfo.timeZone, changingInfo.dateTime);
      }
    }

    /** saveDateTime: the clock is set to the scratch date-time. */
    method SaveDateTime()
      modifies this
      ensures State() == old(State()).(clockWrites := old(clockWrites) + [lib.toEpochSeconds(changingInfo.dateTime)])
    {
      clockWrites := clockWrites + [lib.toEpochSeconds(changingInfo.dateTime)];
    }

    /** saveClockInfo: commit the scratch snapshot and persist it. */
    method SaveClockInfo()
      modifies this
      ensures State() == old(State()).(clockInfo := old(changingInfo),
                                       storeWrites := old(storeWrites) + [StoredOf(old(changingInfo))])
    {
      clockInfo := changingInfo;
      PreserveClockInfo(clockInfo);
    }

    method PreserveClockInfo(info: ClockInfo)
      modifies this
      ensures State() == old(State()).(storeWrites := old(storeWrites) + [StoredOf(info)])
    {
      storeWrites := storeWrites + [StoredOf(info)];
    }

    method RestoreClockInfo(factoryReset: bool, read: StoreRead)
      modifies this
      ensures State() == RestoreStep(initialTimeZone, factoryReset, read, old(State()))
    {
      var isValid := !factoryReset && read.StoreOk?;
      if isValid {
        clockInfo := WithStored(clockInfo, read.stored);
      } else {
        SetupClockInfo();
        PreserveClockInfo(clockInfo);
      }
    }

    method SetupClockInfo()
      modifies this
      ensures State() == old(State()).(clockInfo := old(clockInfo).(hourMode := TwentyFour, timeZone := initialTimeZone))
    {
      clockInfo := clockInfo.(hourMode := TwentyFour, timeZone := initialTimeZone);
    }
  }
}
