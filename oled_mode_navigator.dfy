/**
 * ModeNavigator of OledClock (OledClock/ModeNavigator.h): walks a two-level
 * tree of counted mode groups and keeps the current mode identifier in step
 * with the current group and index.
 */
module OledModeNavigator {
  import opened AceCommon
  import opened ModeGroups

  class ModeNavigator {
    const root: ModeGroup
    var currentModeGroup: ModeGroup
    /** True when currentModeGroup has a parentGroup (the root). */
    var inChild: bool
    var topLevelIndexSave: int
    var currentModeIndex: int
    var mode: int

    function State(): Nav
      reads this
    {
      Nav(currentModeGroup, inChild, currentModeIndex, topLevelIndexSave)
    }

    /** The navigation state is well formed and mode is the entry it points at. */
    ghost predicate Valid()
      reads this
    {
      NavValid(root, Counted, State()) &&
      mode == currentModeGroup.modes[currentModeIndex]
    }

    constructor (rootModeGroup: ModeGroup)
      requires WellFormed(rootModeGroup, Counted)
      ensures Valid()
      ensures root == rootModeGroup && State() == Initial(rootModeGroup)
      ensures mode == rootModeGroup.modes[0]
    {
      root := rootModeGroup;
      currentModeGroup := rootModeGroup;
      inChild := false;
      topLevelIndexSave := 0;
      currentModeIndex := 0;
      mode := rootModeGroup.modes[0];
    }

    /** changeMode: the next sibling, wrapping to 0; numModes calls restore the index (IncrementModPeriod). */
    method ChangeMode()
      requires Valid()
      modifies this`currentModeIndex, this`mode
      ensures Valid()
      ensures State() == ChangeModeCounted(root, old(State()))
      ensures currentModeIndex == IncrementMod(old(currentModeIndex), |currentModeGroup.modes|)
    {
      currentModeIndex := IncrementMod(currentModeIndex, |currentModeGroup.modes|);
      mode := currentModeGroup.modes[currentModeIndex];
    }

    /** changeGroup: child to parent, or root to child, or stay. */
    method ChangeGroup()
      requires Valid()
      modifies this`currentModeGroup, this`inChild, this`topLevelIndexSave, this`currentModeIndex, this`mode
      ensures Valid()
      ensures State() == ModeGroups.ChangeGroup(root, Counted, old(State()))
    {
      if inChild {
        currentModeGroup := root;
        inChild := false;
        currentModeIndex := topLevelIndexSave;
      } else {
        var childGroups := currentModeGroup.childGroups;
        if childGroups.Table? && currentModeIndex < |childGroups.slots| &&
           childGroups.slots[currentModeIndex].Child? {
          currentModeGroup := childGroups.slots[currentModeIndex].group;
          inChild := true;
          topLevelIndexSave := currentModeIndex;
          currentModeIndex := 0;
        }
      }
      mode := currentModeGroup.modes[currentModeIndex];
    }
  }
}
