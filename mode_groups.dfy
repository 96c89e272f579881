/**
 * The two-level mode tree that the OLED and LCD clocks navigate with two
 * buttons: a root group of top-level modes, some of which own a child group
 * of edit modes. A short press steps to the next sibling; a long press
 * enters the child group of the current top-level mode, or returns from a
 * child group to the top-level mode it was entered from.
 *
 * Two layouts of a group's mode list occur. ModeNavigator stores a count
 * (numModes) next to the list; the Controllers of OledClock and WorldClockLcd
 * mark the end of the list with a 0 entry instead.
 */
module ModeGroups {
  import opened AceCommon

  datatype ModeGroup = ModeGroup(modes: seq<int>, childGroups: ChildTable)
  /** The childGroups field: null, or an array whose entries may be null. */
  datatype ChildTable = NoTable | Table(slots: seq<ChildSlot>)
  datatype ChildSlot = NoChild | Child(group: ModeGroup)

  datatype Layout = Counted | ZeroTerminated

  /** The number of modes of a group: the list's length, or its length before the 0 entry. */
  function NumModes(g: ModeGroup, layout: Layout): int
  {
    if layout == Counted then |g.modes| else |g.modes| - 1
  }

  /** A mode list the layout can walk: at least one mode, a uint8 count, and for the zero-terminated layout a single 0 at the end. */
  predicate ModesOk(g: ModeGroup, layout: Layout)
  {
    match layout
    case Counted => 0 < |g.modes| < 256
    case ZeroTerminated =>
      1 < |g.modes| < 256 && g.modes[|g.modes| - 1] == 0 &&
      forall i :: 0 <= i < |g.modes| - 1 ==> g.modes[i] != 0
  }

  /** The child group at index i of g, if the array and the entry both exist. */
  predicate HasChildAt(g: ModeGroup, i: int)
  {
    g.childGroups.Table? && 0 <= i < |g.childGroups.slots| && g.childGroups.slots[i].Child?
  }

  /** A root group whose child table covers every mode and whose children can be walked. */
  predicate WellFormed(root: ModeGroup, layout: Layout)
  {
    ModesOk(root, layout) &&
    (root.childGroups.Table? ==> |root.childGroups.slots| >= NumModes(root, layout)) &&
    forall i :: 0 <= i < NumModes(root, layout) && HasChildAt(root, i) ==> ModesOk(root.childGroups.slots[i].group, layout)
  }

  /**
   * The navigation state: the current group, whether it is a child (its
   * parentGroup is the root), the index within it, and the saved top-level index.
   */
  datatype Nav = Nav(group: ModeGroup, inChild: bool, index: int, topLevelIndexSave: int)

  predicate NavValid(root: ModeGroup, layout: Layout, s: Nav)
  {
    WellFormed(root, layout) &&
    0 <= s.topLevelIndexSave < NumModes(root, layout) &&
    0 <= s.index < NumModes(s.group, layout) &&
    (!s.inChild ==> s.group == root) &&
    (s.inChild ==> HasChildAt(root, s.topLevelIndexSave) &&
                   s.group == root.childGroups.slots[s.topLevelIndexSave].group)
  }

  /** The state after construction: the root group at index 0. */
  function Initial(root: ModeGroup): (s: Nav)
    ensures WellFormed(root, Counted) ==> NavValid(root, Counted, s)
    ensures WellFormed(root, ZeroTerminated) ==> NavValid(root, ZeroTerminated, s)
  {
    Nav(root, false, 0, 0)
  }

  /** The mode the state points at. */
  function CurrentMode(s: Nav): int
    requires 0 <= s.index < |s.group.modes|
  {
    s.group.modes[s.index]
  }

  /**
   * changeGroup: from a child group, back to the root at the saved index;
   * from the root, into the child at the current index (saving that index
   * and starting at 0) when there is one; otherwise nowhere.
   */
  function ChangeGroup(root: ModeGroup, layout: Layout, s: Nav): (r: Nav)
    requires NavValid(root, layout, s)
    ensures NavValid(root, layout, r)
    ensures s.inChild ==> r == Nav(root, false, s.topLevelIndexSave, s.topLevelIndexSave)
    ensures !s.inChild && HasChildAt(root, s.index) ==>
      r == Nav(root.childGroups.slots[s.index].group, true, 0, s.index)
    ensures !s.inChild && !HasChildAt(root, s.index) ==> r == s
  {
    if s.inChild then
      s.(group := root, inChild := false, index := s.topLevelIndexSave)
    else if HasChildAt(s.group, s.index) then
      s.(group := s.group.childGroups.slots[s.index].group, inChild := true,
         topLevelIndexSave := s.index, index := 0)
    else
      s
  }

  /** Into a child group and out again is back where it started, with the index saved. */
  lemma ChangeGroupRoundTrip(root: ModeGroup, layout: Layout, s: Nav)
    requires NavValid(root, layout, s) && !s.inChild && HasChildAt(root, s.index)
    ensures ChangeGroup(root, layout, ChangeGroup(root, layout, s)) == s.(topLevelIndexSave := s.index)
  {
  }

  /** Out of a child group and back in lands in the same child group, at its first mode. */
  lemma ChangeGroupReenter(root: ModeGroup, layout: Layout, s: Nav)
    requires NavValid(root, layout, s) && s.inChild
    ensures ChangeGroup(root, layout, ChangeGroup(root, layout, s)) == s.(index := 0)
  {
  }

  /** The counted layout's changeMode: incrementMod over numModes. */
  function ChangeModeCounted(root: ModeGroup, s: Nav): (r: Nav)
    requires NavValid(root, Counted, s)
    ensures NavValid(root, Counted, r)
    ensures r == s.(index := IncrementMod(s.index, NumModes(s.group, Counted)))
  {
    s.(index := IncrementMod(s.index, |s.group.modes|))
  }

  /** The zero-terminated layout's changeSiblingMode: step, and back to 0 on reaching the 0 entry. */
  function ChangeSibling(root: ModeGroup, s: Nav): (r: Nav)
    requires NavValid(root, ZeroTerminated, s)
    ensures NavValid(root, ZeroTerminated, r)
    ensures r.(index := s.index) == s
  {
    var i := s.index + 1;
    if s.group.modes[i] == 0 then s.(index := 0) else s.(index := i)
  }

  /** Both layouts walk their siblings alike: the zero-terminated step is incrementMod over the count. */
  lemma ChangeSiblingIsIncrementMod(root: ModeGroup, s: Nav)
    requires NavValid(root, ZeroTerminated, s)
    ensures ChangeSibling(root, s).index == IncrementMod(s.index, NumModes(s.group, ZeroTerminated))
  {
    var g := s.group;
    if s.index + 1 < |g.modes| - 1 {
      assert g.modes[s.index + 1] != 0;
    }
  }

  /** A sibling step never lands on the 0 entry: the current mode is always a real mode. */
  lemma ChangeSiblingNeverSentinel(root: ModeGroup, s: Nav)
    requires NavValid(root, ZeroTerminated, s)
    ensures CurrentMode(ChangeSibling(root, s)) != 0
  {
  }
}
