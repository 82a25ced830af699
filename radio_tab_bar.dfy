/**
 * The header of the clips tray: a row of tabs of which one is active
 * (CollabOpenSource/Sources/CustomComponents/RadioTabBarViewController.swift).
 *
 * A `RadioTabView` is a reference, so a tab is its identity and its
 * `isActive` flag is membership of the set `active`, which also holds
 * the flags of tabs not in this bar. The stack view and gesture
 * recognisers are left to UIKit; a tap names the tapped tab, and the
 * delegate's `didTapTabView(_:)` calls are recorded in `taps`.
 */
module RadioTabBar {
  import opened Wrappers
  import opened Collections

  type TabId = nat

  datatype TabBarState = TabBarState(tabs: seq<TabId>, selectedIndex: int, active: set<TabId>, taps: seq<int>)

  /** The tabs of the bar other than the one at `index`. */
  function OthersOf(tabs: seq<TabId>, index: int): set<TabId>
  {
    set i | 0 <= i < |tabs| && i != index :: tabs[i]
  }

  /** `selectedIndex`'s observer once past its guard: the tab at `index` on, then every other tab off. */
  function MakeActive(tabs: seq<TabId>, active: set<TabId>, index: int): set<TabId>
    requires 0 <= index < |tabs|
  {
    (active + {tabs[index]}) - OthersOf(tabs, index)
  }

  /**
   * An assignment to `selectedIndex`. The observer acts only on an index
   * below the tab count that differs from the old one; a negative such
   * index traps on `tabs[selectedIndex]`.
   */
  function SetSelectedIndexStep(s: TabBarState, index: int): TabBarState
    requires index >= 0 || index == s.selectedIndex
  {
    if index < |s.tabs| && index != s.selectedIndex then s.(selectedIndex := index, active := MakeActive(s.tabs, s.active, index))
    else s.(selectedIndex := index)
  }

  /**
   * With every tab in the bar once, selecting another tab makes it the
   * only active tab of the bar, and tabs outside the bar keep their flags.
   */
  lemma SelectMakesOnlyActive(s: TabBarState, index: int)
    requires Distinct(s.tabs)
    requires 0 <= index < |s.tabs| && index != s.selectedIndex
    ensures var t := SetSelectedIndexStep(s, index);
            t.selectedIndex == index
            && (forall i :: 0 <= i < |s.tabs| ==> (s.tabs[i] in t.active <==> i == index))
            && (forall tab :: tab !in s.tabs ==> (tab in t.active <==> tab in s.active))
  {
    var t := SetSelectedIndexStep(s, index);
    forall i | 0 <= i < |s.tabs|
      ensures s.tabs[i] in t.active <==> i == index
    {
      if i == index {
        assert s.tabs[index] !in OthersOf(s.tabs, index);
      } else {
        assert s.tabs[i] in OthersOf(s.tabs, index);
      }
    }
  }

  /** An index past the tabs, or the index already selected, changes no tab's flag. */
  lemma SelectOutOfRangeOrSameChangesNoFlag(s: TabBarState, index: int)
    requires index >= |s.tabs| || index == s.selectedIndex
    ensures SetSelectedIndexStep(s, index).active == s.active
    ensures SetSelectedIndexStep(s, index).selectedIndex == index
  {
  }

  /** `addTab(_:)`: the tab goes last, and is activated only when it is the bar's first. */
  function AddTabStep(s: TabBarState, tab: TabId): TabBarState
  {
    var tabs := s.tabs + [tab];
    s.(tabs := tabs, active := if |tabs| == 1 then s.active + {tab} else s.active)
  }

  lemma AddTabActivatesOnlyFirst(s: TabBarState, tab: TabId)
    ensures var t := AddTabStep(s, tab);
            t.tabs == s.tabs + [tab] && t.selectedIndex == s.selectedIndex
            && (s.tabs == [] ==> t.active == s.active + {tab})
            && (s.tabs != [] ==> t.active == s.active)
  {
  }

  /** `changeTabs(_:)`: a tap on a tab of the bar reports the tab's first position. */
  function ChangeTabsStep(s: TabBarState, hasDelegate: bool, tab: TabId): TabBarState
  {
    match FirstIndex(s.tabs, tab)
    case None => s
    case Some(i) => s.(taps := s.taps + if hasDelegate then [i] else [])
  }

  /** A tap reports the tab's first position in the bar, or nothing for a tab not in it; it selects nothing itself. */
  lemma TapReportsFirstPosition(s: TabBarState, tab: TabId)
    ensures var t := ChangeTabsStep(s, true, tab);
            (tab !in s.tabs ==> t == s)
            && (tab in s.tabs ==>
                  exists i :: 0 <= i < |s.tabs| && s.tabs[i] == tab && (forall j :: 0 <= j < i ==> s.tabs[j] != tab)
                              && t.taps == s.taps + [i])
            && t.selectedIndex == s.selectedIndex && t.active == s.active
  {
    if tab in s.tabs {
      var i := FirstIndex(s.tabs, tab).value;
      assert s.tabs[i] == tab;
    }
  }

  /**
   * `configureUI()` assigns 0 to a `selectedIndex` that is already 0, so
   * the observer's guard stops it and the tabs `init` was given keep their
   * flags: fresh tabs stay inactive.
   */
  lemma InitialAssignmentChangesNothing(tabs: seq<TabId>, active: set<TabId>)
    ensures SetSelectedIndexStep(TabBarState(tabs, 0, active, []), 0) == TabBarState(tabs, 0, active, [])
  {
  }

  /**
   * The loop of `selectedIndex`'s observer: after the selected tab is set
   * active, every other tab of the bar is set inactive in turn.
   */
  method DeactivateOthers(tabs: seq<TabId>, active: set<TabId>, index: int) returns (result: set<TabId>)
    requires 0 <= index < |tabs|
    ensures result == MakeActive(tabs, active, index)
  {
    result := active + {tabs[index]};
    var i := 0;
    while i < |tabs|
      invariant 0 <= i <= |tabs|
      invariant result == (active + {tabs[index]}) - (set j | 0 <= j < i && j != index :: tabs[j])
    {
      if i != index {
        result := result - {tabs[i]};
      }
      assert (set j | 0 <= j < i + 1 && j != index :: tabs[j])
          == (set j | 0 <= j < i && j != index :: tabs[j]) + (if i != index then {tabs[i]} else {});
      i := i + 1;
    }
  }

  class RadioTabBarControlView {
    var tabs: seq<TabId>
    var selectedIndex: int
    var active: set<TabId>
    var hasDelegate: bool
    var taps: seq<int>

    /** `init(tabs:)`, given the tabs and the flags they carry; `configureUI()` assigns 0 to `selectedIndex`. */
    constructor (tabs: seq<TabId>, active: set<TabId>)
      ensures View() == TabBarState(tabs, 0, active, []) && !hasDelegate
    {
      this.tabs := tabs;
      selectedIndex := 0;
      this.active := active;
      hasDelegate := false;
      taps := [];
      new;
      SetSelectedIndex(0);
    }

    /** `init?(coder:)`: no tabs. */
    constructor FromCoder(active: set<TabId>)
      ensures View() == TabBarState([], 0, active, []) && !hasDelegate
    {
      tabs := [];
      selectedIndex := 0;
      this.active := active;
      hasDelegate := false;
      taps := [];
      new;
      SetSelectedIndex(0);
    }

    function View(): TabBarState
      reads this
    {
      TabBarState(tabs, selectedIndex, active, taps)
    }

    method SetDelegate(hasDelegate: bool)
      modifies this
      ensures View() == old(View()) && this.hasDelegate == hasDelegate
    {
      this.hasDelegate := hasDelegate;
    }

    /** An assignment to `selectedIndex`, with its observer. */
    method SetSelectedIndex(index: int)
      requires index >= 0 || index == selectedIndex
      modifies this
      ensures View() == SetSelectedIndexStep(old(View()), index) && hasDelegate == old(hasDelegate)
    {
      var oldValue := selectedIndex;
      selectedIndex := index;
      if !(selectedIndex < |tabs| && selectedIndex != oldValue) {
        return;
      }
      active := DeactivateOthers(tabs, active, selectedIndex);
    }

    method AddTab(tab: TabId)
      modifies this
      ensures View() == AddTabStep(old(View()), tab) && hasDelegate == old(hasDelegate)
    {
      tabs := tabs + [tab];
      if |tabs| == 1 {
        active := active + {tab};
      }
    }

    /** `getTabItemForTabView(_:)`. */
    method GetTabItemForTabView(tab: TabId) returns (index: Option<nat>)
      ensures index.Some? ==> index.value < |tabs| && tabs[index.value] == tab
                              && forall j :: 0 <= j < index.value ==> tabs[j] != tab
      ensures index.None? <==> tab !in tabs
    {
      index := FirstIndex(tabs, tab);
    }

    method ChangeTabs(tab: TabId)
      modifies this
      ensures View() == ChangeTabsStep(old(View()), hasDelegate, tab) && hasDelegate == old(hasDelegate)
    {
      var newIndex := GetTabItemForTabView(tab);
      if newIndex.Some? && hasDelegate {
        taps := taps + [newIndex.value];
      }
    }
  }
}
