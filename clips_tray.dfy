/**
 * The horizontal tray of clip thumbnails under the remix
 * (OpenCollab/Sources/RemixSupport/ClipsTrayCollectionViewController.swift).
 *
 * The collection view has one section, so an `IndexPath` is its row. The
 * row the collection view shows as selected is `highlighted`; the rows its
 * cells are configured from are the tray's own `slideViews`. The batch
 * update of `reloadClips` completes at once, and the delegate's
 * `didSelectClip(index:)` calls are recorded in `selections`.
 */
module ClipsTray {
  import opened Wrappers
  import opened Slideshow

  datatype TrayState = TrayState(
    slides: seq<SlideView>,
    selectedRow: int,
    selectionEnabled: bool,
    highlighted: Option<int>,
    selections: seq<int>)

  /** An assignment to `selectedIndex`: the collection view follows it only while selection is enabled. */
  function SetSelectedStep(s: TrayState, row: int): TrayState
  {
    if s.selectionEnabled then s.(selectedRow := row, highlighted := Some(row)) else s.(selectedRow := row)
  }

  /** `updateSelectedIndex(index:)`. */
  function UpdateSelectedIndexStep(s: TrayState, index: int): TrayState
  {
    if !(index < |s.slides|) || s.selectedRow == index then s else SetSelectedStep(s, index)
  }

  /** `collectionView(_:didSelectItemAt:)`. */
  function DidSelectItemStep(s: TrayState, hasDelegate: bool, row: int): TrayState
  {
    if !s.selectionEnabled || row == s.selectedRow then s
    else s.(selections := s.selections + if hasDelegate then [row] else [])
  }

  /** `reloadClips(slideViews:)`: the new clips, then the current row selected again. */
  function ReloadClipsStep(s: TrayState, slides: seq<SlideView>): TrayState
  {
    SetSelectedStep(s.(slides := slides), s.selectedRow)
  }

  /** `optimisticallyInsertClip(index:slideView:)`: Swift's `insert` traps past the end. */
  function InsertClipStep(s: TrayState, index: int, slide: SlideView): TrayState
    requires 0 <= index <= |s.slides|
  {
    s.(slides := s.slides[..index] + [slide] + s.slides[index..])
  }

  /**
   * An index past the clips, or the row already selected, changes nothing.
   * Any other index is selected, and shown selected iff selection is
   * enabled. A negative index passes the guard.
   */
  lemma UpdateSelectedIndexGuard(s: TrayState, index: int)
    ensures var t := UpdateSelectedIndexStep(s, index);
            (index >= |s.slides| || index == s.selectedRow ==> t == s)
            && (index < |s.slides| && index != s.selectedRow ==>
                  t.selectedRow == index
                  && (t.highlighted == Some(index) <==> s.selectionEnabled || s.highlighted == Some(index))
                  && t.slides == s.slides && t.selections == s.selections)
  {
  }

  /** The delegate hears of a tapped row exactly when selection is enabled and the row is not the selected one. */
  lemma DidSelectGate(s: TrayState, row: int)
    ensures var t := DidSelectItemStep(s, true, row);
            t.selections == s.selections + [row] <==> s.selectionEnabled && row != s.selectedRow
    ensures var t := DidSelectItemStep(s, true, row);
            t.selections != s.selections + [row] ==> t == s
    ensures DidSelectItemStep(s, true, row).selectedRow == s.selectedRow
  {
    var t := DidSelectItemStep(s, true, row);
    if !(s.selectionEnabled && row != s.selectedRow) {
      assert |t.selections| == |s.selections| < |s.selections + [row]|;
    }
  }

  /** Reloading replaces every clip and keeps the selected row. */
  lemma ReloadReplacesAll(s: TrayState, slides: seq<SlideView>)
    ensures var t := ReloadClipsStep(s, slides);
            t.slides == slides && t.selectedRow == s.selectedRow && t.selections == s.selections
            && (s.selectionEnabled ==> t.highlighted == Some(s.selectedRow))
  {
  }

  /** The clip goes in at `index` and the later ones move one right; the selected row stays put. */
  lemma InsertClipShifts(s: TrayState, index: int, slide: SlideView)
    requires 0 <= index <= |s.slides|
    ensures var t := InsertClipStep(s, index, slide);
            |t.slides| == |s.slides| + 1 && t.slides[index] == slide
            && (forall j :: 0 <= j < index ==> t.slides[j] == s.slides[j])
            && (forall j :: index < j < |t.slides| ==> t.slides[j] == s.slides[j - 1])
            && t.selectedRow == s.selectedRow
  {
  }

  class ClipsTrayCollectionViewController {
    var hasDelegate: bool
    var slideViews: seq<SlideView>
    var selectedRow: int
    var clipSelectionEnabled: bool
    var highlighted: Option<int>
    var selections: seq<int>

    /** `init(layout:)`: row 0 starts selected; the observer does not run during `init`. */
    constructor ()
      ensures View() == TrayState([], 0, true, None, []) && !hasDelegate
    {
      hasDelegate := false;
      slideViews := [];
      selectedRow := 0;
      clipSelectionEnabled := true;
      highlighted := None;
      selections := [];
    }

    function View(): TrayState
      reads this
    {
      TrayState(slideViews, selectedRow, clipSelectionEnabled, highlighted, selections)
    }

    method SetDelegate(hasDelegate: bool)
      modifies this
      ensures View() == old(View()) && this.hasDelegate == hasDelegate
    {
      this.hasDelegate := hasDelegate;
    }

    /** `collectionView(_:numberOfItemsInSection:)`. */
    method NumberOfItems() returns (n: int)
      ensures n == |slideViews|
    {
      n := |slideViews|;
    }

    /** `collectionView(_:cellForItemAt:)`: the slide of the row, shown enabled iff selection is. */
    method CellForItem(row: int) returns (slide: SlideView, enabled: bool)
      requires 0 <= row < |slideViews|
      ensures slide == slideViews[row] && enabled == clipSelectionEnabled
    {
      slide := slideViews[row];
      enabled := clipSelectionEnabled;
    }

    /** An assignment to `selectedIndex`, with its observer. */
    method SetSelectedIndex(row: int)
      modifies this
      ensures View() == SetSelectedStep(old(View()), row) && hasDelegate == old(hasDelegate)
    {
      selectedRow := row;
      if !clipSelectionEnabled {
        return;
      }
      highlighted := Some(selectedRow);
    }

    method DidSelectItem(row: int)
      modifies this
      ensures View() == DidSelectItemStep(old(View()), hasDelegate, row) && hasDelegate == old(hasDelegate)
    {
      if !clipSelectionEnabled || row == selectedRow {
        return;
      }
      if hasDelegate {
        selections := selections + [row];
      }
    }

    /** `collectionView(_:shouldSelectItemAt:)` and `shouldDeselectItemAt`: allowed iff selection is enabled. */
    method ShouldSelectItem(row: int) returns (allowed: bool)
      ensures allowed <==> clipSelectionEnabled
    {
      allowed := clipSelectionEnabled;
    }

    method ShouldDeselectItem(row: int) returns (allowed: bool)
      ensures allowed <==> clipSelectionEnabled
    {
      allowed := clipSelectionEnabled;
    }

    method ReloadClips(slides: seq<SlideView>)
      modifies this
      ensures View() == ReloadClipsStep(old(View()), slides) && hasDelegate == old(hasDelegate)
    {
      slideViews := slides;
      SetSelectedIndex(selectedRow);
    }

    /** `toggleClipSelectionEnabled(enabled:)`; the reload reconfigures the cells from the new flag. */
    method ToggleClipSelectionEnabled(enabled: bool)
      modifies this
      ensures View() == old(View()).(selectionEnabled := enabled) && hasDelegate == old(hasDelegate)
    {
      clipSelectionEnabled := enabled;
    }

    method UpdateSelectedIndex(index: int)
      modifies this
      ensures View() == UpdateSelectedIndexStep(old(View()), index) && hasDelegate == old(hasDelegate)
    {
      if !(index < |slideViews|) || selectedRow == index {
        return;
      }
      SetSelectedIndex(index);
    }

    method OptimisticallyInsertClip(index: int, slide: SlideView)
      requires 0 <= index <= |slideViews|
      modifies this
      ensures View() == InsertClipStep(old(View()), index, slide) && hasDelegate == old(hasDelegate)
    {
      slideViews := slideViews[..index] + [slide] + slideViews[index..];
    }
  }
}
