/**
 * The remix screen: one row ("rank") per clip of the collab, each a
 * slideshow over a row of fragment controllers, plus the record flow
 * (OpenCollab/Sources/ViewControllers/RemixViewController.swift).
 *
 * Three parallel arrays describe the ranks: the session's
 * `selectedFragments` (kept by the `PlaybackDataModel`), the
 * `fragmentMatrix` rows and the `slideshows`. A fragment controller is a
 * `FragmentCell` value; a slideshow is known by a serial number, and the
 * selected slideshow by its number. The random clip the data model would
 * draw is the parameter `randomClip`, and whether headphones are connected
 * is `headphonesConnected`. Each of the Add, Preview and Delete controls is
 * one flag.
 *
 * The rank operations are functions from `Ranks` to `Ranks`; the methods of
 * `RemixViewController` are proved to perform them.
 */
module RemixView {
  import opened Wrappers
  import opened Collections
  import opened Extensions
  import opened AssetInfoModel
  import opened FragmentHostModel
  import opened PlaybackData

  /** `Constants.maxClipsPerCollab`. */
  const MaxClipsPerCollab: nat := 6
  /** `Constants.firstFragmentIndex`: slot 0 of a row is the record placeholder. */
  const FirstFragmentIndex: nat := 1

  datatype RecordState = RecordNone | PromptForHeadphones | PromptForMetronomeNux | Done

  datatype RemixState = RemixNone | Remix | Record

  /** `calculateNextState(currentState:)`. */
  function CalculateNextState(current: RecordState, headphonesConnected: bool): RecordState
  {
    match current
    case RecordNone => if headphonesConnected then Done else PromptForHeadphones
    case PromptForHeadphones => Done
    case Done => Done
    case PromptForMetronomeNux => Done
  }

  /**
   * The record flow asks for headphones only from its start and only when
   * none are connected, and reaches `done` within two steps, where it stays.
   */
  lemma RecordFlowReachesDone(s: RecordState, h1: bool, h2: bool)
    ensures CalculateNextState(s, h1) == PromptForHeadphones <==> s == RecordNone && !h1
    ensures CalculateNextState(s, h1) in {PromptForHeadphones, Done}
    ensures CalculateNextState(CalculateNextState(s, h1), h2) == Done
  {
  }

  /** `nextCreationState()`; the flag is `invalidSingleClip`, cleared on the way to recording. */
  function NextCreationState(s: RemixState, invalidSingleClip: bool): (RemixState, bool)
  {
    match s
    case RemixNone => (Remix, invalidSingleClip)
    case Remix => (Record, false)
    case Record => (Remix, invalidSingleClip)
  }

  /**
   * The creation state cycles none, remix, record, remix, ...: after the
   * first step it alternates and never returns to none.
   */
  lemma CreationStateCycles(s: RemixState, flag: bool)
    ensures NextCreationState(s, flag).0 != RemixNone
    ensures s != RemixNone ==> NextCreationState(NextCreationState(s, flag).0, flag).0 == s
    ensures NextCreationState(s, flag).0 == Record ==> !NextCreationState(s, flag).1
    ensures NextCreationState(s, flag).0 == Remix ==> NextCreationState(s, flag).1 == flag
  {
  }

  // ---------------------------------------------------------------------
  // Rows of the fragment matrix

  datatype FragmentCell = FragmentCell(
    fragment: FragmentHost,
    editable: bool,
    takeNumber: Option<int>,
    isRecordPlaceholderFragment: bool)

  /** What `buildFragmentMatrixRow` and friends read from the data model. */
  datatype Library = Library(
    recordFragment: Option<FragmentHost>,
    takeFragments: seq<FragmentHost>,
    poolFragments: seq<FragmentHost>,
    isCFS: bool)

  function PlaceholderCell(f: FragmentHost): FragmentCell
  {
    FragmentCell(f, false, None, true)
  }

  function PoolCell(f: FragmentHost): FragmentCell
  {
    FragmentCell(Copy(f), false, None, false)
  }

  /** The takes in recording order, numbered from 1; the first take of a from-scratch creation cannot be nudged. */
  function TakeCells(takes: seq<FragmentHost>, isCFS: bool): (r: seq<FragmentCell>)
    ensures |r| == |takes|
    ensures forall i :: 0 <= i < |takes| ==>
              r[i] == FragmentCell(Copy(takes[i]), !(isCFS && i == 0), Some(i + 1), false)
  {
    seq(|takes|, i requires 0 <= i < |takes| => FragmentCell(Copy(takes[i]), !(isCFS && i == 0), Some(i + 1), false))
  }

  function PoolCells(pool: seq<FragmentHost>): (r: seq<FragmentCell>)
    ensures |r| == |pool|
    ensures forall i :: 0 <= i < |pool| ==> r[i] == PoolCell(pool[i])
  {
    seq(|pool|, i requires 0 <= i < |pool| => PoolCell(pool[i]))
  }

  /** `buildFragmentMatrixRow()`. */
  function BuildFragmentMatrixRow(lib: Library): seq<FragmentCell>
  {
    if lib.recordFragment.None? then []
    else [PlaceholderCell(lib.recordFragment.value)] + Reversed(TakeCells(lib.takeFragments, lib.isCFS))
         + PoolCells(lib.poolFragments)
  }

  /**
   * A row is the placeholder, then the takes newest first with their
   * 1-based numbers (editable except the first take of a from-scratch
   * creation), then the pool; with no record fragment it is empty.
   */
  lemma RowLayout(lib: Library)
    ensures lib.recordFragment.None? ==> BuildFragmentMatrixRow(lib) == []
    ensures lib.recordFragment.Some? ==>
              var row := BuildFragmentMatrixRow(lib);
              var n := |lib.takeFragments|;
              |row| == 1 + n + |lib.poolFragments|
              && row[0] == PlaceholderCell(lib.recordFragment.value)
              && (forall j :: 1 <= j <= n ==>
                    row[j] == FragmentCell(Copy(lib.takeFragments[n - j]), !(lib.isCFS && n - j == 0), Some(n - j + 1), false))
              && (forall j :: 1 + n <= j < |row| ==> row[j] == PoolCell(lib.poolFragments[j - 1 - n]))
  {
    if lib.recordFragment.Some? {
      var n := |lib.takeFragments|;
      var takes := Reversed(TakeCells(lib.takeFragments, lib.isCFS));
      var pool := PoolCells(lib.poolFragments);
      var row := [PlaceholderCell(lib.recordFragment.value)] + takes + pool;
      assert row == BuildFragmentMatrixRow(lib);
      forall j | 1 <= j <= n
        ensures row[j] == FragmentCell(Copy(lib.takeFragments[n - j]), !(lib.isCFS && n - j == 0), Some(n - j + 1), false)
      {
        assert row[j] == takes[j - 1];
      }
      forall j | 1 + n <= j < |row|
        ensures row[j] == PoolCell(lib.poolFragments[j - 1 - n])
      {
        assert row[j] == pool[j - 1 - n];
      }
    }
  }

  /**
   * The row `buildInitialFragmentMatrix` gives a selected fragment: an
   * empty clip that is not the placeholder is not in the pool, so it is
   * appended to its own row.
   */
  function InitialRow(lib: Library, fragment: FragmentHost): seq<FragmentCell>
  {
    BuildFragmentMatrixRow(lib)
    + (if !fragment.isRecordPlaceholder && IsEmpty(fragment.assetInfo) then [PoolCell(fragment)] else [])
  }

  /**
   * The ranks `init` builds: one initial row per selected clip, slideshow
   * `j` for rank `j`, and the selected slideshow the next number, in no rank.
   */
  lemma InitialRanksAligned(lib: Library, r: Ranks)
    requires lib.recordFragment.Some?
    requires Parallel(r)
    requires forall k :: 0 <= k < |r.matrix| ==> r.matrix[k] == InitialRow(lib, r.selected[k])
    requires forall j :: 0 <= j < |r.slideshows| ==> r.slideshows[j] == j
    requires r.selectedSlideshow == |r.slideshows| && r.nextSlideshow == r.selectedSlideshow + 1
    ensures Aligned(r) && SelectedRank(r) == None
    ensures forall k :: 0 <= k < |r.matrix| ==> |r.matrix[k]| >= FirstFragmentIndex
  {
    assert FirstIndex(r.slideshows, r.selectedSlideshow).None?;
    forall k | 0 <= k < |r.matrix|
      ensures |r.matrix[k]| >= FirstFragmentIndex
    {
      InitialRowStartsWithPlaceholder(lib, r.selected[k]);
    }
  }

  /** With a record fragment, every initial row has the placeholder's slot. */
  lemma InitialRowStartsWithPlaceholder(lib: Library, fragment: FragmentHost)
    requires lib.recordFragment.Some?
    ensures |InitialRow(lib, fragment)| >= FirstFragmentIndex
    ensures InitialRow(lib, fragment)[0] == PlaceholderCell(lib.recordFragment.value)
  {
  }

  /** The takes `updateTakeFragmentsInMatrix` creates, numbered on from `start`, all editable. */
  function NewTakeCells(takes: seq<FragmentHost>, start: int): (r: seq<FragmentCell>)
    ensures |r| == |takes|
    ensures forall i :: 0 <= i < |takes| ==> r[i] == FragmentCell(Copy(takes[i]), true, Some(start + i), false)
  {
    seq(|takes|, i requires 0 <= i < |takes| => FragmentCell(Copy(takes[i]), true, Some(start + i), false))
  }

  /** Each new take inserted in turn at index 1: they end up after the placeholder, last one first. */
  function WithNewTakes(row: seq<FragmentCell>, takes: seq<FragmentHost>, start: int): seq<FragmentCell>
    requires |row| >= FirstFragmentIndex
  {
    row[..FirstFragmentIndex] + Reversed(NewTakeCells(takes, start)) + row[FirstFragmentIndex..]
  }

  lemma ReversedAppend<T>(a: seq<T>, b: seq<T>)
    ensures Reversed(a + b) == Reversed(b) + Reversed(a)
  {
    var l := Reversed(a + b);
    var r := Reversed(b) + Reversed(a);
    assert |l| == |r|;
    forall k | 0 <= k < |l|
      ensures l[k] == r[k]
    {
      if k < |b| {
        assert l[k] == (a + b)[|a| + |b| - 1 - k];
      } else {
        assert l[k] == (a + b)[|a| + |b| - 1 - k];
      }
    }
  }

  /** New takes after the earlier ones add cells numbered on from the earlier count, all editable. */
  lemma TakeCellsAppend(old_: seq<FragmentHost>, takes: seq<FragmentHost>, isCFS: bool)
    requires !isCFS || |old_| >= 1
    ensures TakeCells(old_ + takes, isCFS) == TakeCells(old_, isCFS) + NewTakeCells(takes, |old_| + 1)
  {
    var all := old_ + takes;
    var l := TakeCells(all, isCFS);
    var r := TakeCells(old_, isCFS) + NewTakeCells(takes, |old_| + 1);
    assert |l| == |r|;
    forall k | 0 <= k < |l|
      ensures l[k] == r[k]
    {
      if k < |old_| {
        assert all[k] == old_[k];
      } else {
        assert all[k] == takes[k - |old_|];
      }
    }
  }

  /**
   * Inserting new takes into a row built from the earlier takes, numbered
   * on from the earlier count, gives the row built from all the takes,
   * unless the new take is the very first of a from-scratch creation
   * (which `buildFragmentMatrixRow` would make not editable).
   */
  lemma NewTakesContinueRow(lib: Library, takes: seq<FragmentHost>)
    requires lib.recordFragment.Some?
    requires !lib.isCFS || |lib.takeFragments| >= 1
    ensures WithNewTakes(BuildFragmentMatrixRow(lib), takes, |lib.takeFragments| + 1)
            == BuildFragmentMatrixRow(lib.(takeFragments := lib.takeFragments + takes))
  {
    var old_ := lib.takeFragments;
    var all := old_ + takes;
    var row := BuildFragmentMatrixRow(lib);
    var ph := [PlaceholderCell(lib.recordFragment.value)];
    assert row[..1] == ph;
    assert row[1..] == Reversed(TakeCells(old_, lib.isCFS)) + PoolCells(lib.poolFragments);
    var added := NewTakeCells(takes, |old_| + 1);
    TakeCellsAppend(old_, takes, lib.isCFS);
    ReversedAppend(TakeCells(old_, lib.isCFS), added);
  }

  // ---------------------------------------------------------------------
  // The three parallel arrays

  /** The Add, Preview and Delete controls (`isUserInteractionEnabled`, `shouldShowDeletionUI`). */
  datatype Buttons = Buttons(addEnabled: bool, previewEnabled: bool, deleteVisible: bool)

  datatype Ranks = Ranks(
    selected: seq<FragmentHost>,
    canNotify: bool,
    notifications: seq<Notification>,
    matrix: seq<seq<FragmentCell>>,
    slideshows: seq<nat>,
    selectedSlideshow: nat,
    nextSlideshow: nat,
    buttons: Buttons,
    recordPreviewActive: bool,
    recordState: RecordState)

  /**
   * The arrays hold one entry per rank, the slideshows are different and
   * every slideshow made so far, the selected one included, has a number
   * below `nextSlideshow`.
   */
  predicate Aligned(r: Ranks)
  {
    Parallel(r)
    && Distinct(r.slideshows)
    && (forall i :: 0 <= i < |r.slideshows| ==> r.slideshows[i] < r.nextSlideshow)
    && r.selectedSlideshow < r.nextSlideshow
  }

  /** One entry per rank in each of the three arrays. */
  predicate Parallel(r: Ranks)
  {
    |r.selected| == |r.matrix| == |r.slideshows|
  }

  /** `selectedRank`. */
  function SelectedRank(r: Ranks): Option<nat>
  {
    FirstIndex(r.slideshows, r.selectedSlideshow)
  }

  predicate HasRecordPlaceholder(selected: seq<FragmentHost>)
  {
    exists i :: 0 <= i < |selected| && selected[i].isRecordPlaceholder
  }

  /** `toggleAddButtonVisibility(enabled:)`. */
  function AddButtonEnabled(matrix: seq<seq<FragmentCell>>, enabled: bool): bool
  {
    !(|matrix| >= MaxClipsPerCollab) && enabled
  }

  /** `toggleDeleteButtonsVisibility(enabled:)`. */
  function DeleteButtonsVisible(selected: seq<FragmentHost>, enabled: bool): bool
  {
    !(|selected| < 2) && enabled
  }

  /** `togglePreviewButtonVisibility(enabled:)` with `previewButtonVisibility()`. */
  function PreviewButtonEnabled(selected: seq<FragmentHost>, enabled: bool): bool
  {
    !HasRecordPlaceholder(selected) && enabled
  }

  /** A rank showing the placeholder keeps Preview off. */
  lemma PlaceholderDisablesPreview(selected: seq<FragmentHost>)
    requires |selected| > 0 && selected[|selected| - 1].isRecordPlaceholder
    ensures !PreviewButtonEnabled(selected, true)
  {
  }

  /** The three toggles, as `fragmentMatrix`'s observer and `interactionsAreLocked`'s run them. */
  function RefreshButtons(r: Ranks, enabled: bool): Ranks
  {
    r.(buttons := Buttons(AddButtonEnabled(r.matrix, enabled), PreviewButtonEnabled(r.selected, enabled),
                          DeleteButtonsVisible(r.selected, enabled)))
  }

  /** Add is off iff the matrix is full or interactions are locked; Delete iff one rank or locked; Preview iff a placeholder is selected or locked. */
  lemma ButtonRules(r: Ranks, locked: bool)
    ensures var b := RefreshButtons(r, !locked).buttons;
            (!b.addEnabled <==> |r.matrix| >= 6 || locked)
            && (!b.deleteVisible <==> |r.selected| < 2 || locked)
            && (!b.previewEnabled <==> locked || exists i :: 0 <= i < |r.selected| && r.selected[i].isRecordPlaceholder)
  {
  }

  /**
   * An assignment to the data model's `selectedFragments`: while
   * `canNotify` is set the change is reported and the controller, as the
   * model's delegate, runs `selectedFragmentsChanged()` at once.
   */
  function AssignSelected(r: Ranks, fragments: seq<FragmentHost>): (t: Ranks)
    requires r.canNotify ==> |r.slideshows| <= |fragments|
    ensures t.selected == fragments && t.canNotify == r.canNotify
    ensures t.matrix == r.matrix && t.slideshows == r.slideshows
    ensures t.selectedSlideshow == r.selectedSlideshow && t.nextSlideshow == r.nextSlideshow
  {
    var r1 := r.(selected := fragments,
                 notifications := r.notifications + (if r.canNotify then [SelectedFragmentsChanged] else []));
    if r.canNotify then SelectionChangedStep(r1) else r1
  }

  /**
   * `selectedFragmentsChanged()`: Preview is refreshed; then a selected
   * rank showing the placeholder sets the record preview up, any other
   * selected rank takes it down. The tray and the slideshows' scrolling
   * are not modelled.
   */
  function SelectionChangedStep(r: Ranks): (t: Ranks)
    requires |r.slideshows| <= |r.selected|
    ensures t == r.(buttons := t.buttons, recordPreviewActive := t.recordPreviewActive, recordState := t.recordState)
  {
    var r1 := r.(buttons := r.buttons.(previewEnabled := PreviewButtonEnabled(r.selected, true)));
    match SelectedRank(r1)
    case None => r1
    case Some(k) => if r1.selected[k].isRecordPlaceholder then SetupRecordStep(r1) else RemoveCaptureViewStep(r1)
  }

  /** `setupRecord(rank:)`, up to the asynchronous camera set-up: a no-op while the preview is up. */
  function SetupRecordStep(r: Ranks): Ranks
  {
    if r.recordPreviewActive then r else r.(recordPreviewActive := true, recordState := RecordNone)
  }

  /** `removeCaptureView()`, as far as the flag goes; its guard on the selected rank is checked by the caller. */
  function RemoveCaptureViewStep(r: Ranks): Ranks
  {
    r.(recordPreviewActive := false)
  }

  /** The record preview is up exactly while the selected rank shows the placeholder. */
  predicate PreviewFollowsSelection(r: Ranks)
    requires |r.slideshows| <= |r.selected|
  {
    SelectedRank(r).Some? ==> (r.recordPreviewActive <==> r.selected[SelectedRank(r).value].isRecordPlaceholder)
  }

  /**
   * After the report the preview follows the selection, and with no
   * selected rank it is left alone; the record flow restarts only when the
   * preview comes up; nothing but Preview and the two flags changes.
   */
  lemma SelectionChangedSyncsPreview(r: Ranks)
    requires |r.slideshows| <= |r.selected|
    ensures var t := SelectionChangedStep(r);
            PreviewFollowsSelection(t)
            && (SelectedRank(r).None? ==> t.recordPreviewActive == r.recordPreviewActive && t.recordState == r.recordState)
            && (t.recordState != r.recordState ==> !r.recordPreviewActive && t.recordPreviewActive && t.recordState == RecordNone)
            && t.buttons == r.buttons.(previewEnabled := PreviewButtonEnabled(r.selected, true))
            && t.(buttons := r.buttons, recordPreviewActive := r.recordPreviewActive, recordState := r.recordState) == r
  {
  }

  /**
   * An assignment to `selectedSlideshow`: moving away from a rank that
   * shows the record placeholder puts a random clip there first (a
   * reported change, so the delegate runs for the rank being left); the
   * observer then runs `selectedFragmentsChanged()` for the new rank.
   */
  function SelectSlideshow(r: Ranks, slideshow: nat, randomClip: Option<FragmentHost>): (t: Ranks)
    requires |r.slideshows| == |r.selected|
    ensures |t.selected| == |r.selected| && t.matrix == r.matrix && t.slideshows == r.slideshows
    ensures t.nextSlideshow == r.nextSlideshow && t.canNotify == r.canNotify && t.selectedSlideshow == slideshow
  {
    if slideshow == r.selectedSlideshow then r
    else SelectionChangedStep(LeaveRank(r, randomClip).(selectedSlideshow := slideshow))
  }

  /** The `willSet` of `selectedSlideshow`: a placeholder in the rank being left gives way to the random clip. */
  function LeaveRank(r: Ranks, randomClip: Option<FragmentHost>): (t: Ranks)
    requires |r.slideshows| == |r.selected|
    ensures |t.selected| == |r.selected| && t.canNotify == r.canNotify
    ensures t.matrix == r.matrix && t.slideshows == r.slideshows
    ensures t.selectedSlideshow == r.selectedSlideshow && t.nextSlideshow == r.nextSlideshow
    ensures forall i :: 0 <= i < |r.selected| && Some(i) != SelectedRank(r) ==> t.selected[i] == r.selected[i]
    ensures SelectedRank(r).Some? && randomClip.Some? && r.selected[SelectedRank(r).value].isRecordPlaceholder
            ==> t.selected[SelectedRank(r).value] == randomClip.value
    ensures t.recordState == r.recordState || t.recordState == RecordNone
  {
    var rank := SelectedRank(r);
    if rank.Some? && r.selected[rank.value].isRecordPlaceholder && randomClip.Some?
    then
      var t := AssignSelected(r, r.selected[rank.value := randomClip.value]);
      assert t.recordState == r.recordState || t.recordState == RecordNone by {
        if r.canNotify {
          SelectionChangedSyncsPreview(r.(selected := t.selected, notifications := t.notifications));
        }
      }
      t
    else r
  }

  /** Selecting changes no array shape, and the only clip it may change is the one it leaves. */
  lemma SelectKeepsRanks(r: Ranks, slideshow: nat, randomClip: Option<FragmentHost>)
    requires Aligned(r)
    requires slideshow < r.nextSlideshow
    ensures var t := SelectSlideshow(r, slideshow, randomClip);
            Aligned(t) && t.matrix == r.matrix && t.slideshows == r.slideshows
            && t.nextSlideshow == r.nextSlideshow && t.selectedSlideshow == slideshow
            && (forall i :: 0 <= i < |r.selected| && Some(i) != SelectedRank(r) ==> t.selected[i] == r.selected[i])
            && (slideshow != r.selectedSlideshow && SelectedRank(r).Some? && randomClip.Some?
                && r.selected[SelectedRank(r).value].isRecordPlaceholder
                ==> t.selected[SelectedRank(r).value] == randomClip.value)
            && (slideshow != r.selectedSlideshow ==> PreviewFollowsSelection(t))
            && (t.recordState == r.recordState || t.recordState == RecordNone)
            && t.canNotify == r.canNotify
  {
    if slideshow != r.selectedSlideshow {
      SelectionChangedSyncsPreview(LeaveRank(r, randomClip).(selectedSlideshow := slideshow));
    }
  }

  /** `addNewRankToCollab()`: the data model's `canNotify` is left off when there is no record fragment. */
  function AddNewRank(r: Ranks, lib: Library, randomClip: Option<FragmentHost>): Ranks
    requires |r.slideshows| == |r.selected|
  {
    if lib.recordFragment.None? then r.(canNotify := false)
    else SelectSlideshow(AppendRank(r, lib), r.nextSlideshow, randomClip)
  }

  /**
   * The appends of `addNewRankToCollab()`: the placeholder is appended
   * while notifications are off, then a new row and a new slideshow; the
   * row's observer refreshes the buttons.
   */
  function AppendRank(r: Ranks, lib: Library): (t: Ranks)
    requires lib.recordFragment.Some?
    ensures t.selected == r.selected + [lib.recordFragment.value] && t.canNotify
    ensures t.matrix == r.matrix + [BuildFragmentMatrixRow(lib)] && t.slideshows == r.slideshows + [r.nextSlideshow]
    ensures t.selectedSlideshow == r.selectedSlideshow && t.nextSlideshow == r.nextSlideshow + 1
    ensures t.recordPreviewActive == r.recordPreviewActive && t.recordState == r.recordState
    ensures t.notifications == r.notifications
  {
    var r1 := AssignSelected(r.(canNotify := false), r.selected + [lib.recordFragment.value]).(canNotify := true);
    var r2 := RefreshButtons(r1.(matrix := r1.matrix + [BuildFragmentMatrixRow(lib)]), true);
    r2.(slideshows := r2.slideshows + [r.nextSlideshow], nextSlideshow := r.nextSlideshow + 1)
  }

  /** `didSelectAddButton(_:)`: refused once six clips are selected. */
  function DidSelectAdd(r: Ranks, lib: Library, randomClip: Option<FragmentHost>): Ranks
    requires |r.slideshows| == |r.selected|
  {
    if |r.selected| < MaxClipsPerCollab then AddNewRank(r, lib, randomClip) else r
  }

  lemma AddIsRefusedWhenFull(r: Ranks, lib: Library, randomClip: Option<FragmentHost>)
    requires |r.slideshows| == |r.selected|
    requires |r.selected| >= 6
    ensures DidSelectAdd(r, lib, randomClip) == r
  {
  }

  /**
   * Adding a rank appends the record placeholder, a freshly built row and a
   * new slideshow together, and selects the new last rank; of the earlier
   * clips only the one the selection left may change.
   */
  lemma {:induction false} AddAppendsToAllThree(r: Ranks, lib: Library, randomClip: Option<FragmentHost>)
    requires Aligned(r)
    requires lib.recordFragment.Some?
    ensures var t := AddNewRank(r, lib, randomClip);
            var n := |r.selected|;
            Aligned(t)
            && |t.selected| == n + 1 && t.selected[n] == lib.recordFragment.value
            && (forall i :: 0 <= i < n && Some(i) != SelectedRank(r) ==> t.selected[i] == r.selected[i])
            && t.matrix == r.matrix + [BuildFragmentMatrixRow(lib)]
            && t.slideshows == r.slideshows + [r.nextSlideshow]
            && SelectedRank(t) == Some(n)
            && t.canNotify
  {
    var n := |r.selected|;
    var r3 := AppendRank(r, lib);
    assert Aligned(r3);
    assert FirstIndex(r3.slideshows, r.selectedSlideshow) == FirstIndex(r.slideshows, r.selectedSlideshow) by {
      FirstIndexAfterAppend(r.slideshows, r.nextSlideshow, r.selectedSlideshow);
    }
    SelectKeepsRanks(r3, r.nextSlideshow, randomClip);
    var t := SelectSlideshow(r3, r.nextSlideshow, randomClip);
    assert t == AddNewRank(r, lib, randomClip);
    FirstIndexDistinct(t.slideshows, n);
  }

  /** The new rank shows the record fragment, so adding a rank sets the record preview up when that is the placeholder. */
  lemma {:induction false} AddSetsUpRecordPreview(r: Ranks, lib: Library, randomClip: Option<FragmentHost>)
    requires Aligned(r)
    requires lib.recordFragment.Some?
    ensures var t := AddNewRank(r, lib, randomClip);
            (t.recordPreviewActive <==> lib.recordFragment.value.isRecordPlaceholder)
            && (t.recordState == r.recordState || t.recordState == RecordNone)
  {
    AddAppendsToAllThree(r, lib, randomClip);
    var r3 := AppendRank(r, lib);
    assert Aligned(r3);
    SelectKeepsRanks(r3, r.nextSlideshow, randomClip);
  }

  /**
   * `deleteRankFromCollab(rank:)`: nothing happens without a selected rank;
   * deleting the selected rank first selects rank 0, or the last rank when
   * rank 0 is the one deleted. Swift traps on a rank out of range.
   */
  function DeleteRank(r: Ranks, rank: nat, randomClip: Option<FragmentHost>): Ranks
    requires Parallel(r)
    requires rank < |r.selected|
  {
    match SelectedRank(r)
    case None => r
    case Some(oldSelectedRank) => RemoveRank(MoveSelectionOff(r, oldSelectedRank, rank, randomClip), rank)
  }

  /** The first half of `deleteRankFromCollab(rank:)`: leave the rank about to go, if it is the selected one. */
  function MoveSelectionOff(r: Ranks, selectedRank: nat, rank: nat, randomClip: Option<FragmentHost>): (t: Ranks)
    requires Parallel(r)
    requires rank < |r.selected|
    ensures Parallel(t) && |t.selected| == |r.selected| && t.canNotify == r.canNotify
    ensures t.matrix == r.matrix && t.slideshows == r.slideshows && t.nextSlideshow == r.nextSlideshow
    ensures selectedRank != rank ==> t == r
    ensures selectedRank == rank ==> t.selectedSlideshow == (if rank != 0 then r.slideshows[0] else r.slideshows[|r.slideshows| - 1])
  {
    if selectedRank == rank
    then SelectSlideshow(r, if rank != 0 then r.slideshows[0] else r.slideshows[|r.slideshows| - 1], randomClip)
    else r
  }

  /** Moving the selection off changes no array shape and only the clip of the rank it leaves. */
  lemma MoveSelectionOffKeepsRanks(r: Ranks, rank: nat, randomClip: Option<FragmentHost>)
    requires Aligned(r)
    requires rank < |r.selected|
    requires SelectedRank(r).Some?
    ensures var r1 := MoveSelectionOff(r, SelectedRank(r).value, rank, randomClip);
            Aligned(r1) && r1.matrix == r.matrix && r1.slideshows == r.slideshows
            && (forall i :: 0 <= i < |r.selected| && Some(i) != SelectedRank(r) ==> r1.selected[i] == r.selected[i])
  {
    if SelectedRank(r).value == rank {
      var target := if rank != 0 then r.slideshows[0] else r.slideshows[|r.slideshows| - 1];
      SelectKeepsRanks(r, target, randomClip);
    }
  }

  /** The removals of `deleteRankFromCollab(rank:)`, once the selection has moved. */
  function RemoveRank(r: Ranks, rank: nat): Ranks
    requires Parallel(r)
    requires rank < |r.selected|
  {
    var r1 := AssignSelected(r.(canNotify := false), RemoveAt(r.selected, rank)).(canNotify := true);
    var r2 := RefreshButtons(r1.(matrix := RemoveAt(r1.matrix, rank)), true);
    r2.(slideshows := RemoveAt(r2.slideshows, rank))
  }

  /** The three arrays lose exactly the entry at `rank`. */
  lemma {:induction false} DeleteRemovesFromAllThree(r: Ranks, rank: nat, randomClip: Option<FragmentHost>)
    requires Aligned(r)
    requires rank < |r.selected|
    requires SelectedRank(r).Some?
    ensures var t := DeleteRank(r, rank, randomClip);
            Aligned(t)
            && t.matrix == RemoveAt(r.matrix, rank)
            && t.slideshows == RemoveAt(r.slideshows, rank)
            && |t.selected| == |r.selected| - 1
            && (forall i :: 0 <= i < rank && Some(i) != SelectedRank(r) ==> t.selected[i] == r.selected[i])
            && (forall i :: rank <= i < |t.selected| && Some(i + 1) != SelectedRank(r) ==> t.selected[i] == r.selected[i + 1])
            && t.canNotify
            && t.buttons.addEnabled == (|t.matrix| < 6)
  {
    var sel := SelectedRank(r);
    var r1 := MoveSelectionOff(r, sel.value, rank, randomClip);
    MoveSelectionOffKeepsRanks(r, rank, randomClip);
    var t := DeleteRank(r, rank, randomClip);
    assert t == RemoveRank(r1, rank);
    RemoveRankRemoves(r1, rank);
    assert t.selected == RemoveAt(r1.selected, rank);
    forall i | 0 <= i < rank && Some(i) != sel
      ensures t.selected[i] == r.selected[i]
    {
      assert t.selected[i] == r1.selected[i];
    }
    forall i | rank <= i < |t.selected| && Some(i + 1) != sel
      ensures t.selected[i] == r.selected[i + 1]
    {
      assert t.selected[i] == r1.selected[i + 1];
    }
  }

  /** The removals drop entry `rank` from all three arrays and keep them aligned. */
  lemma RemoveRankRemoves(r: Ranks, rank: nat)
    requires Aligned(r)
    requires rank < |r.selected|
    ensures var t := RemoveRank(r, rank);
            Aligned(t)
            && t.matrix == RemoveAt(r.matrix, rank)
            && t.slideshows == RemoveAt(r.slideshows, rank)
            && t.selected == RemoveAt(r.selected, rank)
            && t.selectedSlideshow == r.selectedSlideshow
            && t.canNotify
            && t.buttons.addEnabled == (|t.matrix| < 6)
            && t.recordPreviewActive == r.recordPreviewActive && t.recordState == r.recordState
  {
    DistinctRemoveAt(r.slideshows, rank);
  }

  /**
   * Deleting the selected rank moves the selection to rank 0, or to the
   * new last rank when rank 0 was deleted; deleting another rank keeps
   * the same slideshow selected, one place lower if it was above.
   */
  lemma {:induction false} DeleteMovesSelection(r: Ranks, rank: nat, randomClip: Option<FragmentHost>)
    requires Aligned(r)
    requires rank < |r.selected|
    requires SelectedRank(r).Some?
    ensures var t := DeleteRank(r, rank, randomClip);
            var old_ := SelectedRank(r).value;
            (old_ == rank && rank != 0 ==> SelectedRank(t) == Some(0))
            && (old_ == rank && rank == 0 && |r.selected| >= 2 ==> SelectedRank(t) == Some(|t.slideshows| - 1))
            && (old_ == rank && |r.selected| == 1 ==> SelectedRank(t) == None)
            && (old_ < rank ==> SelectedRank(t) == Some(old_))
            && (old_ > rank ==> SelectedRank(t) == Some(old_ - 1))
  {
    var old_ := SelectedRank(r).value;
    var n := |r.slideshows|;
    var r1 := MoveSelectionOff(r, old_, rank, randomClip);
    MoveSelectionOffKeepsRanks(r, rank, randomClip);
    RemoveRankRemoves(r1, rank);
    var t := RemoveRank(r1, rank);
    assert t == DeleteRank(r, rank, randomClip);
    if old_ == rank {
      var target := if rank != 0 then 0 else n - 1;
      assert t.selectedSlideshow == r.slideshows[target];
      if n == 1 {
        assert t.slideshows == [];
      } else {
        var k := if rank != 0 then 0 else n - 2;
        assert t.slideshows[k] == r.slideshows[target];
        FirstIndexDistinct(t.slideshows, k);
      }
    } else {
      assert t.selectedSlideshow == r.selectedSlideshow;
      var k := if old_ < rank then old_ else old_ - 1;
      assert t.slideshows[k] == r.slideshows[old_];
      FirstIndexDistinct(t.slideshows, k);
    }
  }

  /**
   * Deleting the selected rank brings the record preview in line with the
   * newly selected rank; deleting another rank runs no report, so the
   * preview flag and the record state stay.
   */
  lemma {:induction false} DeleteSyncsPreview(r: Ranks, rank: nat, randomClip: Option<FragmentHost>)
    requires Aligned(r)
    requires rank < |r.selected|
    requires SelectedRank(r).Some?
    ensures var t := DeleteRank(r, rank, randomClip);
            (SelectedRank(r).value == rank ==> PreviewFollowsSelection(t))
            && (SelectedRank(r).value != rank ==> t.recordPreviewActive == r.recordPreviewActive && t.recordState == r.recordState)
  {
    DeleteMovesSelection(r, rank, randomClip);
    DeleteRemovesFromAllThree(r, rank, randomClip);
    var old_ := SelectedRank(r).value;
    var n := |r.selected|;
    var r1 := MoveSelectionOff(r, old_, rank, randomClip);
    var t := DeleteRank(r, rank, randomClip);
    if old_ == rank && n >= 2 {
      var target := if rank != 0 then 0 else n - 1;
      FirstIndexDistinct(r.slideshows, target);
      SelectKeepsRanks(r, r.slideshows[target], randomClip);
      FirstIndexDistinct(r1.slideshows, target);
      RemoveRankRemoves(r1, rank);
      var k := if rank != 0 then 0 else n - 2;
      assert t.selected[k] == r1.selected[target];
    } else if old_ != rank {
      RemoveRankRemoves(r, rank);
    }
  }

  /** `getFragmentController(rank:index:)`: nil outside the matrix. */
  function FragmentControllerAt(matrix: seq<seq<FragmentCell>>, rank: int, index: int): (c: Option<FragmentCell>)
    ensures c.Some? <==> 0 <= rank < |matrix| && 0 <= index < |matrix[rank]|
    ensures c.Some? ==> c.value == matrix[rank][index]
  {
    if rank < |matrix| && rank >= 0 && index < |matrix[rank]| && index >= 0 then Some(matrix[rank][index]) else None
  }

  /**
   * `init(model:initialPlaybackTime:)`: the record placeholder is appended
   * while fewer than six clips are selected, otherwise it replaces the last.
   */
  function WithRecordPlaceholder(selected: seq<FragmentHost>, placeholder: FragmentHost): (r: seq<FragmentHost>)
    ensures |r| == (if |selected| < MaxClipsPerCollab then |selected| + 1 else |selected|)
    ensures r[..|r| - 1] == selected[..|r| - 1]
    ensures r[|r| - 1] == placeholder
    ensures |selected| <= MaxClipsPerCollab ==> |r| <= MaxClipsPerCollab
  {
    if |selected| < MaxClipsPerCollab then selected + [placeholder]
    else selected[|selected| - 1 := placeholder]
  }

  /** The placeholder: an empty clip over the whole collab, flagged as the placeholder. */
  function RecordPlaceholder(duration: Time): (f: FragmentHost)
    ensures f.isRecordPlaceholder && f.assetInfo == Empty
    ensures f.playbackStartTime == 0 && f.playbackEndTime == duration
  {
    InitWithDefaults(Empty, duration).(isRecordPlaceholder := true)
  }

  class RemixViewController {
    const playbackData: PlaybackDataModel
    var fragmentMatrix: seq<seq<FragmentCell>>
    var slideshows: seq<nat>
    var selectedSlideshow: nat
    var nextSlideshow: nat
    var buttons: Buttons
    var closeEnabled: bool
    var interactionsAreLocked: bool
    var recordState: RecordState
    var creationState: RemixState
    var invalidSingleClip: bool
    var recordPreviewActive: bool

    function View(): Ranks
      reads this, playbackData
    {
      Ranks(playbackData.selectedFragments, playbackData.canNotify, playbackData.notifications,
            fragmentMatrix, slideshows, selectedSlideshow, nextSlideshow, buttons, recordPreviewActive, recordState)
    }

    function Lib(): Library
      reads playbackData
    {
      Library(playbackData.recordFragment, playbackData.takeFragments, playbackData.poolFragments, playbackData.IsCFS())
    }

    /** Every rank is aligned and every row starts with the record placeholder's slot. */
    predicate Valid()
      reads this, playbackData
    {
      Aligned(View())
      && playbackData.recordFragment.Some?
      && forall k :: 0 <= k < |fragmentMatrix| ==> |fragmentMatrix[k]| >= FirstFragmentIndex
    }

    /**
     * `init(model:initialPlaybackTime:)`: the placeholder is put in the
     * model, one row and one slideshow are built per selected clip, and a
     * slideshow of its own, in none of the ranks, starts selected.
     */
    constructor (model: PlaybackDataModel)
      modifies model
      ensures playbackData == model
      ensures model.recordFragment == Some(RecordPlaceholder(old(model.duration)))
      ensures model.selectedFragments == WithRecordPlaceholder(old(model.selectedFragments), RecordPlaceholder(old(model.duration)))
      ensures model.takeFragments == old(model.takeFragments) && model.poolFragments == old(model.poolFragments)
      ensures |fragmentMatrix| == |model.selectedFragments|
      ensures forall k :: 0 <= k < |fragmentMatrix| ==> fragmentMatrix[k] == InitialRow(Lib(), model.selectedFragments[k])
      ensures Valid() && SelectedRank(View()) == None
      ensures recordState == RecordNone && creationState == RemixNone && !interactionsAreLocked
    {
      var placeholder := RecordPlaceholder(model.duration);
      model.SetRecordFragment(Some(placeholder));
      var selected := WithRecordPlaceholder(model.selectedFragments, placeholder);
      model.SetSelectedFragments(selected);
      playbackData := model;
      var lib := Library(model.recordFragment, model.takeFragments, model.poolFragments, model.IsCFS());
      var matrix := BuildInitialFragmentMatrix(lib, selected);
      var shows := BuildSlideshows(|matrix|);
      fragmentMatrix := matrix;
      slideshows := shows;
      selectedSlideshow := |selected|;
      nextSlideshow := |selected| + 1;
      PlaceholderDisablesPreview(selected);
      buttons := Buttons(AddButtonEnabled(matrix, true), false, DeleteButtonsVisible(selected, true));
      closeEnabled := true;
      interactionsAreLocked := false;
      recordState := RecordNone;
      creationState := RemixNone;
      invalidSingleClip := false;
      recordPreviewActive := false;
      new;
      assert playbackData.selectedFragments == selected && Lib() == lib;
      InitialRanksAligned(lib, View());
      assert Valid();
    }

    /** `setupUI()`, as far as the creation state goes. */
    method SetupUI()
      modifies this`creationState, this`invalidSingleClip
      ensures (creationState, invalidSingleClip) == NextCreationState(old(creationState), old(invalidSingleClip))
      ensures View() == old(View()) && recordState == old(recordState)
    {
      NextCreationStateStep();
    }

    /** `nextCreationState()`. */
    method NextCreationStateStep()
      modifies this`creationState, this`invalidSingleClip
      ensures (creationState, invalidSingleClip) == NextCreationState(old(creationState), old(invalidSingleClip))
      ensures View() == old(View()) && recordState == old(recordState)
    {
      match creationState
      case RemixNone =>
        creationState := Remix;
      case Remix =>
        creationState := Record;
        invalidSingleClip := false;
      case Record =>
        creationState := Remix;
    }

    /** `didTapBack()`: leaving the screen is not modelled; the creation state resets. */
    method DidTapBack()
      modifies this`creationState
      ensures creationState == RemixNone
      ensures View() == old(View()) && recordState == old(recordState) && invalidSingleClip == old(invalidSingleClip)
    {
      creationState := RemixNone;
    }

    /** `next()`, as far as the record state goes. */
    method Next(headphonesConnected: bool)
      modifies this`recordState
      ensures recordState == CalculateNextState(old(recordState), headphonesConnected)
      ensures View() == old(View()).(recordState := recordState) && creationState == old(creationState)
    {
      recordState := CalculateNextState(recordState, headphonesConnected);
    }

    /** `setupRecord(rank:)`, up to the asynchronous camera set-up. */
    method SetupRecord()
      modifies this`recordPreviewActive, this`recordState
      ensures old(recordPreviewActive) ==> recordState == old(recordState)
      ensures !old(recordPreviewActive) ==> recordState == RecordNone
      ensures recordPreviewActive
      ensures View() == SetupRecordStep(old(View())) && creationState == old(creationState)
    {
      if recordPreviewActive {
        return;
      }
      recordPreviewActive := true;
      recordState := RecordNone;
    }

    /** `removeCaptureView()`: with a selected rank the record preview is taken down. */
    method RemoveCaptureView()
      modifies this`recordPreviewActive
      ensures SelectedRank(old(View())).Some? ==> !recordPreviewActive
      ensures SelectedRank(old(View())).None? ==> recordPreviewActive == old(recordPreviewActive)
      ensures View() == old(View()).(recordPreviewActive := recordPreviewActive)
      ensures recordState == old(recordState) && creationState == old(creationState)
    {
      var recordRank := FirstIndex(slideshows, selectedSlideshow);
      if recordRank.None? || !recordPreviewActive {
        return;
      }
      recordPreviewActive := false;
    }

    /** `selectedFragmentsChanged()`, the data model's delegate call. */
    method SelectedFragmentsChanged()
      requires |slideshows| <= |playbackData.selectedFragments|
      modifies this`buttons, this`recordPreviewActive, this`recordState
      ensures View() == SelectionChangedStep(old(View()))
      ensures PreviewFollowsSelection(View())
      ensures creationState == old(creationState)
    {
      ghost var v := View();
      buttons := buttons.(previewEnabled := PreviewButtonEnabled(playbackData.selectedFragments, true));
      var rank := FirstIndex(slideshows, selectedSlideshow);
      if rank.None? {
        return;
      }
      if playbackData.selectedFragments[rank.value].isRecordPlaceholder {
        SetupRecord();
      } else {
        RemoveCaptureView();
      }
      SelectionChangedSyncsPreview(v);
    }

    /** An assignment to `playbackData.selectedFragments`, with the delegate call it triggers while `canNotify` is set. */
    method AssignSelectedFragments(fragments: seq<FragmentHost>)
      requires playbackData.canNotify ==> |slideshows| <= |fragments|
      modifies this`buttons, this`recordPreviewActive, this`recordState,
              playbackData`selectedFragments, playbackData`notifications
      ensures View() == AssignSelected(old(View()), fragments)
      ensures Lib() == old(Lib())
    {
      playbackData.SetSelectedFragments(fragments);
      if playbackData.canNotify {
        SelectedFragmentsChanged();
      }
    }

    /** `interactionsAreLocked`'s observer, as far as the Add, Preview, Delete and Close controls go. */
    method SetInteractionsAreLocked(locked: bool)
      modifies this`interactionsAreLocked, this`buttons, this`closeEnabled
      ensures View() == RefreshButtons(old(View()), !locked)
      ensures interactionsAreLocked == locked && closeEnabled == !locked
    {
      interactionsAreLocked := locked;
      buttons := Buttons(AddButtonEnabled(fragmentMatrix, !locked), PreviewButtonEnabled(playbackData.selectedFragments, !locked),
                         DeleteButtonsVisible(playbackData.selectedFragments, !locked));
      closeEnabled := !locked;
    }

    /** An assignment to `selectedSlideshow` (`viewTapped`, `scrollStarted`, the first appearance). */
    method SetSelectedSlideshow(slideshow: nat, randomClip: Option<FragmentHost>)
      requires Valid()
      requires playbackData.IsRandomClip(randomClip)
      modifies this`selectedSlideshow, this`buttons, this`recordPreviewActive, this`recordState,
              playbackData`selectedFragments, playbackData`notifications
      ensures View() == SelectSlideshow(old(View()), slideshow, randomClip)
      ensures Lib() == old(Lib())
    {
      SetSelectedSlideshowUnchecked(slideshow, randomClip);
    }

    /** `didSelectAddButton(_:)`. */
    method DidSelectAddButton(randomClip: Option<FragmentHost>)
      requires Valid()
      requires playbackData.IsRandomClip(randomClip)
      modifies this`fragmentMatrix, this`slideshows, this`selectedSlideshow, this`nextSlideshow, this`buttons,
              this`recordPreviewActive, this`recordState,
              playbackData`selectedFragments, playbackData`canNotify, playbackData`notifications
      ensures View() == DidSelectAdd(old(View()), old(Lib()), randomClip)
      ensures Lib() == old(Lib())
    {
      if |playbackData.selectedFragments| >= MaxClipsPerCollab {
        return;
      }
      AddNewRankToCollab(randomClip);
    }

    /** `addNewRankToCollab()`. */
    method AddNewRankToCollab(randomClip: Option<FragmentHost>)
      requires |slideshows| == |playbackData.selectedFragments|
      requires playbackData.IsRandomClip(randomClip)
      modifies this`fragmentMatrix, this`slideshows, this`selectedSlideshow, this`nextSlideshow, this`buttons,
              this`recordPreviewActive, this`recordState,
              playbackData`selectedFragments, playbackData`canNotify, playbackData`notifications
      ensures View() == AddNewRank(old(View()), old(Lib()), randomClip)
      ensures Lib() == old(Lib())
    {
      ghost var v := View();
      ghost var lib := Lib();
      playbackData.SetCanNotify(false);
      if playbackData.recordFragment.None? {
        assert View() == v.(canNotify := false);
        return;
      }
      var slideshow := nextSlideshow;
      AppendRecordRank();
      assert View() == AppendRank(v, lib) by {
        assert View() == AppendRank(v.(canNotify := false), lib);
      }
      SetSelectedSlideshowUnchecked(slideshow, randomClip);
    }

    /**
     * The part of `addNewRankToCollab()` that appends the record
     * placeholder's rank, from the point where notifications are off to the
     * point before its slideshow is selected.
     */
    method AppendRecordRank()
      requires |slideshows| == |playbackData.selectedFragments| && playbackData.recordFragment.Some?
      requires !playbackData.canNotify
      modifies this`fragmentMatrix, this`slideshows, this`selectedSlideshow, this`nextSlideshow, this`buttons,
              this`recordPreviewActive, this`recordState,
              playbackData`selectedFragments, playbackData`canNotify, playbackData`notifications
      ensures View() == AppendRank(old(View()), old(Lib()))
      ensures Lib() == old(Lib())
      ensures |slideshows| == |playbackData.selectedFragments|
    {
      ghost var v := View();
      ghost var lib := Lib();
      var recordFragment := playbackData.recordFragment.value;
      AssignSelectedFragments(playbackData.selectedFragments + [recordFragment]);
      playbackData.SetCanNotify(true);
      ghost var r1 := AssignSelected(v.(canNotify := false), v.selected + [recordFragment]).(canNotify := true);
      assert View() == r1;
      var newRow := BuildFragmentMatrixRow(Lib());
      fragmentMatrix := fragmentMatrix + [newRow];
      buttons := Buttons(AddButtonEnabled(fragmentMatrix, true), PreviewButtonEnabled(playbackData.selectedFragments, true),
                         DeleteButtonsVisible(playbackData.selectedFragments, true));
      ghost var r2 := RefreshButtons(r1.(matrix := r1.matrix + [BuildFragmentMatrixRow(lib)]), true);
      assert View() == r2;
      slideshows := slideshows + [nextSlideshow];
      nextSlideshow := nextSlideshow + 1;
    }

    /** The `selectedSlideshow` setter, for states whose rows may still be changing. */
    method SetSelectedSlideshowUnchecked(slideshow: nat, randomClip: Option<FragmentHost>)
      requires |slideshows| == |playbackData.selectedFragments|
      requires playbackData.IsRandomClip(randomClip)
      modifies this`selectedSlideshow, this`buttons, this`recordPreviewActive, this`recordState,
              playbackData`selectedFragments, playbackData`notifications
      ensures View() == SelectSlideshow(old(View()), slideshow, randomClip)
      ensures Lib() == old(Lib())
    {
      ghost var v := View();
      if slideshow == selectedSlideshow {
        return;
      }
      var rank := FirstIndex(slideshows, selectedSlideshow);
      if rank.Some? && playbackData.selectedFragments[rank.value].isRecordPlaceholder && randomClip.Some? {
        AssignSelectedFragments(playbackData.selectedFragments[rank.value := randomClip.value]);
      }
      assert View() == LeaveRank(v, randomClip);
      selectedSlideshow := slideshow;
      assert View() == LeaveRank(v, randomClip).(selectedSlideshow := slideshow);
      SelectedFragmentsChanged();
    }

    /** `deleteRankFromCollab(rank:)`. */
    method DeleteRankFromCollab(rank: nat, randomClip: Option<FragmentHost>)
      requires Parallel(View())
      requires rank < |playbackData.selectedFragments|
      requires playbackData.IsRandomClip(randomClip)
      modifies this`fragmentMatrix, this`slideshows, this`selectedSlideshow, this`nextSlideshow, this`buttons,
              this`recordPreviewActive, this`recordState,
              playbackData`selectedFragments, playbackData`canNotify, playbackData`notifications
      ensures View() == DeleteRank(old(View()), rank, randomClip)
      ensures Lib() == old(Lib())
    {
      ghost var v := View();
      var oldSelectedRank := FirstIndex(slideshows, selectedSlideshow);
      if oldSelectedRank.None? {
        return;
      }
      if oldSelectedRank.value == rank {
        SetSelectedSlideshowUnchecked(if rank != 0 then slideshows[0] else slideshows[|slideshows| - 1], randomClip);
      }
      ghost var r1 := MoveSelectionOff(v, oldSelectedRank.value, rank, randomClip);
      assert View() == r1;
      RemoveRankFromArrays(rank);
      assert View() == RemoveRank(r1, rank);
    }

    /** The second half of `deleteRankFromCollab(rank:)`: the three removals. */
    method RemoveRankFromArrays(rank: nat)
      requires Parallel(View())
      requires rank < |playbackData.selectedFragments|
      modifies this`fragmentMatrix, this`slideshows, this`selectedSlideshow, this`nextSlideshow, this`buttons,
              this`recordPreviewActive, this`recordState,
              playbackData`selectedFragments, playbackData`canNotify, playbackData`notifications
      ensures View() == RemoveRank(old(View()), rank)
      ensures Lib() == old(Lib())
    {
      playbackData.SetCanNotify(false);
      AssignSelectedFragments(RemoveAt(playbackData.selectedFragments, rank));
      playbackData.SetCanNotify(true);
      fragmentMatrix := RemoveAt(fragmentMatrix, rank);
      buttons := Buttons(AddButtonEnabled(fragmentMatrix, true), PreviewButtonEnabled(playbackData.selectedFragments, true),
                         DeleteButtonsVisible(playbackData.selectedFragments, true));
      slideshows := RemoveAt(slideshows, rank);
    }

    /**
     * `updateTakeFragmentsInMatrix(takeFragments:)`: every row gets the new
     * takes at index 1, numbered on from the takes already counted. Swift
     * traps on an empty matrix.
     */
    method UpdateTakeFragmentsInMatrix(takes: seq<FragmentHost>)
      requires |fragmentMatrix| >= 1
      requires forall k :: 0 <= k < |fragmentMatrix| ==> |fragmentMatrix[k]| >= FirstFragmentIndex
      modifies this`fragmentMatrix, this`buttons
      ensures var start := |playbackData.takeFragments| - |takes| + 1;
              |fragmentMatrix| == old(|fragmentMatrix|)
              && forall k :: 0 <= k < |fragmentMatrix| ==> fragmentMatrix[k] == WithNewTakes(old(fragmentMatrix[k]), takes, start)
      ensures buttons == (if takes == [] then old(buttons) else RefreshButtons(View(), true).buttons)
      ensures slideshows == old(slideshows) && selectedSlideshow == old(selectedSlideshow)
      ensures nextSlideshow == old(nextSlideshow)
    {
      var takeLabelStart := |playbackData.takeFragments| - |takes| + 1;
      var rank := 0;
      while rank < |fragmentMatrix|
        invariant 0 <= rank <= |fragmentMatrix|
        invariant |fragmentMatrix| == old(|fragmentMatrix|)
        invariant forall k :: 0 <= k < rank ==> fragmentMatrix[k] == WithNewTakes(old(fragmentMatrix[k]), takes, takeLabelStart)
        invariant forall k :: rank <= k < |fragmentMatrix| ==> fragmentMatrix[k] == old(fragmentMatrix[k])
        invariant buttons == (if takes == [] || rank == 0 then old(buttons) else RefreshButtons(View(), true).buttons)
        invariant slideshows == old(slideshows) && selectedSlideshow == old(selectedSlideshow)
        invariant nextSlideshow == old(nextSlideshow)
        decreases |fragmentMatrix| - rank
      {
        var row := InsertTakes(fragmentMatrix[rank], takes, takeLabelStart);
        fragmentMatrix := fragmentMatrix[rank := row];
        if takes != [] {
          buttons := Buttons(AddButtonEnabled(fragmentMatrix, true), PreviewButtonEnabled(playbackData.selectedFragments, true),
                             DeleteButtonsVisible(playbackData.selectedFragments, true));
        }
        rank := rank + 1;
      }
    }

    /**
     * `updatePoolFragmentsInMatrix(addedFragments:)`: every row gets the
     * added fragments at its end. Swift traps on an empty matrix.
     */
    method UpdatePoolFragmentsInMatrix(added: seq<FragmentHost>)
      requires |fragmentMatrix| >= 1
      modifies this`fragmentMatrix, this`buttons
      ensures |fragmentMatrix| == old(|fragmentMatrix|)
      ensures forall k :: 0 <= k < |fragmentMatrix| ==> fragmentMatrix[k] == old(fragmentMatrix[k]) + PoolCells(added)
      ensures buttons == (if added == [] then old(buttons) else RefreshButtons(View(), true).buttons)
      ensures slideshows == old(slideshows) && selectedSlideshow == old(selectedSlideshow)
      ensures nextSlideshow == old(nextSlideshow)
    {
      var rank := 0;
      while rank < |fragmentMatrix|
        invariant 0 <= rank <= |fragmentMatrix|
        invariant |fragmentMatrix| == old(|fragmentMatrix|)
        invariant forall k :: 0 <= k < rank ==> fragmentMatrix[k] == old(fragmentMatrix[k]) + PoolCells(added)
        invariant forall k :: rank <= k < |fragmentMatrix| ==> fragmentMatrix[k] == old(fragmentMatrix[k])
        invariant buttons == (if added == [] || rank == 0 then old(buttons) else RefreshButtons(View(), true).buttons)
        invariant slideshows == old(slideshows) && selectedSlideshow == old(selectedSlideshow)
        invariant nextSlideshow == old(nextSlideshow)
        decreases |fragmentMatrix| - rank
      {
        var row := AppendPool(fragmentMatrix[rank], added);
        fragmentMatrix := fragmentMatrix[rank := row];
        if added != [] {
          buttons := Buttons(AddButtonEnabled(fragmentMatrix, true), PreviewButtonEnabled(playbackData.selectedFragments, true),
                             DeleteButtonsVisible(playbackData.selectedFragments, true));
        }
        rank := rank + 1;
      }
    }

    /**
     * `insertNewRecordedClips(fragments:)`: the takes are added to the
     * model, inserted into every row, and the last of them becomes the
     * selected rank's clip. That assignment is reported, so Preview is
     * refreshed from the new selection and the record preview follows the
     * new clip. Swift traps on an empty list.
     */
    method InsertNewRecordedClips(fragments: seq<FragmentHost>)
      requires Valid()
      requires |fragments| >= 1
      modifies this`fragmentMatrix, this`buttons, this`recordPreviewActive, this`recordState,
              playbackData`selectedFragments, playbackData`takeFragments, playbackData`notifications
      ensures playbackData.takeFragments == old(playbackData.takeFragments) + fragments
      ensures |fragmentMatrix| == old(|fragmentMatrix|)
      ensures SelectedRank(old(View())).Some? ==>
                var rank := SelectedRank(old(View())).value;
                (forall k :: 0 <= k < |fragmentMatrix| ==>
                   fragmentMatrix[k] == WithNewTakes(old(fragmentMatrix[k]), fragments, |old(playbackData.takeFragments)| + 1))
                && playbackData.selectedFragments == old(playbackData.selectedFragments)[rank := fragments[|fragments| - 1]]
                && buttons.addEnabled == AddButtonEnabled(fragmentMatrix, true)
                && buttons.deleteVisible == DeleteButtonsVisible(playbackData.selectedFragments, true)
      ensures SelectedRank(old(View())).Some? && old(playbackData.canNotify) ==>
                buttons.previewEnabled == PreviewButtonEnabled(playbackData.selectedFragments, true)
                && (recordPreviewActive <==> fragments[|fragments| - 1].isRecordPlaceholder)
      ensures SelectedRank(old(View())).Some? && !old(playbackData.canNotify) ==>
                buttons.previewEnabled == PreviewButtonEnabled(old(playbackData.selectedFragments), true)
                && recordPreviewActive == old(recordPreviewActive) && recordState == old(recordState)
      ensures SelectedRank(old(View())).None? ==>
                fragmentMatrix == old(fragmentMatrix) && playbackData.selectedFragments == old(playbackData.selectedFragments)
                && buttons == old(buttons) && recordPreviewActive == old(recordPreviewActive) && recordState == old(recordState)
      ensures recordState == old(recordState) || (recordState == RecordNone && recordPreviewActive)
      ensures Valid()
    {
      playbackData.AddTakeFragments(fragments);
      var selectedRank := FirstIndex(slideshows, selectedSlideshow);
      if selectedRank.None? {
        return;
      }
      UpdateTakeFragmentsInMatrix(fragments);
      ghost var v := View();
      var selected := playbackData.selectedFragments[selectedRank.value := fragments[|fragments| - 1]];
      AssignSelectedFragments(selected);
      if v.canNotify {
        SelectionChangedSyncsPreview(v.(selected := selected, notifications := v.notifications + [Notification.SelectedFragmentsChanged]));
      }
    }
  }

  /** One more take inserted at index 1 puts it before the takes inserted so far. */
  lemma InsertedTakeExtends(row: seq<FragmentCell>, takes: seq<FragmentHost>, n: nat, start: int)
    requires |row| >= FirstFragmentIndex
    requires n < |takes|
    ensures var w := WithNewTakes(row, takes[..n], start);
            w[..FirstFragmentIndex] + [FragmentCell(Copy(takes[n]), true, Some(start + n), false)] + w[FirstFragmentIndex..]
            == WithNewTakes(row, takes[..n + 1], start)
  {
    var cell := FragmentCell(Copy(takes[n]), true, Some(start + n), false);
    assert NewTakeCells(takes[..n + 1], start) == NewTakeCells(takes[..n], start) + [cell];
    ReversedAppend(NewTakeCells(takes[..n], start), [cell]);
    assert Reversed([cell]) == [cell];
    var w := WithNewTakes(row, takes[..n], start);
    assert w[..FirstFragmentIndex] == row[..FirstFragmentIndex];
    assert w[FirstFragmentIndex..] == Reversed(NewTakeCells(takes[..n], start)) + row[FirstFragmentIndex..];
  }

  /** The inner loop of `updateTakeFragmentsInMatrix`: each take in turn inserted at index 1. */
  method InsertTakes(row: seq<FragmentCell>, takes: seq<FragmentHost>, start: int) returns (r: seq<FragmentCell>)
    requires |row| >= FirstFragmentIndex
    ensures r == WithNewTakes(row, takes, start)
  {
    r := row;
    assert NewTakeCells(takes[..0], start) == [];
    assert r == WithNewTakes(row, takes[..0], start);
    var takeNumber := 0;
    while takeNumber < |takes|
      invariant 0 <= takeNumber <= |takes|
      invariant r == WithNewTakes(row, takes[..takeNumber], start)
    {
      var cell := FragmentCell(Copy(takes[takeNumber]), true, Some(start + takeNumber), false);
      InsertedTakeExtends(row, takes, takeNumber, start);
      r := r[..FirstFragmentIndex] + [cell] + r[FirstFragmentIndex..];
      takeNumber := takeNumber + 1;
    }
    assert takes[..|takes|] == takes;
  }

  /** The inner loop of `updatePoolFragmentsInMatrix`: each added fragment appended in turn. */
  method AppendPool(row: seq<FragmentCell>, added: seq<FragmentHost>) returns (r: seq<FragmentCell>)
    ensures r == row + PoolCells(added)
  {
    r := row;
    var i := 0;
    assert PoolCells(added[..0]) == [];
    while i < |added|
      invariant 0 <= i <= |added|
      invariant r == row + PoolCells(added[..i])
    {
      assert PoolCells(added[..i + 1]) == PoolCells(added[..i]) + [PoolCell(added[i])];
      r := r + [PoolCell(added[i])];
      i := i + 1;
    }
    assert added[..|added|] == added;
  }

  /** `buildInitialFragmentMatrix()`: one row per selected clip. */
  method BuildInitialFragmentMatrix(lib: Library, selected: seq<FragmentHost>) returns (matrix: seq<seq<FragmentCell>>)
    ensures |matrix| == |selected|
    ensures forall k :: 0 <= k < |selected| ==> matrix[k] == InitialRow(lib, selected[k])
  {
    matrix := [];
    var k := 0;
    while k < |selected|
      invariant 0 <= k <= |selected|
      invariant |matrix| == k
      invariant forall j :: 0 <= j < k ==> matrix[j] == InitialRow(lib, selected[j])
    {
      matrix := matrix + [InitialRow(lib, selected[k])];
      k := k + 1;
    }
  }

  /** `buildSlideshows()`: one new slideshow per row, numbered from 0. */
  method BuildSlideshows(count: nat) returns (shows: seq<nat>)
    ensures |shows| == count
    ensures forall j :: 0 <= j < count ==> shows[j] == j
    ensures Distinct(shows)
  {
    shows := [];
    var k := 0;
    while k < count
      invariant 0 <= k <= count
      invariant |shows| == k
      invariant forall j :: 0 <= j < k ==> shows[j] == j
    {
      shows := shows + [k];
      k := k + 1;
    }
  }
}
