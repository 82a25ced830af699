/**
 * The nudge overlay: shifts the whole clip by one increment per tap and
 * keeps a running count (OpenCollab/Sources/ViewControllers/NudgeViewController.swift).
 */
module NudgeView {
  import opened Wrappers
  import opened Strings
  import opened FragmentHostModel
  import opened PlaybackEditorModel

  /** The counter label: `"+n"` for a positive count, `"n"` otherwise. */
  function CounterLabel(nudgeCount: int): (text: string)
    ensures |text| > 0
    ensures text[0] == '+' <==> nudgeCount > 0
    ensures text[0] == '-' <==> nudgeCount < 0
    ensures nudgeCount > 0 ==> text[1..] == IntToString(nudgeCount) && Value(text[1..]) == nudgeCount
    ensures nudgeCount <= 0 ==> SignedValue(text) == nudgeCount
  {
    IntDecimalValue(nudgeCount);
    if nudgeCount > 0 then "+" + IntToString(nudgeCount) else IntToString(nudgeCount)
  }

  /**
   * A nudge that moved the clip can always be undone: the opposite button is
   * then enabled, and the opposite nudge gives back the window there was.
   */
  lemma NudgeIsUndoable(f: FragmentHost, direction: int)
    requires direction == 1 || direction == -1
    requires WindowInvariant(f)
    requires ShiftPairIsValid(f, direction)
    ensures var g := Apply(f, ShiftProposal(f, direction));
            ShiftPairIsValid(g, -direction) && Apply(g, ShiftProposal(g, -direction)) == f
  {
    var g := Apply(f, ShiftProposal(f, direction));
    assert g == f.(playbackStartTime := f.playbackStartTime + ShiftDelta(direction),
                   playbackEndTime := f.playbackEndTime + ShiftDelta(direction));
    assert ShiftDelta(-direction) == -ShiftDelta(direction);
  }

  class NudgeViewController {
    const playbackEditor: PlaybackEditor
    var nudgeCount: int
    /** The count at the start of the current activation, restored by `reset`. */
    var storedNudgeCount: int
    /** The nudge controls are shown and the view takes touches. */
    var isActive: bool
    var forwardEnabled: bool
    var backwardEnabled: bool
    /** How many times the `saveNudge` callback has run. */
    var saveNudgeCalls: nat

    constructor (playbackEditor: PlaybackEditor)
      ensures this.playbackEditor == playbackEditor
      ensures nudgeCount == 0 && storedNudgeCount == 0 && !isActive && saveNudgeCalls == 0
    {
      this.playbackEditor := playbackEditor;
      nudgeCount := 0;
      storedNudgeCount := 0;
      isActive := false;
      forwardEnabled := false;
      backwardEnabled := false;
      saveNudgeCalls := 0;
    }

    function Label(): string
      reads this
    {
      CounterLabel(nudgeCount)
    }

    /** `updateNudgeButtons()`: each button is enabled exactly when its shift is valid. */
    method UpdateNudgeButtons()
      modifies this`forwardEnabled, this`backwardEnabled
      ensures forwardEnabled == ShiftPairIsValid(playbackEditor.fragment, 1)
      ensures backwardEnabled == ShiftPairIsValid(playbackEditor.fragment, -1)
    {
      forwardEnabled := playbackEditor.ShiftIsValid(1);
      backwardEnabled := playbackEditor.ShiftIsValid(-1);
    }

    /** `activate()`: shows the controls and remembers the count to return to. */
    method Activate()
      modifies this
      ensures isActive
      ensures storedNudgeCount == nudgeCount == old(nudgeCount)
      ensures forwardEnabled == ShiftPairIsValid(playbackEditor.fragment, 1)
      ensures backwardEnabled == ShiftPairIsValid(playbackEditor.fragment, -1)
      ensures saveNudgeCalls == old(saveNudgeCalls)
    {
      isActive := true;
      UpdateNudgeButtons();
      storedNudgeCount := nudgeCount;
    }

    /** `deactivate()`: hides the controls and commits the editor's current window as its snapshot. */
    method Deactivate()
      modifies this`isActive, playbackEditor`storedPlaybackStartTime, playbackEditor`storedPlaybackEndTime
      ensures !isActive
      ensures playbackEditor.storedPlaybackStartTime == playbackEditor.fragment.playbackStartTime
      ensures playbackEditor.storedPlaybackEndTime == playbackEditor.fragment.playbackEndTime
    {
      isActive := false;
      playbackEditor.StoreValues();
    }

    /**
     * The editor's delegate handing a proposal to the clip's fragment
     * (`playbackTimeChanged`), whose change announcement reaches the editor
     * (`playbackChanged(fragment:)`) before the proposing call returns. The
     * editor's copy is taken to be the fragment itself, as every change to
     * the fragment is announced to it.
     */
    method RoundTrip(p: Proposal)
      modifies playbackEditor`fragment
      ensures playbackEditor.fragment == Apply(old(playbackEditor.fragment), p)
    {
      playbackEditor.PlaybackChanged(Apply(playbackEditor.fragment, p));
    }

    /** `reset()`: back to the stored count, and the editor's proposal of its snapshot applied. */
    method Reset()
      modifies this`nudgeCount, playbackEditor`proposals, playbackEditor`fragment
      ensures nudgeCount == storedNudgeCount
      ensures playbackEditor.proposals == old(playbackEditor.proposals)
                + [Proposal(Some(playbackEditor.storedPlaybackStartTime), Some(playbackEditor.storedPlaybackEndTime))]
      ensures playbackEditor.fragment == Apply(old(playbackEditor.fragment),
                Proposal(Some(playbackEditor.storedPlaybackStartTime), Some(playbackEditor.storedPlaybackEndTime)))
    {
      nudgeCount := storedNudgeCount;
      playbackEditor.Reset();
      RoundTrip(Proposal(Some(playbackEditor.storedPlaybackStartTime), Some(playbackEditor.storedPlaybackEndTime)));
    }

    /**
     * `nudgeForward()`: one increment later, count up by one. The shift has
     * reached the fragment and come back before the buttons are refreshed,
     * so they are set from the shifted window.
     */
    method NudgeForward()
      modifies this`nudgeCount, this`forwardEnabled, this`backwardEnabled
      modifies playbackEditor`proposals, playbackEditor`fragment
      ensures playbackEditor.proposals == old(playbackEditor.proposals) + [ShiftProposal(old(playbackEditor.fragment), 1)]
      ensures playbackEditor.fragment == Apply(old(playbackEditor.fragment), ShiftProposal(old(playbackEditor.fragment), 1))
      ensures nudgeCount == old(nudgeCount) + 1
      ensures forwardEnabled == ShiftPairIsValid(playbackEditor.fragment, 1)
      ensures backwardEnabled == ShiftPairIsValid(playbackEditor.fragment, -1)
    {
      playbackEditor.ShiftPlayback(1);
      RoundTrip(ShiftProposal(playbackEditor.fragment, 1));
      nudgeCount := nudgeCount + 1;
      UpdateNudgeButtons();
    }

    /** `nudgeBackward()`: one increment earlier, count down by one, buttons set from the shifted window. */
    method NudgeBackward()
      modifies this`nudgeCount, this`forwardEnabled, this`backwardEnabled
      modifies playbackEditor`proposals, playbackEditor`fragment
      ensures playbackEditor.proposals == old(playbackEditor.proposals) + [ShiftProposal(old(playbackEditor.fragment), -1)]
      ensures playbackEditor.fragment == Apply(old(playbackEditor.fragment), ShiftProposal(old(playbackEditor.fragment), -1))
      ensures nudgeCount == old(nudgeCount) - 1
      ensures forwardEnabled == ShiftPairIsValid(playbackEditor.fragment, 1)
      ensures backwardEnabled == ShiftPairIsValid(playbackEditor.fragment, -1)
    {
      playbackEditor.ShiftPlayback(-1);
      RoundTrip(ShiftProposal(playbackEditor.fragment, -1));
      nudgeCount := nudgeCount - 1;
      UpdateNudgeButtons();
    }

    /** Save: only the callback. */
    method DidTapSaveNudge()
      modifies this`saveNudgeCalls
      ensures saveNudgeCalls == old(saveNudgeCalls) + 1
    {
      saveNudgeCalls := saveNudgeCalls + 1;
    }

    /** Close: `reset()` first, then the same callback as Save. */
    method DidTapCloseNudge()
      modifies this`nudgeCount, this`saveNudgeCalls, playbackEditor`proposals, playbackEditor`fragment
      ensures nudgeCount == storedNudgeCount
      ensures playbackEditor.proposals == old(playbackEditor.proposals)
                + [Proposal(Some(playbackEditor.storedPlaybackStartTime), Some(playbackEditor.storedPlaybackEndTime))]
      ensures playbackEditor.fragment == Apply(old(playbackEditor.fragment),
                Proposal(Some(playbackEditor.storedPlaybackStartTime), Some(playbackEditor.storedPlaybackEndTime)))
      ensures saveNudgeCalls == old(saveNudgeCalls) + 1
    {
      Reset();
      saveNudgeCalls := saveNudgeCalls + 1;
    }
  }
}
