/**
 * Nudge and trim proposals for one fragment
 * (OpenCollab/Sources/VideoPlayback/PlaybackEditor.swift).
 *
 * The editor holds a read-only copy of the fragment and proposes new
 * playback times to its delegate, which applies them to the real fragment;
 * the fragment's change announcement comes back through `PlaybackChanged`.
 * The delegate calls are recorded, in order, in `proposals`.
 */
module PlaybackEditorModel {
  import opened Wrappers
  import opened Extensions
  import opened FragmentHostModel

  /** `PlaybackEditor.increment`: `CMTimeMake(value: 20, timescale: 600)`. */
  const Increment: Time := 20

  /** One `playbackTimeChanged(startTime:endTime:)` call; nil keeps the current value. */
  datatype Proposal = Proposal(startTime: Option<Time>, endTime: Option<Time>)

  /** What the fragment does with a proposal once the delegate passes it on. */
  function Apply(f: FragmentHost, p: Proposal): FragmentHost
  {
    SetPlaybackTimes(f, p.startTime, p.endTime)
  }

  /** `CMTimeMultiply(increment, multiplier: direction)`. */
  function ShiftDelta(direction: int): (d: Time)
    ensures direction > 0 ==> d > 0
    ensures direction < 0 ==> d < 0
    ensures d % Increment == 0
  {
    Increment * direction
  }

  /** The pair `shiftPlayback(direction:)` proposes: both ends moved by the same delta. */
  function ShiftProposal(f: FragmentHost, direction: int): (p: Proposal)
    ensures p.startTime.Some? && p.endTime.Some?
    ensures p.endTime.value - p.startTime.value == PlaybackDuration(f)
    ensures p.startTime.value - f.playbackStartTime == ShiftDelta(direction)
  {
    Proposal(Some(f.playbackStartTime + ShiftDelta(direction)),
             Some(f.playbackEndTime + ShiftDelta(direction)))
  }

  /** `shiftIsValid(direction:)`: the fragment would accept the shifted pair. */
  predicate ShiftPairIsValid(f: FragmentHost, direction: int)
  {
    StartEndTimePairIsValid(f, f.playbackStartTime + ShiftDelta(direction),
                            f.playbackEndTime + ShiftDelta(direction))
  }

  /**
   * The editor's check predicts the fragment's decision: a real shift is
   * applied exactly when `shiftIsValid` holds, and then it moves the whole
   * window by the delta.
   */
  lemma ShiftAppliedIffValid(f: FragmentHost, direction: int)
    requires direction != 0
    ensures var g := Apply(f, ShiftProposal(f, direction));
            (g != f <==> ShiftPairIsValid(f, direction))
            && (ShiftPairIsValid(f, direction) ==>
                  g.playbackStartTime == f.playbackStartTime + ShiftDelta(direction)
                  && PlaybackDuration(g) == PlaybackDuration(f))
  {
    var g := Apply(f, ShiftProposal(f, direction));
    if ShiftPairIsValid(f, direction) {
      assert g.playbackStartTime != f.playbackStartTime;
    }
  }

  class PlaybackEditor {
    /** The snapshot `reset` returns to. */
    var storedPlaybackStartTime: Time
    var storedPlaybackEndTime: Time
    /** The editor's own copy of the fragment, refreshed on every announced change. */
    var fragment: FragmentHost
    /** Every `playbackTimeChanged` call made to the delegate, oldest first. */
    var proposals: seq<Proposal>

    /** `init(fragment:)` snapshots the current window. */
    constructor (fragment: FragmentHost)
      ensures this.fragment == fragment
      ensures storedPlaybackStartTime == fragment.playbackStartTime
      ensures storedPlaybackEndTime == fragment.playbackEndTime
      ensures proposals == []
    {
      this.fragment := fragment;
      storedPlaybackStartTime := fragment.playbackStartTime;
      storedPlaybackEndTime := fragment.playbackEndTime;
      proposals := [];
    }

    /** `reset()`: proposes exactly the stored snapshot. */
    method Reset()
      modifies this`proposals
      ensures proposals == old(proposals)
                + [Proposal(Some(storedPlaybackStartTime), Some(storedPlaybackEndTime))]
    {
      SetPlaybackTimes(storedPlaybackStartTime, storedPlaybackEndTime);
    }

    /** `storeValues()`: snapshots the fragment's current window. */
    method StoreValues()
      modifies this`storedPlaybackStartTime, this`storedPlaybackEndTime
      ensures storedPlaybackStartTime == fragment.playbackStartTime
      ensures storedPlaybackEndTime == fragment.playbackEndTime
    {
      storedPlaybackStartTime := fragment.playbackStartTime;
      storedPlaybackEndTime := fragment.playbackEndTime;
    }

    method SetPlaybackTimes(startTime: Time, endTime: Time)
      modifies this`proposals
      ensures proposals == old(proposals) + [Proposal(Some(startTime), Some(endTime))]
    {
      proposals := proposals + [Proposal(Some(startTime), Some(endTime))];
    }

    method SetPlaybackStartTime(time: Time)
      modifies this`proposals
      ensures proposals == old(proposals) + [Proposal(Some(time), None)]
    {
      proposals := proposals + [Proposal(Some(time), None)];
    }

    method SetPlaybackEndTime(time: Time)
      modifies this`proposals
      ensures proposals == old(proposals) + [Proposal(None, Some(time))]
    {
      proposals := proposals + [Proposal(None, Some(time))];
    }

    /** `shiftPlayback(direction:)`: moves both ends, keeping the duration. */
    method ShiftPlayback(direction: int)
      modifies this`proposals
      ensures proposals == old(proposals) + [ShiftProposal(fragment, direction)]
    {
      var delta := ShiftDelta(direction);
      var shiftedStartTime := fragment.playbackStartTime + delta;
      var shiftedEndTime := fragment.playbackEndTime + delta;
      proposals := proposals + [Proposal(Some(shiftedStartTime), Some(shiftedEndTime))];
    }

    /** `shiftPlaybackStartTime(direction:)`: proposes a new start only. */
    method ShiftPlaybackStartTime(direction: int)
      modifies this`proposals
      ensures proposals == old(proposals)
                + [Proposal(Some(fragment.playbackStartTime + ShiftDelta(direction)), None)]
    {
      var delta := ShiftDelta(direction);
      SetPlaybackStartTime(fragment.playbackStartTime + delta);
    }

    /** `shiftPlaybackEndTime(direction:)`: proposes a new end only. */
    method ShiftPlaybackEndTime(direction: int)
      modifies this`proposals
      ensures proposals == old(proposals)
                + [Proposal(None, Some(fragment.playbackEndTime + ShiftDelta(direction)))]
    {
      var delta := ShiftDelta(direction);
      SetPlaybackEndTime(fragment.playbackEndTime + delta);
    }

    /** `setPlaybackRange(range:)`: a closed range's bounds, unchanged. */
    method SetPlaybackRange(lowerBound: Time, upperBound: Time)
      requires lowerBound <= upperBound
      modifies this`proposals
      ensures proposals == old(proposals) + [Proposal(Some(lowerBound), Some(upperBound))]
    {
      SetPlaybackTimes(lowerBound, upperBound);
    }

    method ShiftIsValid(direction: int) returns (valid: bool)
      ensures valid <==> StartEndTimePairIsValid(fragment,
                fragment.playbackStartTime + Increment * direction,
                fragment.playbackEndTime + Increment * direction)
    {
      valid := ShiftPairIsValid(fragment, direction);
    }

    /** `playbackChanged(fragment:)`: later shifts start from the announced times. */
    method PlaybackChanged(fragment: FragmentHost)
      modifies this`fragment
      ensures this.fragment == fragment
    {
      this.fragment := fragment;
    }
  }
}
