/**
 * The trim screen for a fresh recording: it owns the trimmer, keeps the data
 * model's first fragment in step with it, and enables "Next"
 * (OpenCollab/Sources/ViewControllers/TrimViewController.swift).
 */
module TrimView {
  import opened Wrappers
  import opened Extensions
  import opened FragmentHostModel
  import opened PlaybackEditorModel
  import opened PlaybackData
  import opened WaveformTrimmer

  /** `trimResetTimePadding`: 2.5 s. */
  const TrimResetTimePadding: Time := 1500

  /**
   * Where the preview restarts after a trim: 2.5 s before the new end when
   * only the end moved, otherwise at the new start.
   */
  function RestartTime(f: FragmentHost, lowerBound: Time, upperBound: Time): (t: Time)
    ensures upperBound != f.playbackEndTime && lowerBound == f.playbackStartTime ==> t == upperBound - TrimResetTimePadding
    ensures upperBound == f.playbackEndTime || lowerBound != f.playbackStartTime ==> t == lowerBound
  {
    var didStartTimeChange := lowerBound != f.playbackStartTime;
    var didEndTimeChange := upperBound != f.playbackEndTime;
    if didEndTimeChange && !didStartTimeChange then upperBound - TrimResetTimePadding else lowerBound
  }

  /** Nudging the start restarts the preview at the nudged start. */
  lemma NudgeStartRestartsAtNewStart(f: FragmentHost, direction: int)
    ensures RestartTime(f, f.playbackStartTime + ShiftDelta(direction), f.playbackEndTime)
              == f.playbackStartTime + ShiftDelta(direction)
  {
  }

  /** Nudging the end by a non-zero step restarts the preview 2.5 s before the nudged end. */
  lemma NudgeEndRestartsNearNewEnd(f: FragmentHost, direction: int)
    requires direction != 0
    ensures RestartTime(f, f.playbackStartTime, f.playbackEndTime + ShiftDelta(direction))
              == f.playbackEndTime + ShiftDelta(direction) - TrimResetTimePadding
  {
  }

  /** The creation-time rule for "Next" (`max > duration`) is the trimmer's `isValidTrim` for that fragment. */
  lemma InitialNextRuleIsValidTrim(f: FragmentHost)
    ensures Below(PlaybackDuration(f), f.maxPlaybackDuration) == IsValidTrim(Some(f))
  {
  }

  class TrimViewController {
    var model: PlaybackDataModel
    const trimmer: WaveformTrimmerViewController
    var nextButtonEnabled: bool
    /** The times the looping preview was restarted at, in order. */
    var previewRestarts: seq<Time>
    /** The trim ranges handed to the looping preview, in order. */
    var previewTrimRanges: seq<(Time, Time)>

    constructor (model: PlaybackDataModel)
      requires |model.selectedFragments| > 0
      ensures this.model == model && fresh(trimmer)
      ensures nextButtonEnabled == Below(PlaybackDuration(model.selectedFragments[0]),
                                         model.selectedFragments[0].maxPlaybackDuration)
      ensures trimmer.fragment == Some(model.selectedFragments[0])
      ensures previewRestarts == [] && previewTrimRanges == []
    {
      this.model := model;
      var initialFragment := model.selectedFragments[0];
      nextButtonEnabled := Below(PlaybackDuration(initialFragment), initialFragment.maxPlaybackDuration);
      var t := new WaveformTrimmerViewController();
      t.SetFragment(initialFragment);
      trimmer := t;
      previewRestarts := [];
      previewTrimRanges := [];
    }

    /** `updated(model:)`: the listener step run by `announceUpdate`. */
    method Updated(newModel: PlaybackDataModel)
      requires |newModel.selectedFragments| > 0
      modifies this`model, this`nextButtonEnabled, trimmer`fragment, trimmer`nudgeButtons
      ensures model == newModel
      ensures trimmer.fragment == Some(newModel.selectedFragments[0])
      ensures trimmer.nudgeButtons == NudgeButtonsFor(newModel.selectedFragments[0])
      ensures nextButtonEnabled == IsValidTrim(trimmer.fragment)
    {
      model := newModel;
      trimmer.SetFragment(newModel.selectedFragments[0]);
      nextButtonEnabled := IsValidTrim(trimmer.fragment);
    }

    /**
     * `adjustTime(range:)`: hands the range to the preview, restarts it per
     * `RestartTime`, writes the range into fragment 0 of the model and then
     * runs this controller's `updated(model:)`.
     */
    method AdjustTime(lowerBound: Time, upperBound: Time)
      requires lowerBound <= upperBound
      requires |model.selectedFragments| > 0
      modifies this`model, this`previewTrimRanges, this`previewRestarts, this`nextButtonEnabled
      modifies model`selectedFragments, model`notifications, model`duration, trimmer`fragment, trimmer`nudgeButtons
      ensures model == old(model)
      ensures model.selectedFragments == old(model.selectedFragments)[0 :=
                SetPlaybackTimes(old(model.selectedFragments)[0], Some(lowerBound), Some(upperBound))]
      ensures model.duration == upperBound - lowerBound
      ensures model.notifications == old(model.notifications) + (if model.canNotify then [SelectedFragmentsChanged] else [])
      ensures previewTrimRanges == old(previewTrimRanges) + [(lowerBound, upperBound)]
      ensures previewRestarts == old(previewRestarts) + [RestartTime(old(model.selectedFragments)[0], lowerBound, upperBound)]
      ensures trimmer.fragment == Some(model.selectedFragments[0])
      ensures trimmer.nudgeButtons == NudgeButtonsFor(model.selectedFragments[0])
      ensures nextButtonEnabled == IsValidTrim(Some(model.selectedFragments[0]))
    {
      var recordedFragment := model.selectedFragments[0];
      previewTrimRanges := previewTrimRanges + [(lowerBound, upperBound)];
      previewRestarts := previewRestarts + [RestartTime(recordedFragment, lowerBound, upperBound)];
      model.AdjustTrimTimes(lowerBound, upperBound, 0);
      Updated(model);
    }

    /** `didDragTrimmer(range:)`. */
    method DidDragTrimmer(lowerBound: Time, upperBound: Time)
      requires lowerBound <= upperBound
      requires |model.selectedFragments| > 0
      modifies this`model, this`previewTrimRanges, this`previewRestarts, this`nextButtonEnabled
      modifies model`selectedFragments, model`notifications, model`duration, trimmer`fragment, trimmer`nudgeButtons
      ensures model == old(model)
      ensures model.selectedFragments == old(model.selectedFragments)[0 :=
                SetPlaybackTimes(old(model.selectedFragments)[0], Some(lowerBound), Some(upperBound))]
      ensures model.duration == upperBound - lowerBound
      ensures model.notifications == old(model.notifications) + (if model.canNotify then [SelectedFragmentsChanged] else [])
      ensures previewTrimRanges == old(previewTrimRanges) + [(lowerBound, upperBound)]
      ensures previewRestarts == old(previewRestarts) + [RestartTime(old(model.selectedFragments)[0], lowerBound, upperBound)]
      ensures trimmer.fragment == Some(model.selectedFragments[0])
      ensures trimmer.nudgeButtons == NudgeButtonsFor(model.selectedFragments[0])
      ensures nextButtonEnabled == IsValidTrim(Some(model.selectedFragments[0]))
    {
      AdjustTime(lowerBound, upperBound);
    }

    /** `didNudgeStartTime(direction:)`: proposes `[start + direction * increment, end]`. */
    method DidNudgeStartTime(direction: int)
      requires |model.selectedFragments| > 0
      requires model.selectedFragments[0].playbackStartTime + ShiftDelta(direction) <= model.selectedFragments[0].playbackEndTime
      modifies this`model, this`previewTrimRanges, this`previewRestarts, this`nextButtonEnabled
      modifies model`selectedFragments, model`notifications, model`duration, trimmer`fragment, trimmer`nudgeButtons
      ensures model == old(model)
      ensures var f := old(model.selectedFragments)[0];
              model.selectedFragments == old(model.selectedFragments)[0 :=
                SetPlaybackTimes(f, Some(f.playbackStartTime + ShiftDelta(direction)), Some(f.playbackEndTime))]
      ensures var f := old(model.selectedFragments)[0];
              model.duration == f.playbackEndTime - (f.playbackStartTime + ShiftDelta(direction))
      ensures model.notifications == old(model.notifications) + (if model.canNotify then [SelectedFragmentsChanged] else [])
      ensures var f := old(model.selectedFragments)[0];
              previewTrimRanges == old(previewTrimRanges) + [(f.playbackStartTime + ShiftDelta(direction), f.playbackEndTime)]
      ensures var f := old(model.selectedFragments)[0];
              previewRestarts == old(previewRestarts) + [f.playbackStartTime + ShiftDelta(direction)]
      ensures trimmer.fragment == Some(model.selectedFragments[0])
      ensures trimmer.nudgeButtons == NudgeButtonsFor(model.selectedFragments[0])
      ensures nextButtonEnabled == IsValidTrim(Some(model.selectedFragments[0]))
    {
      var recordedFragment := model.selectedFragments[0];
      NudgeStartRestartsAtNewStart(recordedFragment, direction);
      AdjustTime(recordedFragment.playbackStartTime + ShiftDelta(direction), recordedFragment.playbackEndTime);
    }

    /** `didNudgeEndTime(direction:)`: proposes `[start, end + direction * increment]`. */
    method DidNudgeEndTime(direction: int)
      requires |model.selectedFragments| > 0
      requires model.selectedFragments[0].playbackStartTime <= model.selectedFragments[0].playbackEndTime + ShiftDelta(direction)
      modifies this`model, this`previewTrimRanges, this`previewRestarts, this`nextButtonEnabled
      modifies model`selectedFragments, model`notifications, model`duration, trimmer`fragment, trimmer`nudgeButtons
      ensures model == old(model)
      ensures var f := old(model.selectedFragments)[0];
              model.selectedFragments == old(model.selectedFragments)[0 :=
                SetPlaybackTimes(f, Some(f.playbackStartTime), Some(f.playbackEndTime + ShiftDelta(direction)))]
      ensures var f := old(model.selectedFragments)[0];
              model.duration == f.playbackEndTime + ShiftDelta(direction) - f.playbackStartTime
      ensures model.notifications == old(model.notifications) + (if model.canNotify then [SelectedFragmentsChanged] else [])
      ensures var f := old(model.selectedFragments)[0];
              previewTrimRanges == old(previewTrimRanges) + [(f.playbackStartTime, f.playbackEndTime + ShiftDelta(direction))]
      ensures var f := old(model.selectedFragments)[0];
              direction != 0 ==>
                previewRestarts == old(previewRestarts) + [f.playbackEndTime + ShiftDelta(direction) - TrimResetTimePadding]
      ensures var f := old(model.selectedFragments)[0];
              direction == 0 ==> previewRestarts == old(previewRestarts) + [f.playbackStartTime]
      ensures trimmer.fragment == Some(model.selectedFragments[0])
      ensures trimmer.nudgeButtons == NudgeButtonsFor(model.selectedFragments[0])
      ensures nextButtonEnabled == IsValidTrim(Some(model.selectedFragments[0]))
    {
      var recordedFragment := model.selectedFragments[0];
      if direction != 0 {
        NudgeEndRestartsNearNewEnd(recordedFragment, direction);
      }
      AdjustTime(recordedFragment.playbackStartTime, recordedFragment.playbackEndTime + ShiftDelta(direction));
    }

    /**
     * `didSelectTrimDoneButton`, once the thumbnail has been captured: the
     * image is stored on fragment 0 and the remix model is built from this one.
     */
    method DidSelectTrimDoneButton(image: Option<Image>) returns (remixModel: PlaybackDataModel)
      requires |model.selectedFragments| > 0
      modifies model`selectedFragments, model`notifications
      ensures fresh(remixModel)
      ensures model.selectedFragments == old(model.selectedFragments)[0 :=
                old(model.selectedFragments)[0].(localThumbnailImage := image)]
      ensures |remixModel.selectedFragments| == 1
      ensures remixModel.selectedFragments[0] == Copy(model.selectedFragments[0])
      ensures remixModel.selectedFragments[0].localThumbnailImage == image
    {
      var f := model.selectedFragments[0];
      model.SetSelectedFragments(model.selectedFragments[0 := f.(localThumbnailImage := image)]);
      remixModel := new PlaybackDataModel.FromTrimmerModel(model);
    }
  }
}
