/**
 * The trim controls under the preview: four nudge buttons, a precision zoom
 * toggle and the scrubbing handles, all reporting to a delegate
 * (OpenCollab/Sources/TrimmingSupport/WaveformTrimmerViewController.swift).
 */
module WaveformTrimmer {
  import opened Wrappers
  import opened Extensions
  import opened FragmentHostModel
  import opened PlaybackEditorModel
  import opened TrimmerSliderHandle

  /** `trimZoomBuffer`: 0.75 s. */
  const TrimZoomBuffer: Time := 450

  /** What the trimmer tells its delegate (`CollabTrimmerViewControllerDelegate`). */
  datatype TrimmerEvent =
    | DidNudgeStartTime(direction: int)
    | DidNudgeEndTime(direction: int)
    | DidDragTrimmer(lowerBound: Time, upperBound: Time)
    | DidStartProgressDrag
    | DidDragProgress(time: Time)
    | DidFinishProgressDrag(time: Time)

  /** `isValidTrim`: a fragment is set and its window is strictly shorter than its maximum. */
  predicate IsValidTrim(fragment: Option<FragmentHost>)
  {
    fragment.Some? && Below(fragment.value.playbackEndTime - fragment.value.playbackStartTime,
                            fragment.value.maxPlaybackDuration)
  }

  /** With no upper limit any set fragment is a valid trim; with a limit it must be strictly shorter. */
  lemma IsValidTrimCases(fragment: Option<FragmentHost>)
    ensures fragment.None? ==> !IsValidTrim(fragment)
    ensures fragment.Some? && fragment.value.maxPlaybackDuration.PositiveInfinity? ==> IsValidTrim(fragment)
    ensures fragment.Some? && fragment.value.maxPlaybackDuration.Finite? ==>
              (IsValidTrim(fragment) <==> PlaybackDuration(fragment.value) < fragment.value.maxPlaybackDuration.ticks)
  {
  }

  /** `setPrecisionTrimButtonEnabled`: zooming helps only if there is more than 1.5 s outside the window on some side. */
  predicate PrecisionButtonEnabled(fragment: FragmentHost, startTime: Time, endTime: Time)
  {
    startTime - 2 * TrimZoomBuffer > 0 || endTime + 2 * TrimZoomBuffer < fragment.assetDuration
  }

  /** The four nudge buttons' enabled flags, as `setNudgeButtonsEnabled` sets them. */
  datatype NudgeButtons = NudgeButtons(leftForward: bool, leftBackward: bool, rightForward: bool, rightBackward: bool)

  function NudgeButtonsFor(f: FragmentHost): (b: NudgeButtons)
    ensures b.leftForward == StartTimeIsValid(f, f.playbackStartTime - Increment)
    ensures b.leftBackward == StartTimeIsValid(f, f.playbackStartTime + Increment)
    ensures b.rightForward == EndTimeIsValid(f, f.playbackEndTime - Increment)
    ensures b.rightBackward == EndTimeIsValid(f, f.playbackEndTime + Increment)
  {
    NudgeButtons(StartTimeIsValid(f, f.playbackStartTime - Increment),
                 StartTimeIsValid(f, f.playbackStartTime + Increment),
                 EndTimeIsValid(f, f.playbackEndTime - Increment),
                 EndTimeIsValid(f, f.playbackEndTime + Increment))
  }

  /**
   * For a fragment whose window lies inside its asset, each button is enabled
   * exactly when the window moved one increment on that side is accepted by
   * `setPlaybackTimes`.
   */
  lemma NudgeButtonsMatchPairCheck(f: FragmentHost)
    requires 0 <= f.playbackStartTime <= f.playbackEndTime <= f.assetDuration
    ensures NudgeButtonsFor(f).leftForward == StartEndTimePairIsValid(f, f.playbackStartTime - Increment, f.playbackEndTime)
    ensures NudgeButtonsFor(f).leftBackward == StartEndTimePairIsValid(f, f.playbackStartTime + Increment, f.playbackEndTime)
    ensures NudgeButtonsFor(f).rightForward == StartEndTimePairIsValid(f, f.playbackStartTime, f.playbackEndTime - Increment)
    ensures NudgeButtonsFor(f).rightBackward == StartEndTimePairIsValid(f, f.playbackStartTime, f.playbackEndTime + Increment)
  {
    SingleEndChecksAgreeWithPair(f, f.playbackStartTime - Increment);
    SingleEndChecksAgreeWithPair(f, f.playbackStartTime + Increment);
    SingleEndChecksAgreeWithPair(f, f.playbackEndTime - Increment);
    SingleEndChecksAgreeWithPair(f, f.playbackEndTime + Increment);
  }

  /** `CMTimeClampToRange` into `[lower, upper]`. */
  function ClampToRange(t: Time, lower: Time, upper: Time): (r: Time)
    ensures lower <= upper ==> lower <= r <= upper
    ensures lower <= t <= upper ==> r == t
  {
    if t < lower then lower else if t > upper then upper else t
  }

  /** `didTapPrecision`: out to the whole asset when zoomed, else in to the window padded by 0.75 s, inside the asset. */
  function ZoomRange(f: FragmentHost, isPrecisionZoom: bool): (range: (Time, Time))
    ensures isPrecisionZoom ==> range == (0, f.assetDuration)
    ensures f.assetDuration >= 0 ==> 0 <= range.0 && range.1 <= f.assetDuration
  {
    if isPrecisionZoom then (0, f.assetDuration)
    else (ClampToRange(f.playbackStartTime - TrimZoomBuffer, 0, f.assetDuration),
          ClampToRange(f.playbackEndTime + TrimZoomBuffer, 0, f.assetDuration))
  }

  /** Zooming in on a well-formed window never cuts it: the zoom range contains the window. */
  lemma ZoomInContainsWindow(f: FragmentHost)
    requires WindowInvariant(f)
    ensures ZoomRange(f, false).0 <= f.playbackStartTime
    ensures f.playbackEndTime <= ZoomRange(f, false).1
  {
  }

  class WaveformTrimmerViewController {
    var fragment: Option<FragmentHost>
    var isPrecisionZoom: bool
    var precisionButtonEnabled: bool
    var nudgeButtons: NudgeButtons
    /** The position of the progress indicator. */
    var currentPlaybackTime: Time
    /** The ranges the waveform was asked to zoom to, in order. */
    var zoomRequests: seq<(Time, Time)>
    var delegateEvents: seq<TrimmerEvent>

    constructor ()
      ensures fragment.None? && !isPrecisionZoom && !precisionButtonEnabled
      ensures nudgeButtons == NudgeButtons(false, false, false, false)
      ensures zoomRequests == [] && delegateEvents == []
    {
      fragment := None;
      isPrecisionZoom := false;
      precisionButtonEnabled := false;
      nudgeButtons := NudgeButtons(false, false, false, false);
      currentPlaybackTime := 0;
      zoomRequests := [];
      delegateEvents := [];
    }

    /** `setFragment`: takes the fragment and recomputes the nudge buttons from it. */
    method SetFragment(f: FragmentHost)
      modifies this`fragment, this`nudgeButtons
      ensures fragment == Some(f)
      ensures nudgeButtons == NudgeButtonsFor(f)
    {
      fragment := Some(f);
      SetNudgeButtonsEnabled();
    }

    /** `playbackChanged(fragment:)`: the same as `setFragment`. */
    method PlaybackChanged(f: FragmentHost)
      modifies this`fragment, this`nudgeButtons
      ensures fragment == Some(f)
      ensures nudgeButtons == NudgeButtonsFor(f)
    {
      SetFragment(f);
    }

    method SetNudgeButtonsEnabled()
      modifies this`nudgeButtons
      ensures fragment.None? ==> nudgeButtons == old(nudgeButtons)
      ensures fragment.Some? ==> nudgeButtons == NudgeButtonsFor(fragment.value)
    {
      if fragment.Some? {
        nudgeButtons := NudgeButtonsFor(fragment.value);
      }
    }

    method SetPrecisionTrimButtonEnabled(startTime: Time, endTime: Time)
      modifies this`precisionButtonEnabled
      ensures fragment.None? ==> precisionButtonEnabled == old(precisionButtonEnabled)
      ensures fragment.Some? ==> precisionButtonEnabled == PrecisionButtonEnabled(fragment.value, startTime, endTime)
    {
      if fragment.Some? {
        precisionButtonEnabled := PrecisionButtonEnabled(fragment.value, startTime, endTime);
      }
    }

    /** `resetRange`: back to the unzoomed state with the precision button off. */
    method ResetRange()
      modifies this`isPrecisionZoom, this`precisionButtonEnabled
      ensures !isPrecisionZoom && !precisionButtonEnabled
    {
      isPrecisionZoom := false;
      precisionButtonEnabled := false;
    }

    /** `didTapPrecision`: zooms per `ZoomRange` and flips the zoom flag. */
    method DidTapPrecision()
      modifies this`zoomRequests, this`isPrecisionZoom
      ensures fragment.None? ==> zoomRequests == old(zoomRequests) && isPrecisionZoom == old(isPrecisionZoom)
      ensures fragment.Some? ==>
                && zoomRequests == old(zoomRequests) + [ZoomRange(fragment.value, old(isPrecisionZoom))]
                && isPrecisionZoom == !old(isPrecisionZoom)
    {
      if fragment.None? {
        return;
      }
      zoomRequests := zoomRequests + [ZoomRange(fragment.value, isPrecisionZoom)];
      isPrecisionZoom := !isPrecisionZoom;
    }

    /** The left "<" button: an earlier start, sent as direction -1. */
    method DidNudgeStartForward()
      modifies this`delegateEvents
      ensures delegateEvents == old(delegateEvents) + [DidNudgeStartTime(-1)]
    {
      delegateEvents := delegateEvents + [DidNudgeStartTime(-1)];
    }

    /** The left ">" button: a later start, sent as direction +1. */
    method DidNudgeStartBackward()
      modifies this`delegateEvents
      ensures delegateEvents == old(delegateEvents) + [DidNudgeStartTime(1)]
    {
      delegateEvents := delegateEvents + [DidNudgeStartTime(1)];
    }

    /** The right "<" button: an earlier end, sent as direction -1. */
    method DidNudgeEndForward()
      modifies this`delegateEvents
      ensures delegateEvents == old(delegateEvents) + [DidNudgeEndTime(-1)]
    {
      delegateEvents := delegateEvents + [DidNudgeEndTime(-1)];
    }

    /** The right ">" button: a later end, sent as direction +1. */
    method DidNudgeEndBackward()
      modifies this`delegateEvents
      ensures delegateEvents == old(delegateEvents) + [DidNudgeEndTime(1)]
    {
      delegateEvents := delegateEvents + [DidNudgeEndTime(1)];
    }

    /** `progressDragStarted`, also run when a scrub starts. */
    method ProgressDragStarted()
      modifies this`delegateEvents
      ensures delegateEvents == old(delegateEvents) + [DidStartProgressDrag]
    {
      delegateEvents := delegateEvents + [DidStartProgressDrag];
    }

    method ProgressDragChangedValue(sliderTime: Time)
      modifies this`delegateEvents
      ensures delegateEvents == old(delegateEvents) + [DidDragProgress(sliderTime)]
    {
      delegateEvents := delegateEvents + [DidDragProgress(sliderTime)];
    }

    method ProgressDragEnded(sliderTime: Time)
      modifies this`delegateEvents
      ensures delegateEvents == old(delegateEvents) + [DidFinishProgressDrag(sliderTime)]
    {
      delegateEvents := delegateEvents + [DidFinishProgressDrag(sliderTime)];
    }

    /**
     * `handleScrubberChangedValue`: the indicator follows the moved handle;
     * the precision button is recomputed for the dragged window, while the
     * nudge buttons are recomputed from the stored fragment, which the drag
     * has not changed yet.
     */
    method HandleScrubberChangedValue(trimStartTime: Option<Time>, trimEndTime: Option<Time>, draggingLeading: bool)
      modifies this`currentPlaybackTime, this`delegateEvents, this`precisionButtonEnabled, this`nudgeButtons
      ensures trimStartTime.None? || trimEndTime.None? ==> unchanged(this)
      ensures trimStartTime.Some? && trimEndTime.Some? ==>
                var time := if draggingLeading then trimStartTime.value else trimEndTime.value;
                && currentPlaybackTime == time
                && delegateEvents == old(delegateEvents) + [DidDragProgress(time)]
                && (fragment.Some? ==>
                      && precisionButtonEnabled == PrecisionButtonEnabled(fragment.value, trimStartTime.value, trimEndTime.value)
                      && nudgeButtons == NudgeButtonsFor(fragment.value))
                && (fragment.None? ==> precisionButtonEnabled == old(precisionButtonEnabled) && nudgeButtons == old(nudgeButtons))
    {
      if trimStartTime.None? || trimEndTime.None? {
        return;
      }
      var time := if draggingLeading then trimStartTime.value else trimEndTime.value;
      currentPlaybackTime := time;
      delegateEvents := delegateEvents + [DidDragProgress(time)];
      SetPrecisionTrimButtonEnabled(trimStartTime.value, trimEndTime.value);
      SetNudgeButtonsEnabled();
    }

    /**
     * `handleScrubberChangeEnded`: reports the new range with its end clamped
     * into the asset; the start is passed on as it is.
     */
    method HandleScrubberChangeEnded(trimStartTime: Option<Time>, trimEndTime: Option<Time>)
      requires trimStartTime.Some? && trimEndTime.Some? && fragment.Some? ==>
                 trimStartTime.value <= ClampedTime(trimEndTime.value, 0, fragment.value.assetDuration)
      modifies this`delegateEvents
      ensures trimStartTime.None? || trimEndTime.None? || fragment.None? ==> delegateEvents == old(delegateEvents)
      ensures trimStartTime.Some? && trimEndTime.Some? && fragment.Some? ==>
                delegateEvents == old(delegateEvents)
                  + [DidDragTrimmer(trimStartTime.value, ClampedTime(trimEndTime.value, 0, fragment.value.assetDuration))]
    {
      if trimStartTime.None? || trimEndTime.None? || fragment.None? {
        return;
      }
      var clampedEnd := ClampedTime(trimEndTime.value, 0, fragment.value.assetDuration);
      delegateEvents := delegateEvents + [DidDragTrimmer(trimStartTime.value, clampedEnd)];
    }
  }
}
