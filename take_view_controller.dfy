/**
 * The take bookkeeping around a recording: the take counter and limit, the
 * loop start times, the thumbnails and the hand-off to the take generator
 * (OpenCollab/Sources/ViewControllers/TakeViewController.swift).
 *
 * Calls into the capture controller, the timers and the delegate are
 * recorded as `TakeEvent`s in the order they are made.
 */
module TakeView {
  import opened Wrappers
  import opened Extensions
  import opened Strings
  import opened AssetInfoModel
  import opened FragmentHostModel
  import opened AssetComposerModel
  import opened AssetCopierModel
  import opened TakeGeneratorModel

  /** `Constants.takeLimit`. */
  const TakeLimit: int := 10
  /** `Constants.finalTakeLabel`. */
  const FinalTakeLabel: string := "Final Take"
  /** `countdownTimerLimit`: the countdown runs from 4. */
  const CountdownTimerLimit: int := 4

  datatype TakeEvent =
    | CaptureStartRecording
    | CountdownStarted(startCount: int, interval: Time)
    | CapturePhoto
    | StopScheduled
    | TakeProgressStarted(takeDuration: Time)
    | CaptureStopRecording(shouldDiscard: bool)
    | RemovedFile(url: Url)
    | ResetUI
    | DeliveredFragments(fragments: seq<FragmentHost>)
    | StoppedRecording
    | ReadyToRecord

  /**
   * The take label for take `takeCount` of this recording: the final take
   * shows the "Final Take" prefix and no number, any other shows its number
   * counted on from `initialTakeCount`.
   */
  function TakeLabelFor(takeCount: int, initialTakeCount: int): (r: (string, Option<string>))
    ensures r.1.Some? <==> takeCount == TakeLimit
    ensures r.1.Some? ==> r.1.value == FinalTakeLabel && r.0 == ""
    ensures r.1.None? ==> |r.0| > 0 && (r.0[0] == '-' <==> takeCount + initialTakeCount < 0)
    ensures r.1.None? ==> SignedValue(r.0) == takeCount + initialTakeCount
  {
    IntDecimalValue(takeCount + initialTakeCount);
    if takeCount == TakeLimit then ("", Some(FinalTakeLabel))
    else (IntToString(takeCount + initialTakeCount), None)
  }

  /** The recording's thumbnails laid over the generated fragments, position by position. */
  predicate HasThumbnails(fragments: seq<FragmentHost>, thumbnails: seq<Image>, r: seq<FragmentHost>)
  {
    && |r| == |fragments|
    && (forall i :: 0 <= i < |r| && i < |thumbnails| ==>
          r[i] == fragments[i].(localThumbnailImage := Some(thumbnails[i])))
    && (forall i :: |thumbnails| <= i < |r| ==> r[i] == fragments[i])
  }

  class TakeViewController {
    var takeStartTimes: seq<Time>
    var activeTakeThumbnails: seq<Image>
    const initialTakeCount: int
    var takeCountWhileRecording: int
    var shouldDiscardTakes: bool
    /** The countdown step, in ticks. */
    var countDownInterval: Time
    var syncOffsetAtStartOfRecord: Time
    const duration: Option<Time>
    const editPadding: Time
    var takeNumberText: string
    var takePrefix: Option<string>
    var takeLabelVisible: bool
    var events: seq<TakeEvent>

    constructor (duration: Option<Time>, countDownInterval: Time, editPadding: Time, initialTakeCount: int)
      ensures this.duration == duration && this.countDownInterval == countDownInterval
      ensures this.editPadding == editPadding && this.initialTakeCount == initialTakeCount
      ensures takeStartTimes == [] && activeTakeThumbnails == [] && takeCountWhileRecording == 0
      ensures !shouldDiscardTakes && syncOffsetAtStartOfRecord == 0
      ensures takeNumberText == " " && takePrefix == None && !takeLabelVisible
      ensures events == []
    {
      this.duration := duration;
      this.countDownInterval := countDownInterval;
      this.editPadding := editPadding;
      this.initialTakeCount := initialTakeCount;
      takeStartTimes := [];
      activeTakeThumbnails := [];
      takeCountWhileRecording := 0;
      shouldDiscardTakes := false;
      syncOffsetAtStartOfRecord := 0;
      takeNumberText := " ";
      takePrefix := None;
      takeLabelVisible := false;
      events := [];
    }

    /**
     * `startRecording()` as written: the counter and the start times restart,
     * but the thumbnails of an earlier recording stay.
     * `syncOffset` is the headphone manager's manual offset minus its
     * recording offset.
     */
    method StartRecordingAsWritten(syncOffset: Time)
      modifies this
      ensures takeCountWhileRecording == 0 && takeStartTimes == []
      ensures activeTakeThumbnails == old(activeTakeThumbnails)
      ensures syncOffsetAtStartOfRecord == syncOffset
      ensures events == old(events) + [CaptureStartRecording, CountdownStarted(CountdownTimerLimit, countDownInterval)]
      ensures shouldDiscardTakes == old(shouldDiscardTakes) && countDownInterval == old(countDownInterval)
      ensures takeNumberText == old(takeNumberText) && takePrefix == old(takePrefix)
      ensures takeLabelVisible == old(takeLabelVisible)
    {
      takeCountWhileRecording := 0;
      takeStartTimes := [];
      syncOffsetAtStartOfRecord := syncOffset;
      events := events + [CaptureStartRecording, CountdownStarted(CountdownTimerLimit, countDownInterval)];
    }

    /**
     * `startRecording()` with the thumbnails cleared as well, so that
     * thumbnail `i` always belongs to take `i` of the current recording.
     */
    method StartRecording(syncOffset: Time)
      modifies this
      ensures takeCountWhileRecording == 0 && takeStartTimes == [] && activeTakeThumbnails == []
      ensures syncOffsetAtStartOfRecord == syncOffset
      ensures events == old(events) + [CaptureStartRecording, CountdownStarted(CountdownTimerLimit, countDownInterval)]
      ensures shouldDiscardTakes == old(shouldDiscardTakes) && countDownInterval == old(countDownInterval)
      ensures takeNumberText == old(takeNumberText) && takePrefix == old(takePrefix)
      ensures takeLabelVisible == old(takeLabelVisible)
    {
      StartRecordingAsWritten(syncOffset);
      activeTakeThumbnails := [];
    }

    /**
     * `startTake(atTime:)`: nothing without a take duration; otherwise the
     * take is counted and its time kept, a photo is requested, and past the
     * take limit a stop is scheduled instead of updating the label.
     */
    method StartTake(atTime: Time)
      modifies this
      ensures duration.None? ==>
                takeCountWhileRecording == old(takeCountWhileRecording) && takeStartTimes == old(takeStartTimes)
                && events == old(events) && takeNumberText == old(takeNumberText)
                && takePrefix == old(takePrefix) && takeLabelVisible == old(takeLabelVisible)
      ensures duration.Some? ==>
                takeCountWhileRecording == old(takeCountWhileRecording) + 1
                && takeStartTimes == old(takeStartTimes) + [atTime]
      ensures duration.Some? && takeCountWhileRecording > TakeLimit ==>
                events == old(events) + [CapturePhoto, StopScheduled]
                && takeNumberText == old(takeNumberText) && takePrefix == old(takePrefix)
                && takeLabelVisible == old(takeLabelVisible)
      ensures duration.Some? && takeCountWhileRecording <= TakeLimit ==>
                var shown := TakeLabelFor(takeCountWhileRecording, initialTakeCount);
                takeNumberText == shown.0 && takeLabelVisible
                && takePrefix == (if shown.1.Some? then shown.1 else old(takePrefix))
                && events == old(events) + [CapturePhoto]
                             + (if duration.value == 0 then [] else [TakeProgressStarted(duration.value)])
      ensures activeTakeThumbnails == old(activeTakeThumbnails) && shouldDiscardTakes == old(shouldDiscardTakes)
      ensures syncOffsetAtStartOfRecord == old(syncOffsetAtStartOfRecord)
      ensures countDownInterval == old(countDownInterval)
    {
      if duration.None? {
        return;
      }
      takeCountWhileRecording := takeCountWhileRecording + 1;
      takeStartTimes := takeStartTimes + [atTime];
      events := events + [CapturePhoto];
      if takeCountWhileRecording > TakeLimit {
        events := events + [StopScheduled];
        return;
      }
      var currentTake := takeCountWhileRecording + initialTakeCount;
      var isFinalTake := takeCountWhileRecording == TakeLimit;
      var labelText := if isFinalTake then "" else IntToString(currentTake);
      var prefix: Option<string> := if isFinalTake then Some(FinalTakeLabel) else None;
      takeNumberText := labelText;
      if prefix.Some? {
        takePrefix := prefix;
      }
      takeLabelVisible := true;
      if duration.value != 0 {
        events := events + [TakeProgressStarted(duration.value)];
      }
    }

    /** `stopRecording()`: passes the discard decision on to the capture controller. */
    method StopRecording()
      modifies this`events
      ensures events == old(events) + [CaptureStopRecording(shouldDiscardTakes)]
    {
      events := events + [CaptureStopRecording(shouldDiscardTakes)];
    }

    /**
     * `getTakeThumbnail(takeNumber:)`: take numbers count from one. A number
     * below one indexes before the array, which traps in Swift.
     */
    method GetTakeThumbnail(takeNumber: int) returns (thumbnail: Option<Image>)
      requires takeNumber >= 1
      ensures takeNumber <= |activeTakeThumbnails| ==> thumbnail == Some(activeTakeThumbnails[takeNumber - 1])
      ensures takeNumber > |activeTakeThumbnails| <==> thumbnail == None
    {
      if takeNumber - 1 >= |activeTakeThumbnails| {
        return None;
      }
      thumbnail := Some(activeTakeThumbnails[takeNumber - 1]);
    }

    /** `reset()`: the countdown, label, progress bar and headphone message are hidden and the delegate restores its UI. */
    method Reset()
      modifies this`takeNumberText, this`takeLabelVisible, this`events
      ensures takeNumberText == "" && !takeLabelVisible
      ensures events == old(events) + [ResetUI]
    {
      takeNumberText := "";
      takeLabelVisible := false;
      events := events + [ResetUI];
    }

    /** `didEnterForeground`: resets unless the capture controller is recording. */
    method DidEnterForeground(captureIsRecording: bool)
      modifies this`takeNumberText, this`takeLabelVisible, this`events
      ensures captureIsRecording ==>
                events == old(events) && takeNumberText == old(takeNumberText)
                && takeLabelVisible == old(takeLabelVisible)
      ensures !captureIsRecording ==> events == old(events) + [ResetUI] && takeNumberText == "" && !takeLabelVisible
    {
      if captureIsRecording {
        return;
      }
      Reset();
    }

    /** `capturedPhoto(image:)`: thumbnails are kept in the order the photos arrive. */
    method CapturedPhoto(image: Image)
      modifies this`activeTakeThumbnails
      ensures activeTakeThumbnails == old(activeTakeThumbnails) + [image]
    {
      activeTakeThumbnails := activeTakeThumbnails + [image];
    }

    method ReadyToRecordCallback()
      modifies this`events
      ensures events == old(events) + [ReadyToRecord]
    {
      events := events + [ReadyToRecord];
    }

    method StoppedRecordingCallback()
      modifies this`events
      ensures events == old(events) + [StoppedRecording]
    {
      events := events + [StoppedRecording];
    }

    /** `recordingInterrupted()`: stops only a recording in progress. */
    method RecordingInterrupted(captureIsRecording: bool)
      modifies this`events
      ensures events == old(events) + (if captureIsRecording then [CaptureStopRecording(shouldDiscardTakes)] else [])
    {
      if captureIsRecording {
        StopRecording();
      }
    }

    /** The loop of `generatedFragments`: thumbnail `i` goes onto fragment `i` while both exist. */
    method ThumbnailedFragments(fragments: seq<FragmentHost>) returns (modifiedFragments: seq<FragmentHost>)
      ensures HasThumbnails(fragments, activeTakeThumbnails, modifiedFragments)
    {
      modifiedFragments := fragments;
      var index := 0;
      while index < |fragments|
        invariant 0 <= index <= |fragments|
        invariant |modifiedFragments| == |fragments|
        invariant forall i :: 0 <= i < index && i < |activeTakeThumbnails| ==>
                    modifiedFragments[i] == fragments[i].(localThumbnailImage := Some(activeTakeThumbnails[i]))
        invariant forall i :: index <= i < |fragments| ==> modifiedFragments[i] == fragments[i]
        invariant index > |activeTakeThumbnails| ==> index == |fragments|
        invariant forall i :: |activeTakeThumbnails| <= i < |fragments| ==> modifiedFragments[i] == fragments[i]
      {
        if index >= |activeTakeThumbnails| {
          break;
        }
        modifiedFragments := modifiedFragments[index :=
                               modifiedFragments[index].(localThumbnailImage := Some(activeTakeThumbnails[index]))];
        index := index + 1;
      }
    }

    /** `generatedFragments(fragments:)`: reset, then the thumbnailed fragments go to the delegate. */
    method GeneratedFragments(fragments: seq<FragmentHost>)
      modifies this`takeNumberText, this`takeLabelVisible, this`events
      ensures exists delivered :: HasThumbnails(fragments, activeTakeThumbnails, delivered)
                                  && events == old(events) + [ResetUI, DeliveredFragments(delivered)]
      ensures takeNumberText == "" && !takeLabelVisible
    {
      var modifiedFragments := ThumbnailedFragments(fragments);
      Reset();
      events := events + [DeliveredFragments(modifiedFragments)];
    }

    /** The generator's completion: a failure only resets, generated fragments get their thumbnails and go out. */
    method Deliver(outcome: GenerationOutcome)
      modifies this`takeNumberText, this`takeLabelVisible, this`events
      ensures takeNumberText == "" && !takeLabelVisible
      ensures match outcome
              case TakeGenerationFailed => events == old(events) + [ResetUI]
              case GeneratedFragments(fragments) =>
                exists delivered :: HasThumbnails(fragments, activeTakeThumbnails, delivered)
                                    && events == old(events) + [ResetUI, DeliveredFragments(delivered)]
    {
      match outcome {
        case TakeGenerationFailed =>
          Reset();
        case GeneratedFragments(fragments) =>
          GeneratedFragments(fragments);
      }
    }

    /**
     * `finishedRecording(url:recordStartTime:)`: a discarded recording, a
     * missing URL, a missing file or a missing start time only reset (the
     * file is removed where it is known to exist); otherwise a take generator
     * is built and run. `fileExists` is the file-system check; the tracks and
     * `copies` are what the generator finds.
     */
    method FinishedRecording(url: Option<Url>, fileExists: bool, recordStartTime: Option<Time>,
                             videoTrack: Option<TimeRange>, audioTrack: Option<TimeRange>,
                             copies: CopyKey -> Option<Url>) returns (generator: Option<TakeGenerator>)
      modifies this`takeNumberText, this`takeLabelVisible, this`events
      ensures shouldDiscardTakes ==>
                generator == None && events == old(events) + (if url.Some? then [RemovedFile(url.value)] else []) + [ResetUI]
      ensures !shouldDiscardTakes && (url.None? || !fileExists) ==>
                generator == None && events == old(events) + [ResetUI]
      ensures !shouldDiscardTakes && url.Some? && fileExists && recordStartTime.None? ==>
                generator == None && events == old(events) + [RemovedFile(url.value), ResetUI]
      ensures !shouldDiscardTakes && url.Some? && fileExists && recordStartTime.Some? ==>
                generator.Some? && fresh(generator.value)
                && generator.value.url == url.value && generator.value.takeDuration == duration
                && generator.value.durationPadding == editPadding
                && generator.value.recordStartTime == recordStartTime.value + syncOffsetAtStartOfRecord
                && generator.value.startTimes == takeStartTimes
                && generator.value.countDownTime == (if duration.None? then CountdownTimerLimit * countDownInterval else 0)
                && match generator.value.ExpectedOutcome(videoTrack, audioTrack, copies)
                   case TakeGenerationFailed => events == old(events) + [ResetUI]
                   case GeneratedFragments(fragments) =>
                     exists delivered :: HasThumbnails(fragments, activeTakeThumbnails, delivered)
                                         && events == old(events) + [ResetUI, DeliveredFragments(delivered)]
    {
      if shouldDiscardTakes {
        if url.Some? {
          events := events + [RemovedFile(url.value)];
        }
        Reset();
        return None;
      }
      if url.None? || !fileExists {
        Reset();
        return None;
      }
      if recordStartTime.None? {
        events := events + [RemovedFile(url.value)];
        Reset();
        return None;
      }
      var takeGenerator := BuildAndRunGenerator(url.value, recordStartTime.value, videoTrack, audioTrack, copies);
      generator := Some(takeGenerator);
    }

    /** The take generator `finishedRecording` builds for a kept recording, run and its answer delivered. */
    method BuildAndRunGenerator(url: Url, recordStartTime: Time, videoTrack: Option<TimeRange>,
                                audioTrack: Option<TimeRange>, copies: CopyKey -> Option<Url>)
      returns (takeGenerator: TakeGenerator)
      modifies this`takeNumberText, this`takeLabelVisible, this`events
      ensures fresh(takeGenerator)
      ensures takeGenerator.url == url && takeGenerator.takeDuration == duration
              && takeGenerator.durationPadding == editPadding
              && takeGenerator.recordStartTime == recordStartTime + syncOffsetAtStartOfRecord
              && takeGenerator.startTimes == takeStartTimes
              && takeGenerator.countDownTime == (if duration.None? then CountdownTimerLimit * countDownInterval else 0)
      ensures match takeGenerator.ExpectedOutcome(videoTrack, audioTrack, copies)
              case TakeGenerationFailed => events == old(events) + [ResetUI]
              case GeneratedFragments(fragments) =>
                exists delivered :: HasThumbnails(fragments, activeTakeThumbnails, delivered)
                                    && events == old(events) + [ResetUI, DeliveredFragments(delivered)]
    {
      var countDownPadding := if duration.None? then CountdownTimerLimit * countDownInterval else 0;
      var shiftedStartTime := recordStartTime + syncOffsetAtStartOfRecord;
      takeGenerator := new TakeGenerator(url, duration, editPadding, shiftedStartTime,
                                         takeStartTimes, countDownPadding);
      GenerateAndDeliver(takeGenerator, videoTrack, audioTrack, copies);
    }

    /** The generator run at the end of `finishedRecording`, and its answer delivered. */
    method GenerateAndDeliver(takeGenerator: TakeGenerator, videoTrack: Option<TimeRange>, audioTrack: Option<TimeRange>,
                              copies: CopyKey -> Option<Url>)
      modifies this`takeNumberText, this`takeLabelVisible, this`events
      ensures match takeGenerator.ExpectedOutcome(videoTrack, audioTrack, copies)
              case TakeGenerationFailed => events == old(events) + [ResetUI]
              case GeneratedFragments(fragments) =>
                exists delivered :: HasThumbnails(fragments, activeTakeThumbnails, delivered)
                                    && events == old(events) + [ResetUI, DeliveredFragments(delivered)]
    {
      var outcome := takeGenerator.GenerateTakes(videoTrack, audioTrack, copies);
      Deliver(outcome);
    }
  }

  /**
   * Two recordings on one controller, as written: a first recording with one
   * take whose photo arrives is discarded, a second one starts, and its
   * first take is delivered with the first recording's thumbnail.
   */
  method StaleThumbnailAfterRestart(fragment: FragmentHost) returns (delivered: FragmentHost)
    ensures delivered.localThumbnailImage == Some(Image(1))
  {
    var controller := new TakeViewController(Some(2400), 600, 0, 0);
    controller.StartRecordingAsWritten(0);
    controller.StartTake(0);
    controller.CapturedPhoto(Image(1));
    controller.StartRecordingAsWritten(0);
    controller.StartTake(0);
    controller.CapturedPhoto(Image(2));
    var fragments := controller.ThumbnailedFragments([fragment]);
    delivered := fragments[0];
  }

  /** The same two recordings with `StartRecording`: the take gets its own photo. */
  method FreshThumbnailAfterRestart(fragment: FragmentHost) returns (delivered: FragmentHost)
    ensures delivered.localThumbnailImage == Some(Image(2))
  {
    var controller := new TakeViewController(Some(2400), 600, 0, 0);
    controller.StartRecording(0);
    controller.StartTake(0);
    controller.CapturedPhoto(Image(1));
    controller.StartRecording(0);
    controller.StartTake(0);
    controller.CapturedPhoto(Image(2));
    var fragments := controller.ThumbnailedFragments([fragment]);
    delivered := fragments[0];
  }
}
