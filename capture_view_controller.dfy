/**
 * The camera side of recording: the device and format choice, the flip
 * between cameras, and the cut-off that lets a recording run on until both
 * audio and video have caught up
 * (OpenCollab/Sources/ViewControllers/CaptureViewController.swift).
 *
 * The capture session, the asset recorder and the host clock are outside
 * the model: what they report arrives as parameters, and what is asked of
 * them is recorded as `CaptureEvent`s.
 */
module CaptureView {
  import opened Wrappers
  import opened Extensions
  import opened AssetInfoModel
  import opened RecordingAuthorizerModel

  /** `Constants.frameCaptureBuffer`: 0.05 s at timescale 600. */
  const FrameCaptureBuffer: Time := 30

  datatype Position = Unspecified | Front | Back
  datatype DeviceType = UltraWideCamera | DualWideCamera | WideAngleCamera | DualCamera | TrueDepthCamera

  datatype Device = Device(position: Position, deviceType: DeviceType)

  datatype FrameRateRange = FrameRateRange(maxFrameRate: real, minFrameDuration: Time)
  datatype Format = Format(id: nat, videoSupportedFrameRateRanges: seq<FrameRateRange>)

  datatype SetupResult = Undetermined | Success | NotAuthorized(status: RecordingAuthorizationStatus) | ConfigurationFailed

  datatype CaptureError = CouldNotFlipCamera | TriedToModifyCaptureWhileNotReady

  /** How the future returned by `flipCamera()` ends. */
  datatype FlipOutcome = FlipFailed(error: CaptureError) | Flipped | NeverCompleted

  datatype MediaType = Audio | Video

  datatype CaptureEvent =
    | ConfiguredDevice(format: Format, minFrameDuration: Time)
    | StoppedRecording
    | RecorderFinishRequested
    | AppendedSample(mediaType: MediaType, sampleTime: Time)
    | ReadyToRecord
    | FinishedRecording(url: Option<Url>, recordStartTime: Option<Time>)

  /** The order in which the nested loops visit (format, range) pairs. */
  predicate VisitedBefore(f1: int, r1: int, f2: int, r2: int)
  {
    f1 < f2 || (f1 == f2 && r1 < r2)
  }

  predicate IsRange(formats: seq<Format>, f: int, r: int)
  {
    0 <= f < |formats| && 0 <= r < |formats[f].videoSupportedFrameRateRanges|
  }

  function RateOf(formats: seq<Format>, f: int, r: int): real
    requires IsRange(formats, f, r)
  {
    formats[f].videoSupportedFrameRateRanges[r].maxFrameRate
  }

  /**
   * The search in `configureCameraForHighestFrameRate(device:)`: the pair
   * with the strictly greatest positive maximum frame rate, the first one
   * visited on ties, none when no rate is positive.
   */
  method HighestFrameRate(formats: seq<Format>) returns (best: Option<(nat, nat)>)
    ensures best.None? <==> forall f, r :: IsRange(formats, f, r) ==> RateOf(formats, f, r) <= 0.0
    ensures best.Some? ==>
              var (bf, br) := best.value;
              && IsRange(formats, bf, br)
              && RateOf(formats, bf, br) > 0.0
              && (forall f, r :: IsRange(formats, f, r) && VisitedBefore(f, r, bf, br) ==>
                    RateOf(formats, f, r) < RateOf(formats, bf, br))
              && (forall f, r :: IsRange(formats, f, r) ==> RateOf(formats, f, r) <= RateOf(formats, bf, br))
  {
    best := None;
    var f := 0;
    while f < |formats|
      invariant 0 <= f <= |formats|
      invariant best.None? ==> forall g, r :: IsRange(formats, g, r) && g < f ==> RateOf(formats, g, r) <= 0.0
      invariant best.Some? ==>
                  var (bf, br) := best.value;
                  && IsRange(formats, bf, br) && bf < f
                  && RateOf(formats, bf, br) > 0.0
                  && (forall g, r :: IsRange(formats, g, r) && VisitedBefore(g, r, bf, br) ==>
                        RateOf(formats, g, r) < RateOf(formats, bf, br))
                  && (forall g, r :: IsRange(formats, g, r) && g < f ==> RateOf(formats, g, r) <= RateOf(formats, bf, br))
    {
      best := ScanFormat(formats, f, best);
      f := f + 1;
    }
  }

  /** The inner loop over the ranges of format `f`. */
  method ScanFormat(formats: seq<Format>, f: nat, bestSoFar: Option<(nat, nat)>) returns (best: Option<(nat, nat)>)
    requires f < |formats|
    requires bestSoFar.None? ==> forall g, r :: IsRange(formats, g, r) && g < f ==> RateOf(formats, g, r) <= 0.0
    requires bestSoFar.Some? ==>
               var (bf, br) := bestSoFar.value;
               && IsRange(formats, bf, br) && bf < f
               && RateOf(formats, bf, br) > 0.0
               && (forall g, r :: IsRange(formats, g, r) && VisitedBefore(g, r, bf, br) ==>
                     RateOf(formats, g, r) < RateOf(formats, bf, br))
               && (forall g, r :: IsRange(formats, g, r) && g < f ==> RateOf(formats, g, r) <= RateOf(formats, bf, br))
    ensures best.None? ==> forall g, r :: IsRange(formats, g, r) && g <= f ==> RateOf(formats, g, r) <= 0.0
    ensures best.Some? ==>
              var (bf, br) := best.value;
              && IsRange(formats, bf, br) && bf <= f
              && RateOf(formats, bf, br) > 0.0
              && (forall g, r :: IsRange(formats, g, r) && VisitedBefore(g, r, bf, br) ==>
                    RateOf(formats, g, r) < RateOf(formats, bf, br))
              && (forall g, r :: IsRange(formats, g, r) && g <= f ==> RateOf(formats, g, r) <= RateOf(formats, bf, br))
  {
    best := bestSoFar;
    var ranges := formats[f].videoSupportedFrameRateRanges;
    var r := 0;
    while r < |ranges|
      invariant 0 <= r <= |ranges|
      invariant best.None? ==>
                  (forall g, q :: IsRange(formats, g, q) && g < f ==> RateOf(formats, g, q) <= 0.0)
                  && (forall q :: 0 <= q < r ==> RateOf(formats, f, q) <= 0.0)
      invariant best.Some? ==>
                  var (bf, br) := best.value;
                  && IsRange(formats, bf, br) && VisitedBefore(bf, br, f, r)
                  && RateOf(formats, bf, br) > 0.0
                  && (forall g, q :: IsRange(formats, g, q) && VisitedBefore(g, q, bf, br) ==>
                        RateOf(formats, g, q) < RateOf(formats, bf, br))
                  && (forall g, q :: IsRange(formats, g, q) && g < f ==> RateOf(formats, g, q) <= RateOf(formats, bf, br))
                  && (forall q :: 0 <= q < r ==> RateOf(formats, f, q) <= RateOf(formats, bf, br))
    {
      var bestRate := if best.Some? then RateOf(formats, best.value.0, best.value.1) else 0.0;
      if ranges[r].maxFrameRate > bestRate {
        best := Some((f, r));
      }
      r := r + 1;
    }
  }

  /** `flipCamera()`: the position and type it looks for, given where the camera is now. */
  function FlipTarget(currentPosition: Position): (target: (Position, DeviceType))
    ensures currentPosition == Back <==> target.0 == Front
    ensures target.0 == Front ==> target.1 == TrueDepthCamera
    ensures target.0 == Back ==> target.1 == UltraWideCamera
  {
    match currentPosition
    case Back => (Front, TrueDepthCamera)
    case _ => (Back, UltraWideCamera)
  }

  function FirstWithPosition(devices: seq<Device>, position: Position): (r: Option<nat>)
    ensures r.Some? ==> r.value < |devices| && devices[r.value].position == position
                        && forall j :: 0 <= j < r.value ==> devices[j].position != position
    ensures r.None? ==> forall j :: 0 <= j < |devices| ==> devices[j].position != position
  {
    if |devices| == 0 then None
    else if devices[0].position == position then Some(0)
    else match FirstWithPosition(devices[1..], position)
         case None => None
         case Some(i) => Some(i + 1)
  }

  /** The discovery list is looked up for the target device itself first, then for any device at the target position. */
  function FlipDevice(devices: seq<Device>, currentPosition: Position): (d: Option<Device>)
    ensures d.Some? ==> d.value in devices && d.value.position == FlipTarget(currentPosition).0
    ensures d.None? <==> forall j :: 0 <= j < |devices| ==> devices[j].position != FlipTarget(currentPosition).0
    ensures Device(FlipTarget(currentPosition).0, FlipTarget(currentPosition).1) in devices ==>
              d == Some(Device(FlipTarget(currentPosition).0, FlipTarget(currentPosition).1))
  {
    var (position, deviceType) := FlipTarget(currentPosition);
    var target := Device(position, deviceType);
    if target in devices then Some(target)
    else match FirstWithPosition(devices, position)
         case None => None
         case Some(i) => Some(devices[i])
  }

  /** The front cameras `configureSession` tries, in order. */
  const FrontCameraPreference: seq<DeviceType> := [UltraWideCamera, DualWideCamera, WideAngleCamera, DualCamera]

  /** The position of the first preferred type that is available. */
  function FirstAvailableIndex(preference: seq<DeviceType>, available: set<DeviceType>): (r: Option<nat>)
    ensures r.Some? ==> r.value < |preference| && preference[r.value] in available
                        && forall j :: 0 <= j < r.value ==> preference[j] !in available
    ensures r.None? <==> forall j :: 0 <= j < |preference| ==> preference[j] !in available
  {
    if |preference| == 0 then None
    else if preference[0] in available then Some(0)
    else match FirstAvailableIndex(preference[1..], available)
         case None => None
         case Some(i) => Some(i + 1)
  }

  function FirstAvailable(preference: seq<DeviceType>, available: set<DeviceType>): (r: Option<DeviceType>)
    ensures r.Some? ==> r.value in available
    ensures r.None? <==> forall j :: 0 <= j < |preference| ==> preference[j] !in available
  {
    match FirstAvailableIndex(preference, available)
    case None => None
    case Some(i) => Some(preference[i])
  }

  /** The ultra-wide front camera wins whenever there is one; the dual camera only when nothing else is there. */
  lemma FrontCameraChoice(available: set<DeviceType>)
    ensures UltraWideCamera in available ==> FirstAvailable(FrontCameraPreference, available) == Some(UltraWideCamera)
    ensures FirstAvailable(FrontCameraPreference, available) == Some(DualCamera) ==>
              DualCamera in available && UltraWideCamera !in available
              && DualWideCamera !in available && WideAngleCamera !in available
    ensures FirstAvailable(FrontCameraPreference, available) != Some(TrueDepthCamera)
  {
    var r := FirstAvailableIndex(FrontCameraPreference, available);
    if r.Some? && FrontCameraPreference[r.value] == DualCamera {
      assert r.value == 3;
      assert FrontCameraPreference[0] !in available && FrontCameraPreference[1] !in available;
      assert FrontCameraPreference[2] !in available;
    }
  }

  class CaptureViewController {
    var setupResult: SetupResult
    var assetRecorderIsReadyToRecord: bool
    var isRecording: bool
    var stopRecordingTime: Limit
    var allAudioSamplesCaptured: bool
    var allVideoSamplesCaptured: bool
    /** `videoDeviceInput.device`, once the session has one. */
    var currentDevice: Option<Device>
    var events: seq<CaptureEvent>

    constructor ()
      ensures setupResult == Undetermined && !assetRecorderIsReadyToRecord && !isRecording
      ensures stopRecordingTime == PositiveInfinity
      ensures !allAudioSamplesCaptured && !allVideoSamplesCaptured
      ensures currentDevice == None && events == []
    {
      setupResult := Undetermined;
      assetRecorderIsReadyToRecord := false;
      isRecording := false;
      stopRecordingTime := PositiveInfinity;
      allAudioSamplesCaptured := false;
      allVideoSamplesCaptured := false;
      currentDevice := None;
      events := [];
    }

    /** `isReadyToRecord`: set up successfully and the asset recorder prepared. */
    predicate IsReadyToRecord()
      reads this
    {
      setupResult == Success && assetRecorderIsReadyToRecord
    }

    /** The `isRecording` setter: clearing it also lifts the cut-off. */
    method SetIsRecording(value: bool)
      modifies this`isRecording, this`stopRecordingTime
      ensures isRecording == value
      ensures stopRecordingTime == if value then old(stopRecordingTime) else PositiveInfinity
    {
      isRecording := value;
      if !isRecording {
        stopRecordingTime := PositiveInfinity;
      }
    }

    /** The authorization answer of `viewDidLoad`. */
    method AuthorizationResolved(status: RecordingAuthorizationStatus)
      modifies this`setupResult
      ensures setupResult == if status == FullyAuthorized then Success else NotAuthorized(status)
    {
      if status != FullyAuthorized {
        setupResult := NotAuthorized(status);
      } else {
        setupResult := Success;
      }
    }

    /**
     * `configureSession()`: nothing after a failed configuration; otherwise
     * the preferred front camera, configured for its highest frame rate,
     * then the audio input and the video, audio and photo outputs. The
     * session's answers are parameters: `inputAdded` is whether it accepted
     * the camera's input, `audioInputAdded` whether a microphone exists and
     * its input was made and accepted, and `outputsAdded` whether it accepted
     * all three outputs. Any refusal fails the configuration there, and the
     * camera stays the device once its input is in.
     */
    method ConfigureSession(available: set<DeviceType>, formats: seq<Format>, inputAdded: bool,
                            audioInputAdded: bool, outputsAdded: bool)
      modifies this`setupResult, this`currentDevice, this`events
      ensures old(setupResult) == ConfigurationFailed ==>
                setupResult == old(setupResult) && currentDevice == old(currentDevice) && events == old(events)
      ensures old(setupResult) != ConfigurationFailed && FirstAvailable(FrontCameraPreference, available).None? ==>
                setupResult == ConfigurationFailed && currentDevice == old(currentDevice) && events == old(events)
      ensures old(setupResult) != ConfigurationFailed && FirstAvailable(FrontCameraPreference, available).Some? ==>
                |old(events)| <= |events| <= |old(events)| + 1 && events[..|old(events)|] == old(events)
                && (inputAdded ==>
                      currentDevice == Some(Device(Front, FirstAvailable(FrontCameraPreference, available).value))
                      && (audioInputAdded && outputsAdded ==> setupResult == old(setupResult))
                      && (!(audioInputAdded && outputsAdded) ==> setupResult == ConfigurationFailed))
                && (!inputAdded ==> setupResult == ConfigurationFailed && currentDevice == old(currentDevice))
    {
      if setupResult == ConfigurationFailed {
        return;
      }
      var deviceType := FirstAvailable(FrontCameraPreference, available);
      if deviceType.None? {
        setupResult := ConfigurationFailed;
        return;
      }
      ConfigureCameraForHighestFrameRate(formats);
      if inputAdded {
        currentDevice := Some(Device(Front, deviceType.value));
      } else {
        setupResult := ConfigurationFailed;
        return;
      }
      if !audioInputAdded {
        setupResult := ConfigurationFailed;
        return;
      }
      if !outputsAdded {
        setupResult := ConfigurationFailed;
      }
    }

    /** `configureCameraForHighestFrameRate(device:)`: the device is configured only when some range has a positive rate. */
    method ConfigureCameraForHighestFrameRate(formats: seq<Format>)
      modifies this`events
      ensures (forall f, r :: IsRange(formats, f, r) ==> RateOf(formats, f, r) <= 0.0) ==> events == old(events)
      ensures (exists f, r :: IsRange(formats, f, r) && RateOf(formats, f, r) > 0.0) ==>
                exists bf, br ::
                  && IsRange(formats, bf, br)
                  && events == old(events) + [ConfiguredDevice(formats[bf],
                                                               formats[bf].videoSupportedFrameRateRanges[br].minFrameDuration)]
                  && (forall f, r :: IsRange(formats, f, r) && VisitedBefore(f, r, bf, br) ==>
                        RateOf(formats, f, r) < RateOf(formats, bf, br))
                  && (forall f, r :: IsRange(formats, f, r) ==> RateOf(formats, f, r) <= RateOf(formats, bf, br))
    {
      var best := HighestFrameRate(formats);
      if best.Some? {
        var (bf, br) := best.value;
        events := events + [ConfiguredDevice(formats[bf], formats[bf].videoSupportedFrameRateRanges[br].minFrameDuration)];
      }
    }

    /**
     * `flipCamera()`: refused unless ready; a flip asked for while recording,
     * or with no camera at the target position, never completes. Otherwise
     * `inputCreated` is whether the new input could be made and `canAddInput`
     * whether the session took it; the old camera stays when it did not.
     */
    method FlipCamera(devices: seq<Device>, inputCreated: bool, canAddInput: bool) returns (outcome: FlipOutcome)
      modifies this`currentDevice
      ensures !old(IsReadyToRecord()) ==> outcome == FlipFailed(TriedToModifyCaptureWhileNotReady)
      ensures old(IsReadyToRecord()) && isRecording ==> outcome == NeverCompleted
      ensures outcome == Flipped ==>
                old(currentDevice).Some? && inputCreated
                && FlipDevice(devices, old(currentDevice).value.position).Some?
                && currentDevice == (if canAddInput then FlipDevice(devices, old(currentDevice).value.position)
                                     else old(currentDevice))
      ensures outcome != Flipped ==> currentDevice == old(currentDevice)
      ensures old(IsReadyToRecord()) && !isRecording && old(currentDevice).Some? ==>
                var target := FlipDevice(devices, old(currentDevice).value.position);
                (target.None? ==> outcome == NeverCompleted)
                && (target.Some? && !inputCreated ==> outcome == FlipFailed(CouldNotFlipCamera))
                && (target.Some? && inputCreated ==> outcome == Flipped)
    {
      if !IsReadyToRecord() {
        return FlipFailed(TriedToModifyCaptureWhileNotReady);
      }
      if isRecording || currentDevice.None? {
        return NeverCompleted;
      }
      var newVideoDevice := FlipDevice(devices, currentDevice.value.position);
      if newVideoDevice.None? {
        return NeverCompleted;
      }
      if !inputCreated {
        return FlipFailed(CouldNotFlipCamera);
      }
      if canAddInput {
        currentDevice := newVideoDevice;
      }
      outcome := Flipped;
    }

    /**
     * `startRecording()` as written: the flags that say a media type has
     * passed the cut-off keep their values from the last recording.
     */
    method StartRecordingAsWritten()
      modifies this`isRecording, this`stopRecordingTime
      ensures isRecording && stopRecordingTime == old(stopRecordingTime)
    {
      SetIsRecording(true);
    }

    /** `startRecording()` with both cut-off flags cleared for the new recording. */
    method StartRecording()
      modifies this`isRecording, this`stopRecordingTime, this`allAudioSamplesCaptured, this`allVideoSamplesCaptured
      ensures isRecording && stopRecordingTime == old(stopRecordingTime)
      ensures !allAudioSamplesCaptured && !allVideoSamplesCaptured
    {
      StartRecordingAsWritten();
      allAudioSamplesCaptured := false;
      allVideoSamplesCaptured := false;
    }

    /** `finishRecording()`: recording ends and the asset recorder is asked to finish. */
    method FinishRecording()
      modifies this`isRecording, this`stopRecordingTime, this`events
      ensures !isRecording && stopRecordingTime == PositiveInfinity
      ensures events == old(events) + [RecorderFinishRequested]
    {
      SetIsRecording(false);
      events := events + [RecorderFinishRequested];
    }

    /**
     * `stopRecording(shouldDiscard:)`: a recording that is kept runs on until
     * the cut-off `now + 0.05 s`; anything else finishes at once. `now` is
     * the host clock in ticks.
     */
    method StopRecording(shouldDiscard: bool, now: Time)
      modifies this`isRecording, this`stopRecordingTime, this`events
      ensures old(isRecording) && !shouldDiscard ==>
                isRecording && stopRecordingTime == Finite(now + FrameCaptureBuffer)
                && events == old(events) + [StoppedRecording]
      ensures !(old(isRecording) && !shouldDiscard) ==>
                !isRecording && stopRecordingTime == PositiveInfinity
                && events == old(events) + [StoppedRecording, RecorderFinishRequested]
    {
      events := events + [StoppedRecording];
      if isRecording && !shouldDiscard {
        stopRecordingTime := Finite(now + FrameCaptureBuffer);
      } else {
        FinishRecording();
      }
    }

    /** `sessionWasInterrupted`: a recording in progress is kept, anything else discarded. */
    method SessionWasInterrupted(now: Time)
      modifies this`isRecording, this`stopRecordingTime, this`events
      ensures old(isRecording) ==>
                isRecording && stopRecordingTime == Finite(now + FrameCaptureBuffer)
                && events == old(events) + [StoppedRecording]
      ensures !old(isRecording) ==>
                !isRecording && stopRecordingTime == PositiveInfinity
                && events == old(events) + [StoppedRecording, RecorderFinishRequested]
    {
      StopRecording(!isRecording, now);
    }

    /**
     * `captureOutput(_:didOutput:from:)`: while recording, a sample up to the
     * cut-off is appended; a later one marks its media type as complete, and
     * the recording finishes once both are.
     */
    method CaptureOutput(mediaType: MediaType, sampleTime: Time)
      modifies this`isRecording, this`stopRecordingTime, this`events,
               this`allAudioSamplesCaptured, this`allVideoSamplesCaptured
      ensures !old(isRecording) ==>
                isRecording == old(isRecording) && events == old(events)
                && stopRecordingTime == old(stopRecordingTime)
                && allAudioSamplesCaptured == old(allAudioSamplesCaptured)
                && allVideoSamplesCaptured == old(allVideoSamplesCaptured)
      ensures old(isRecording) && AtOrBelow(sampleTime, old(stopRecordingTime)) ==>
                isRecording && events == old(events) + [AppendedSample(mediaType, sampleTime)]
                && stopRecordingTime == old(stopRecordingTime)
                && allAudioSamplesCaptured == old(allAudioSamplesCaptured)
                && allVideoSamplesCaptured == old(allVideoSamplesCaptured)
      ensures old(isRecording) && !AtOrBelow(sampleTime, old(stopRecordingTime)) ==>
                allAudioSamplesCaptured == (old(allAudioSamplesCaptured) || mediaType == Audio)
                && allVideoSamplesCaptured == (old(allVideoSamplesCaptured) || mediaType == Video)
                && (allAudioSamplesCaptured && allVideoSamplesCaptured ==>
                      !isRecording && events == old(events) + [RecorderFinishRequested])
                && (!(allAudioSamplesCaptured && allVideoSamplesCaptured) ==>
                      isRecording && events == old(events) && stopRecordingTime == old(stopRecordingTime))
    {
      if !isRecording {
        return;
      }
      var sampleWithinRecordingLimit := AtOrBelow(sampleTime, stopRecordingTime);
      if !sampleWithinRecordingLimit {
        allAudioSamplesCaptured := if mediaType == Audio then true else allAudioSamplesCaptured;
        allVideoSamplesCaptured := if mediaType == Video then true else allVideoSamplesCaptured;
        if allVideoSamplesCaptured && allAudioSamplesCaptured {
          FinishRecording();
        }
        return;
      }
      events := events + [AppendedSample(mediaType, sampleTime)];
    }

    /** `assetRecorderDidFinishPreparing()`. */
    method AssetRecorderDidFinishPreparing()
      modifies this`assetRecorderIsReadyToRecord, this`events
      ensures assetRecorderIsReadyToRecord
      ensures events == old(events) + [ReadyToRecord]
    {
      assetRecorderIsReadyToRecord := true;
      events := events + [ReadyToRecord];
    }

    /**
     * `assetRecorderDidFinishRecording(url:recordStartTime:)`: the recorder
     * has to be prepared again; `savedURL` is where the asset manager kept
     * the file, if it did.
     */
    method AssetRecorderDidFinishRecording(savedURL: Option<Url>, recordStartTime: Time)
      modifies this`assetRecorderIsReadyToRecord, this`events
      ensures !assetRecorderIsReadyToRecord && !IsReadyToRecord()
      ensures events == old(events) + [FinishedRecording(savedURL, Some(recordStartTime))]
    {
      assetRecorderIsReadyToRecord := false;
      events := events + [FinishedRecording(savedURL, Some(recordStartTime))];
    }

    /** `assetRecorderError()`: reported as a recording without a file. */
    method AssetRecorderError()
      modifies this`events
      ensures events == old(events) + [FinishedRecording(None, None)]
    {
      events := events + [FinishedRecording(None, None)];
    }
  }

  /**
   * Two kept recordings on one controller, as written: the first ends
   * normally once a late video and a late audio sample have arrived; in the
   * second, the first late video sample alone ends it, before any late audio.
   */
  method SecondRecordingEndsOnFirstLateSample() returns (stillRecording: bool)
    ensures !stillRecording
  {
    var capture := new CaptureViewController();
    capture.StartRecordingAsWritten();
    capture.StopRecording(false, 0);
    capture.CaptureOutput(Video, 40);
    capture.CaptureOutput(Audio, 40);
    capture.StartRecordingAsWritten();
    capture.StopRecording(false, 600);
    capture.CaptureOutput(Video, 640);
    stillRecording := capture.isRecording;
  }

  /** The same two recordings with `StartRecording`: the second waits for a late audio sample too. */
  method SecondRecordingWaitsForBothTypes() returns (stillRecording: bool)
    ensures stillRecording
  {
    var capture := new CaptureViewController();
    capture.StartRecording();
    capture.StopRecording(false, 0);
    capture.CaptureOutput(Video, 40);
    capture.CaptureOutput(Audio, 40);
    capture.StartRecording();
    capture.StopRecording(false, 600);
    capture.CaptureOutput(Video, 640);
    stillRecording := capture.isRecording;
  }
}
