/**
 * The record, flip-camera, camera-roll, metronome and next buttons under
 * the camera, and the metronome's beat animation
 * (OpenCollab/Sources/ViewControllers/RecordActionViewController.swift).
 *
 * Each button is its `isHidden` flag; show and hide animations are taken
 * as finished at once. The host clock reading is `now`, whether the view
 * is on screen is `inHierarchy`, and the length of one beat that
 * `BeatSnapper.timePerBeat` gives for the BPM is `timePerBeat`.
 */
module RecordActionView {
  import opened Wrappers
  import opened Extensions

  datatype RecordButtonState = NotRecording | WaitingToRecord | Recording

  /** The repeating scale animation: first beat after `beginsAfter`, one beat every `period`. */
  datatype BeatAnimation = BeatAnimation(beginsAfter: Time, period: Time)

  /** Beat number `k` after `startTime`. */
  function Beat(startTime: Time, timePerBeat: Time, k: int): Time
  {
    startTime + k * timePerBeat
  }

  /**
   * The next-beat search of `startMetronomeAnimation`: step one beat at a
   * time from the first beat after `startTime` until not earlier than
   * `now`. The result is the first beat, counting from 1, at or after `now`.
   */
  method NextBeat(startTime: Time, timePerBeat: Time, now: Time) returns (nextBeat: Time)
    requires timePerBeat > 0
    ensures nextBeat >= now
    ensures exists k :: k >= 1 && nextBeat == Beat(startTime, timePerBeat, k)
    ensures forall j :: j >= 1 && Beat(startTime, timePerBeat, j) >= now ==> nextBeat <= Beat(startTime, timePerBeat, j)
  {
    ghost var k := 1;
    nextBeat := startTime + timePerBeat;
    while Compare(nextBeat, now) < 0
      invariant k >= 1 && nextBeat == Beat(startTime, timePerBeat, k)
      invariant forall j :: 1 <= j < k ==> Beat(startTime, timePerBeat, j) < now
      decreases now - nextBeat
    {
      nextBeat := nextBeat + timePerBeat;
      k := k + 1;
    }
    forall j | j >= 1 && Beat(startTime, timePerBeat, j) >= now
      ensures nextBeat <= Beat(startTime, timePerBeat, j)
    {
      if j > k {
        MulGap(j, k, timePerBeat);
      }
    }
  }

  /**
   * The animation pulses once a beat, its first pulse on the first beat
   * after `startTime` that is not earlier than `now`; so that pulse is
   * never in the past.
   */
  ghost predicate PulsesFromNextBeat(a: BeatAnimation, startTime: Time, timePerBeat: Time, now: Time)
  {
    a.period == timePerBeat && a.beginsAfter >= 0
    && exists k :: k >= 1 && now + a.beginsAfter == Beat(startTime, timePerBeat, k)
                   && (k == 1 || Beat(startTime, timePerBeat, k - 1) < now)
  }

  class RecordActionViewController {
    const metronomeEnabled: bool
    var recordButtonHidden: bool
    var flipCameraButtonHidden: bool
    var cameraRollButtonHidden: bool
    var nextButtonHidden: bool
    var metronomeButtonHidden: bool
    var metronomeEditHidden: bool
    var replacementMessageHidden: bool
    /** `isUserInteractionEnabled`, which the five buttons only ever change together. */
    var buttonsEnabled: bool
    var recordState: RecordButtonState
    /** A start request made while off screen, replayed by `viewDidAppear`. */
    var animationBPM: Option<int>
    var animationStartTime: Option<Time>
    var overlayVisible: bool
    var animation: Option<BeatAnimation>

    constructor (metronomeEnabled: bool)
      ensures this.metronomeEnabled == metronomeEnabled
      ensures !recordButtonHidden && !flipCameraButtonHidden && !cameraRollButtonHidden && !nextButtonHidden
      ensures !metronomeButtonHidden && !metronomeEditHidden && !replacementMessageHidden && buttonsEnabled
      ensures recordState == NotRecording && animationBPM == None && animationStartTime == None
      ensures !overlayVisible && animation == None
    {
      this.metronomeEnabled := metronomeEnabled;
      recordButtonHidden := false;
      flipCameraButtonHidden := false;
      cameraRollButtonHidden := false;
      nextButtonHidden := false;
      metronomeButtonHidden := false;
      metronomeEditHidden := false;
      replacementMessageHidden := false;
      buttonsEnabled := true;
      recordState := NotRecording;
      animationBPM := None;
      animationStartTime := None;
      overlayVisible := false;
      animation := None;
    }

    /**
     * `viewDidAppear`: a start request stored while off screen is replayed
     * once, as `startMetronomeAnimation` on screen, and forgotten. The
     * record button's state is set away and back, which leaves it as it was.
     */
    method ViewDidAppear(now: Time, timePerBeat: Time)
      requires timePerBeat > 0
      modifies this`animationBPM, this`animationStartTime, this`overlayVisible, this`animation
      ensures old(animationBPM.Some? && animationStartTime.Some?) ==> animationBPM == None && animationStartTime == None
      ensures old(animationBPM.Some? && animationStartTime.Some?) && now >= old(animationStartTime.value) ==>
                overlayVisible && animation.Some?
                && PulsesFromNextBeat(animation.value, old(animationStartTime.value), timePerBeat, now)
      ensures old(animationBPM.Some? && animationStartTime.Some?) && now < old(animationStartTime.value) ==>
                overlayVisible == old(overlayVisible) && animation == old(animation)
      ensures !old(animationBPM.Some? && animationStartTime.Some?) ==>
                animationBPM == old(animationBPM) && animationStartTime == old(animationStartTime)
                && overlayVisible == old(overlayVisible) && animation == old(animation)
    {
      if animationBPM.Some? && animationStartTime.Some? {
        StartMetronomeAnimation(animationBPM.value, animationStartTime.value, true, now, timePerBeat);
        animationBPM := None;
        animationStartTime := None;
      }
    }

    method ShowReplacementMessage()
      modifies this`replacementMessageHidden
      ensures !replacementMessageHidden
    {
      replacementMessageHidden := false;
    }

    method HideReplacementMessage()
      modifies this`replacementMessageHidden
      ensures replacementMessageHidden
    {
      replacementMessageHidden := true;
    }

    method ShowRecordButton()
      modifies this`recordButtonHidden
      ensures !recordButtonHidden
    {
      recordButtonHidden := false;
    }

    method HideRecordButton()
      modifies this`recordButtonHidden
      ensures recordButtonHidden
    {
      recordButtonHidden := true;
    }

    /** `showMetronomeButton`: nothing happens when the metronome is disabled. */
    method ShowMetronomeButton()
      modifies this`metronomeButtonHidden
      ensures metronomeButtonHidden == (old(metronomeButtonHidden) && !metronomeEnabled)
    {
      if !metronomeEnabled {
        return;
      }
      metronomeButtonHidden := false;
    }

    /** `hideMetronomeButton`: hides the BPM editor too; nothing happens when the metronome is disabled. */
    method HideMetronomeButton()
      modifies this`metronomeButtonHidden, this`metronomeEditHidden
      ensures metronomeEnabled ==> metronomeButtonHidden && metronomeEditHidden
      ensures !metronomeEnabled ==> metronomeButtonHidden == old(metronomeButtonHidden)
                                    && metronomeEditHidden == old(metronomeEditHidden)
    {
      if !metronomeEnabled {
        return;
      }
      metronomeEditHidden := true;
      metronomeButtonHidden := true;
    }

    method ShowFlipCameraButton()
      modifies this`flipCameraButtonHidden
      ensures !flipCameraButtonHidden
    {
      flipCameraButtonHidden := false;
    }

    method HideFlipCameraButton()
      modifies this`flipCameraButtonHidden
      ensures flipCameraButtonHidden
    {
      flipCameraButtonHidden := true;
    }

    /** `showNextButton`: the next button always replaces the capture buttons. */
    method ShowNextButton()
      modifies this`nextButtonHidden, this`recordButtonHidden, this`flipCameraButtonHidden,
               this`metronomeButtonHidden, this`metronomeEditHidden
      ensures !nextButtonHidden && recordButtonHidden && flipCameraButtonHidden
      ensures metronomeEnabled ==> metronomeButtonHidden && metronomeEditHidden
      ensures !metronomeEnabled ==> metronomeButtonHidden == old(metronomeButtonHidden)
                                    && metronomeEditHidden == old(metronomeEditHidden)
    {
      HideCaptureButtons();
      nextButtonHidden := false;
    }

    method HideNextButton()
      modifies this`nextButtonHidden
      ensures nextButtonHidden
    {
      nextButtonHidden := true;
    }

    /** `showCaptureButtons`: the camera-roll button only when uploading from the camera roll is enabled. */
    method ShowCaptureButtons(uploadFromCameraRollEnabled: bool)
      modifies this`recordButtonHidden, this`flipCameraButtonHidden, this`metronomeButtonHidden,
               this`cameraRollButtonHidden
      ensures !recordButtonHidden && !flipCameraButtonHidden
      ensures metronomeButtonHidden == (old(metronomeButtonHidden) && !metronomeEnabled)
      ensures cameraRollButtonHidden == (old(cameraRollButtonHidden) && !uploadFromCameraRollEnabled)
    {
      ShowRecordButton();
      ShowFlipCameraButton();
      ShowMetronomeButton();
      if uploadFromCameraRollEnabled {
        cameraRollButtonHidden := false;
      }
    }

    method HideUI()
      modifies this`recordButtonHidden, this`flipCameraButtonHidden, this`nextButtonHidden,
               this`metronomeButtonHidden, this`cameraRollButtonHidden, this`metronomeEditHidden,
               this`replacementMessageHidden
      ensures recordButtonHidden && flipCameraButtonHidden && nextButtonHidden && metronomeButtonHidden
      ensures cameraRollButtonHidden && metronomeEditHidden && replacementMessageHidden
    {
      HideAllButtons();
      HideReplacementMessage();
    }

    method HideCaptureButtons()
      modifies this`recordButtonHidden, this`flipCameraButtonHidden, this`metronomeButtonHidden,
               this`metronomeEditHidden
      ensures recordButtonHidden && flipCameraButtonHidden
      ensures metronomeEnabled ==> metronomeButtonHidden && metronomeEditHidden
      ensures !metronomeEnabled ==> metronomeButtonHidden == old(metronomeButtonHidden)
                                    && metronomeEditHidden == old(metronomeEditHidden)
    {
      HideRecordButton();
      HideFlipCameraButton();
      HideMetronomeButton();
    }

    /** `hideAllButtons`: unlike the animated hides, this ignores whether the metronome is enabled. */
    method HideAllButtons()
      modifies this`recordButtonHidden, this`flipCameraButtonHidden, this`nextButtonHidden,
               this`metronomeButtonHidden, this`cameraRollButtonHidden, this`metronomeEditHidden
      ensures recordButtonHidden && flipCameraButtonHidden && nextButtonHidden
      ensures metronomeButtonHidden && cameraRollButtonHidden && metronomeEditHidden
    {
      recordButtonHidden := true;
      flipCameraButtonHidden := true;
      nextButtonHidden := true;
      metronomeButtonHidden := true;
      cameraRollButtonHidden := true;
      metronomeEditHidden := true;
    }

    method DisableAllButtons()
      modifies this`buttonsEnabled
      ensures !buttonsEnabled
    {
      buttonsEnabled := false;
    }

    method EnableAllButtons()
      modifies this`buttonsEnabled
      ensures buttonsEnabled
    {
      buttonsEnabled := true;
    }

    /**
     * `updateRecordButtons(state:)`: the flip button shows only while not
     * recording; the camera-roll button hides while recording or waiting to
     * record, and whenever the metronome is disabled.
     */
    method UpdateRecordButtons(state: RecordButtonState)
      modifies this`flipCameraButtonHidden, this`recordState, this`cameraRollButtonHidden
      ensures flipCameraButtonHidden <==> state != NotRecording
      ensures recordState == state
      ensures cameraRollButtonHidden <==> state == Recording || state == WaitingToRecord || !metronomeEnabled
    {
      flipCameraButtonHidden := state != NotRecording;
      recordState := state;
      cameraRollButtonHidden := (state == Recording || state == WaitingToRecord) || !metronomeEnabled;
    }

    /** `toggleEditMetronome(shouldHide:)`: only while the metronome button shows. */
    method ToggleEditMetronome(shouldHide: bool)
      modifies this`metronomeEditHidden
      ensures metronomeEditHidden == (if old(metronomeButtonHidden) then old(metronomeEditHidden) else shouldHide)
    {
      if metronomeButtonHidden {
        return;
      }
      metronomeEditHidden := shouldHide;
    }

    /**
     * `startMetronomeAnimation(BPM:startTime:)`: off screen the request is
     * stored; a start time after `now` is refused; otherwise the overlay
     * pulses once a beat from the next beat on.
     */
    method StartMetronomeAnimation(BPM: int, startTime: Time, inHierarchy: bool, now: Time, timePerBeat: Time)
      requires timePerBeat > 0
      modifies this`animationBPM, this`animationStartTime, this`overlayVisible, this`animation
      ensures !inHierarchy ==>
                animationBPM == Some(BPM) && animationStartTime == Some(startTime)
                && overlayVisible == old(overlayVisible) && animation == old(animation)
      ensures inHierarchy ==> animationBPM == old(animationBPM) && animationStartTime == old(animationStartTime)
      ensures inHierarchy && now < startTime ==> overlayVisible == old(overlayVisible) && animation == old(animation)
      ensures inHierarchy && now >= startTime ==>
                overlayVisible && animation.Some? && PulsesFromNextBeat(animation.value, startTime, timePerBeat, now)
    {
      if !inHierarchy {
        animationBPM := Some(BPM);
        animationStartTime := Some(startTime);
        return;
      }
      if !(Compare(now, startTime) >= 0) {
        return;
      }
      var nextBeat := NextBeat(startTime, timePerBeat, now);
      ghost var k :| k >= 1 && nextBeat == Beat(startTime, timePerBeat, k);
      if k > 1 {
        assert Beat(startTime, timePerBeat, k - 1) < now;
      }
      var deltaFromNext := AbsoluteDifference(now, nextBeat);
      overlayVisible := true;
      animation := Some(BeatAnimation(deltaFromNext, timePerBeat));
    }

    /** `stopMetronomeAnimation()`: the overlay goes and any stored request is forgotten. */
    method StopMetronomeAnimation()
      modifies this`overlayVisible, this`animation, this`animationBPM, this`animationStartTime
      ensures !overlayVisible && animation == None && animationBPM == None && animationStartTime == None
    {
      animation := None;
      overlayVisible := false;
      animationBPM := None;
      animationStartTime := None;
    }
  }
}
