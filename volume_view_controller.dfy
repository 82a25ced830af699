/**
 * The vertical volume control laid over a clip
 * (OpenCollab/Sources/ViewControllers/VolumeViewController.swift).
 *
 * A pan upwards raises the volume and a pan downwards lowers it, by the
 * pan's length over 60% of the view's height, clamped to 0...1. The pan
 * gesture's translation is kept here as `translation` (UIKit's, in view
 * coordinates, so positive downwards): UIKit adds the finger's movement to
 * it and the handler resets it once it has applied a change. The handler
 * does not reset it when the pan ends; UIKit starts each new gesture at a
 * zero translation, which `PanEndClearsAndRestarts` writes out. The weak
 * delegate is `hasDelegate`, and what the controller tells it is recorded
 * as `VolumeEvent`s.
 */
module VolumeView {
  import opened Wrappers

  const PanTolerance: real := 5.0
  const HeightTolerance: real := 0.6
  const HeightInset: real := 10.0

  datatype VolumeEvent = VolumeChanged(volume: real) | VolumeChangeStarted | VolumeChangeEnded

  /** The image `setVolumeIcon(volume:)` leaves on the icon view. */
  datatype Icon = NoImage | VolumeImage | MuteImage

  /** The gesture states the handlers tell apart. */
  datatype GesturePhase = Began | Ended | OtherPhase

  datatype VolumeState = VolumeState(
    volume: real,
    active: bool,
    panEnabled: Option<bool>,
    indicatorHidden: bool,
    iconHidden: bool,
    progress: real,
    icon: Icon,
    translation: real,
    events: seq<VolumeEvent>)

  function Clamp(v: real): (r: real)
    ensures 0.0 <= r <= 1.0
    ensures 0.0 <= v <= 1.0 ==> r == v
    ensures v < 0.0 ==> r == 0.0
    ensures v > 1.0 ==> r == 1.0
  {
    if v < 0.0 then 0.0 else if v > 1.0 then 1.0 else v
  }

  /**
   * `min(max(volume + Float(yTranslation / height), 0.0), 1.0)`. With a
   * view of no height the quotient is an infinity of the pan's sign, and
   * the clamp turns it into 1 or 0.
   */
  function PannedVolume(volume: real, yTranslation: real, viewHeight: real): real
  {
    var height := viewHeight * HeightTolerance;
    if height == 0.0 then (if yTranslation > 0.0 then 1.0 else 0.0)
    else Clamp(volume + yTranslation / height)
  }

  /** `setVolumeIcon(volume:)`: nothing for no volume, the mute image for none above zero. */
  function IconFor(icon: Icon, volume: Option<real>): Icon
  {
    match volume
    case None => icon
    case Some(v) => if v > 0.0 then VolumeImage else MuteImage
  }

  /** `pan(gesture:)`, on a view of height `viewHeight`. */
  function PanStep(s: VolumeState, hasDelegate: bool, phase: GesturePhase, viewHeight: real): VolumeState
  {
    if phase == Ended then
      s.(active := false, events := s.events + if hasDelegate then [VolumeChangeEnded] else [])
    else
      var yTranslation := -s.translation;
      if !(Abs(yTranslation) >= PanTolerance) then s
      else
        var started := if !s.active && hasDelegate then [VolumeChangeStarted] else [];
        var v := PannedVolume(s.volume, yTranslation, viewHeight);
        s.(active := true, volume := v, progress := v, icon := IconFor(s.icon, Some(v)), translation := 0.0,
           events := s.events + started + if hasDelegate then [VolumeChanged(v)] else [])
  }

  function Abs(x: real): real
  {
    if x < 0.0 then -x else x
  }

  /** UIKit moving the finger by `dy` points. */
  function DragStep(s: VolumeState, dy: real): VolumeState
  {
    s.(translation := s.translation + dy)
  }

  /** `press(gesture:)`. */
  function PressStep(s: VolumeState, phase: GesturePhase): VolumeState
  {
    match phase
    case Began => s.(active := true)
    case Ended => s.(active := false)
    case OtherPhase => s
  }

  /** `activate()`: the pan gesture, if there is one yet, on; indicator and icon shown. */
  function ActivateStep(s: VolumeState): VolumeState
  {
    s.(panEnabled := if s.panEnabled.Some? then Some(true) else None, indicatorHidden := false, iconHidden := false)
  }

  /** `deactivate()`. */
  function DeactivateStep(s: VolumeState): VolumeState
  {
    s.(panEnabled := if s.panEnabled.Some? then Some(false) else None, indicatorHidden := true, iconHidden := true)
  }

  /** `viewDidLoad()`: `setupUI()` sets the icon and the progress from the volume and creates the pan gesture. */
  function ViewDidLoadStep(s: VolumeState): VolumeState
  {
    s.(icon := IconFor(s.icon, Some(s.volume)), progress := s.volume, panEnabled := Some(true))
  }

  /** The controller `init(volume:heightInset:)` makes: active, with no gesture and no image yet. */
  function Initial(volume: real): VolumeState
  {
    VolumeState(volume, true, None, false, false, 0.0, NoImage, 0.0, [])
  }

  /** A pan that changes the volume leaves it in 0...1, shown on the progress bar, whatever it was before. */
  lemma PanClampsVolume(s: VolumeState, hasDelegate: bool, phase: GesturePhase, viewHeight: real)
    requires phase != Ended && Abs(s.translation) >= PanTolerance
    ensures var t := PanStep(s, hasDelegate, phase, viewHeight);
            0.0 <= t.volume <= 1.0 && t.progress == t.volume && t.translation == 0.0 && t.active
  {
  }

  /** A volume in 0...1 stays in 0...1 through any pan. */
  lemma PanKeepsVolumeInRange(s: VolumeState, hasDelegate: bool, phase: GesturePhase, viewHeight: real)
    requires 0.0 <= s.volume <= 1.0
    ensures 0.0 <= PanStep(s, hasDelegate, phase, viewHeight).volume <= 1.0
  {
  }

  /** Inside the tolerance, a pan that is not ending changes nothing, and its translation is kept for later. */
  lemma SmallPanChangesNothing(s: VolumeState, hasDelegate: bool, phase: GesturePhase, viewHeight: real)
    requires phase != Ended && Abs(s.translation) < PanTolerance
    ensures PanStep(s, hasDelegate, phase, viewHeight) == s
  {
  }

  /** Small movements add up: once they reach the tolerance together, the next pan applies all of them. */
  lemma SmallMovesAccumulate(s: VolumeState, phase: GesturePhase, viewHeight: real, d1: real, d2: real)
    requires phase != Ended && viewHeight > 0.0
    requires s.translation == 0.0 && Abs(d1) < PanTolerance && Abs(d1 + d2) >= PanTolerance
    ensures var t := PanStep(DragStep(PanStep(DragStep(s, d1), false, phase, viewHeight), d2), false, phase, viewHeight);
            t.volume == Clamp(s.volume - (d1 + d2) / (viewHeight * HeightTolerance))
  {
    var h := viewHeight * HeightTolerance;
    var s1 := PanStep(DragStep(s, d1), false, phase, viewHeight);
    assert s1 == DragStep(s, d1);
    var s2 := DragStep(s1, d2);
    assert s2.translation == d1 + d2 && s2.volume == s.volume;
    assert -(d1 + d2) / h == -((d1 + d2) / h);
  }

  /** Moving up never lowers the volume and moving down never raises it, for a volume in 0...1. */
  lemma PanDirection(volume: real, yTranslation: real, viewHeight: real)
    requires 0.0 <= volume <= 1.0 && viewHeight >= 0.0
    ensures yTranslation > 0.0 ==> PannedVolume(volume, yTranslation, viewHeight) >= volume
    ensures yTranslation < 0.0 ==> PannedVolume(volume, yTranslation, viewHeight) <= volume
  {
    var height := viewHeight * HeightTolerance;
    if height != 0.0 {
      assert height > 0.0;
      if yTranslation > 0.0 {
        assert yTranslation / height > 0.0;
      } else if yTranslation < 0.0 {
        assert yTranslation / height < 0.0;
      }
    }
  }

  /**
   * A moving pan reports the start exactly when the adjustment was
   * inactive, and always reports the new volume after it.
   */
  lemma PanStartOnlyWhenInactive(s: VolumeState, phase: GesturePhase, viewHeight: real)
    requires phase != Ended && Abs(s.translation) >= PanTolerance
    ensures var t := PanStep(s, true, phase, viewHeight);
            t.events == s.events + (if s.active then [] else [VolumeChangeStarted]) + [VolumeChanged(t.volume)]
  {
  }

  /** The flag starts set, so the first moving pan reports no start, only the volume. */
  lemma FirstPanSendsNoStart(volume: real, phase: GesturePhase, viewHeight: real, dy: real)
    requires phase != Ended && Abs(dy) >= PanTolerance
    ensures var t := PanStep(DragStep(ViewDidLoadStep(Initial(volume)), dy), true, phase, viewHeight);
            t.events == [VolumeChanged(t.volume)]
  {
  }

  /**
   * A pan that ends clears the flag and reports the end, so the next
   * gesture, which UIKit starts at a zero translation, reports a start
   * again once it moves past the tolerance.
   */
  lemma PanEndClearsAndRestarts(s: VolumeState, phase: GesturePhase, viewHeight: real, dy: real)
    requires phase != Ended && Abs(dy) >= PanTolerance
    ensures var e := PanStep(s, true, Ended, viewHeight);
            !e.active && e.events == s.events + [VolumeChangeEnded] && e.volume == s.volume
            && e.translation == s.translation
    ensures var e := PanStep(s, true, Ended, viewHeight);
            var t := PanStep(DragStep(e.(translation := 0.0), dy), true, phase, viewHeight);
            t.events == e.events + [VolumeChangeStarted, VolumeChanged(t.volume)]
  {
  }

  /** After a moving pan the icon is the mute image exactly when the volume is not above zero. */
  lemma IconShowsMuteIffSilent(s: VolumeState, hasDelegate: bool, phase: GesturePhase, viewHeight: real)
    requires phase != Ended && Abs(s.translation) >= PanTolerance
    ensures var t := PanStep(s, hasDelegate, phase, viewHeight);
            (t.icon == MuteImage <==> t.volume <= 0.0) && (t.icon == VolumeImage <==> t.volume > 0.0)
  {
  }

  /** `setVolumeIcon(volume:)` leaves the icon alone for no volume. */
  lemma IconKeptWithoutVolume(icon: Icon)
    ensures IconFor(icon, None) == icon
  {
  }

  /**
   * `activate()` and `deactivate()` set the gesture and both views together,
   * each undoing the other, and touch nothing else.
   */
  lemma ActivateDeactivateTogether(s: VolumeState)
    ensures var a := ActivateStep(s);
            !a.indicatorHidden && !a.iconHidden && (s.panEnabled.Some? ==> a.panEnabled == Some(true))
            && a.panEnabled.Some? == s.panEnabled.Some? && a.volume == s.volume && a.events == s.events
    ensures var d := DeactivateStep(s);
            d.indicatorHidden && d.iconHidden && (s.panEnabled.Some? ==> d.panEnabled == Some(false))
            && d.panEnabled.Some? == s.panEnabled.Some? && d.volume == s.volume && d.events == s.events
    ensures ActivateStep(DeactivateStep(s)) == ActivateStep(s)
    ensures DeactivateStep(ActivateStep(s)) == DeactivateStep(s)
  {
  }

  class VolumeViewController {
    var volume: real
    var volumeAdjustmentActive: bool
    var heightInset: real
    var hasDelegate: bool
    var panEnabled: Option<bool>
    var indicatorHidden: bool
    var iconHidden: bool
    var progress: real
    var icon: Icon
    var translation: real
    var events: seq<VolumeEvent>

    /** `init(volume:heightInset:)`: the inset grows by the fixed 10 points. */
    constructor (volume: real, heightInset: real)
      ensures View() == Initial(volume) && this.heightInset == heightInset + HeightInset && !hasDelegate
    {
      this.volume := volume;
      volumeAdjustmentActive := true;
      this.heightInset := heightInset + HeightInset;
      hasDelegate := false;
      panEnabled := None;
      indicatorHidden := false;
      iconHidden := false;
      progress := 0.0;
      icon := NoImage;
      translation := 0.0;
      events := [];
    }

    function View(): VolumeState
      reads this
    {
      VolumeState(volume, volumeAdjustmentActive, panEnabled, indicatorHidden, iconHidden, progress, icon, translation, events)
    }

    method SetDelegate(hasDelegate: bool)
      modifies this
      ensures View() == old(View()) && this.hasDelegate == hasDelegate && heightInset == old(heightInset)
    {
      this.hasDelegate := hasDelegate;
    }

    method ViewDidLoad()
      modifies this
      ensures View() == ViewDidLoadStep(old(View())) && hasDelegate == old(hasDelegate) && heightInset == old(heightInset)
    {
      SetVolumeIcon(Some(volume));
      progress := volume;
      panEnabled := Some(true);
    }

    method Activate()
      modifies this
      ensures View() == ActivateStep(old(View())) && hasDelegate == old(hasDelegate) && heightInset == old(heightInset)
    {
      if panEnabled.Some? {
        panEnabled := Some(true);
      }
      indicatorHidden := false;
      iconHidden := false;
    }

    method Deactivate()
      modifies this
      ensures View() == DeactivateStep(old(View())) && hasDelegate == old(hasDelegate) && heightInset == old(heightInset)
    {
      if panEnabled.Some? {
        panEnabled := Some(false);
      }
      indicatorHidden := true;
      iconHidden := true;
    }

    method SetVolumeIcon(volume: Option<real>)
      modifies this
      ensures View() == old(View()).(icon := IconFor(old(icon), volume))
      ensures hasDelegate == old(hasDelegate) && heightInset == old(heightInset)
    {
      if volume.Some? {
        if volume.value > 0.0 {
          icon := VolumeImage;
        } else {
          icon := MuteImage;
        }
      }
    }

    /** UIKit tracking the finger. */
    method Drag(dy: real)
      modifies this
      ensures View() == DragStep(old(View()), dy) && hasDelegate == old(hasDelegate) && heightInset == old(heightInset)
    {
      translation := translation + dy;
    }

    method Press(phase: GesturePhase)
      modifies this
      ensures View() == PressStep(old(View()), phase) && hasDelegate == old(hasDelegate) && heightInset == old(heightInset)
    {
      if phase == Began {
        volumeAdjustmentActive := true;
      }
      if phase == Ended {
        volumeAdjustmentActive := false;
      }
    }

    /** The volume a pan of `yTranslation` points moves to, from `volume`: `min(max(volume + yTranslation / height, 0), 1)`. */
    static method PanVolume(volume: real, yTranslation: real, viewHeight: real) returns (newVolume: real)
      ensures newVolume == PannedVolume(volume, yTranslation, viewHeight)
      ensures 0.0 <= newVolume <= 1.0
    {
      var height := viewHeight * HeightTolerance;
      if height == 0.0 {
        newVolume := if yTranslation > 0.0 then 1.0 else 0.0;
      } else {
        var raw := volume + yTranslation / height;
        newVolume := if raw < 0.0 then 0.0 else if raw > 1.0 then 1.0 else raw;
      }
    }

    method Pan(phase: GesturePhase, viewHeight: real)
      modifies this
      ensures View() == PanStep(old(View()), hasDelegate, phase, viewHeight)
      ensures hasDelegate == old(hasDelegate) && heightInset == old(heightInset)
    {
      if phase == Ended {
        volumeAdjustmentActive := false;
        if hasDelegate {
          events := events + [VolumeChangeEnded];
        }
        return;
      }
      var yTranslation := -translation;
      if Abs(yTranslation) >= PanTolerance {
        var started: seq<VolumeEvent> := if !volumeAdjustmentActive && hasDelegate then [VolumeChangeStarted] else [];
        volumeAdjustmentActive := true;
        var newVolume := PanVolume(volume, yTranslation, viewHeight);
        volume := newVolume;
        progress := newVolume;
        icon := if newVolume > 0.0 then VolumeImage else MuteImage;
        events := events + started + if hasDelegate then [VolumeChanged(newVolume)] else [];
        translation := 0.0;
      }
    }
  }
}
