/**
 * The app's own mute switch (OpenCollab/Sources/Util/AppMuteManager.swift).
 *
 * The in-app state starts muted; the user toggles it, a press of a volume
 * button unmutes it, and a known hardware ringer state is copied into it.
 * Every assignment to the state posts `muteSwitchStateChanged`; the posts
 * are counted in `notifications`. The hardware query is a stub that reads
 * a zero word, so it reports muted.
 */
module AppMute {
  import opened Wrappers

  datatype MuteState = Muted | NotMuted

  datatype MuteManagerState = MuteManagerState(inAppSwitchState: MuteState, notifications: nat)

  function Other(m: MuteState): (r: MuteState)
    ensures r != m
  {
    if m == Muted then NotMuted else Muted
  }

  /** An assignment to `inAppSwitchState`, with its `didSet`. */
  function AssignStep(s: MuteManagerState, m: MuteState): MuteManagerState
  {
    MuteManagerState(m, s.notifications + 1)
  }

  /** `toggleMuteState()`. */
  function ToggleStep(s: MuteManagerState): MuteManagerState
  {
    AssignStep(s, Other(s.inAppSwitchState))
  }

  /** The output-volume observer `listenVolumeButtonChanges()` installs. */
  function VolumeButtonStep(s: MuteManagerState): MuteManagerState
  {
    if s.inAppSwitchState != Muted then s else AssignStep(s, NotMuted)
  }

  /** `updateHardwareMuteState()`, given what `getHardwareState()` answered. */
  function UpdateHardwareStep(s: MuteManagerState, hardware: Option<MuteState>): MuteManagerState
  {
    var current := s.inAppSwitchState;
    var s1 := if current == Muted && hardware == Some(NotMuted) then ToggleStep(s) else s;
    if current == NotMuted && hardware == Some(Muted) then ToggleStep(s1) else s1
  }

  /** `(state == 0) ? .Muted : .NotMuted` on the hardware word. */
  function HardwareStateFor(word: nat): MuteState
  {
    if word == 0 then Muted else NotMuted
  }

  /** The manager `init()` makes. */
  function Initial(): MuteManagerState
  {
    MuteManagerState(Muted, 0)
  }

  /** Toggling flips the state, posts once, and toggling twice restores it. */
  lemma ToggleFlips(s: MuteManagerState)
    ensures ToggleStep(s).inAppSwitchState != s.inAppSwitchState
    ensures ToggleStep(s).notifications == s.notifications + 1
    ensures ToggleStep(ToggleStep(s)).inAppSwitchState == s.inAppSwitchState
  {
  }

  /** A known hardware state is copied into the app's, with one post when they differed and none otherwise; an unknown one changes nothing. */
  lemma HardwareStateIsCopied(s: MuteManagerState, hardware: Option<MuteState>)
    ensures hardware.Some? ==> UpdateHardwareStep(s, hardware).inAppSwitchState == hardware.value
    ensures hardware.Some? && hardware.value != s.inAppSwitchState ==> UpdateHardwareStep(s, hardware).notifications == s.notifications + 1
    ensures hardware.Some? && hardware.value == s.inAppSwitchState ==> UpdateHardwareStep(s, hardware) == s
    ensures hardware.None? ==> UpdateHardwareStep(s, hardware) == s
  {
  }

  /** A volume button only ever unmutes: muted becomes not muted with one post, and not muted stays, without a post. */
  lemma VolumeButtonOnlyUnmutes(s: MuteManagerState)
    ensures VolumeButtonStep(s).inAppSwitchState == NotMuted
    ensures s.inAppSwitchState == Muted ==> VolumeButtonStep(s).notifications == s.notifications + 1
    ensures s.inAppSwitchState == NotMuted ==> VolumeButtonStep(s) == s
  {
  }

  /** Every assignment posts, even of the value already held. */
  lemma AssignmentAlwaysPosts(s: MuteManagerState)
    ensures AssignStep(s, s.inAppSwitchState).inAppSwitchState == s.inAppSwitchState
    ensures AssignStep(s, s.inAppSwitchState).notifications == s.notifications + 1
  {
  }

  /** The stub reads a zero word, so the hardware is always reported muted, and updating from it mutes the app. */
  lemma StubHardwareMutes(s: MuteManagerState)
    ensures HardwareStateFor(0) == Muted
    ensures UpdateHardwareStep(s, Some(HardwareStateFor(0))).inAppSwitchState == Muted
  {
  }

  /** The name of the ringer-state notification, stored one code higher per character. */
  const RingerStateName: string := "com.apple.springboard.ringerstate"

  /** The codes `init()` starts from: every character one higher, and a 1 where the terminating 0 goes. */
  const ShiftedName: seq<int> := [100, 112, 110, 47, 98, 113, 113, 109, 102, 47, 116, 113, 115, 106, 111, 104, 99, 112, 98, 115, 101, 47, 115, 106, 111, 104, 102, 115, 116, 117, 98, 117, 102, 1]

  function Codes(s: string): (r: seq<int>)
    ensures |r| == |s|
    ensures forall i :: 0 <= i < |s| ==> r[i] == s[i] as int
  {
    seq(|s|, i requires 0 <= i < |s| => s[i] as int)
  }

  function ShiftDown(codes: seq<int>): (r: seq<int>)
    ensures |r| == |codes|
  {
    seq(|codes|, i requires 0 <= i < |codes| => codes[i] - 1)
  }

  /** The stored codes are the name's, one higher each, with the terminator. */
  lemma ShiftedNameDecodes()
    ensures ShiftDown(ShiftedName) == Codes(RingerStateName) + [0]
  {
    var d := ShiftDown(ShiftedName);
    var e := Codes(RingerStateName) + [0];
    assert |d| == |e| == 34;
    forall i | 0 <= i < 34
      ensures d[i] == e[i]
    {
      assert d[i] == ShiftedName[i] - 1;
    }
  }

  /** The loop of `init()`: every code of the buffer lowered by one, in place. */
  method LowerEach(codes: array<int>)
    modifies codes
    ensures codes[..] == ShiftDown(old(codes[..]))
  {
    var i := 0;
    while i < codes.Length
      invariant 0 <= i <= codes.Length
      invariant forall j :: 0 <= j < i ==> codes[j] == old(codes[j]) - 1
      invariant forall j :: i <= j < codes.Length ==> codes[j] == old(codes[j])
    {
      codes[i] := codes[i] - 1;
      i := i + 1;
    }
  }

  /** The decoded codes are characters of the name or its terminator, all well within `Int8`. */
  lemma DecodedNameFitsInt8()
    ensures forall i :: 0 <= i < |ShiftDown(ShiftedName)| ==> -128 <= ShiftDown(ShiftedName)[i] <= 127
  {
    var d := ShiftDown(ShiftedName);
    forall i | 0 <= i < |d|
      ensures -128 <= d[i] <= 127
    {
      assert d[i] == ShiftedName[i] - 1;
    }
  }

  /** `init()`'s decoding: the stored codes, each lowered by one, give the C string of the name within `Int8`. */
  method DecodeRingerStateName() returns (name: seq<int>)
    ensures name == Codes(RingerStateName) + [0]
    ensures forall i :: 0 <= i < |name| ==> -128 <= name[i] <= 127
  {
    var codes := new int[|ShiftedName|](i requires 0 <= i < |ShiftedName| => ShiftedName[i]);
    assert codes[..] == ShiftedName;
    LowerEach(codes);
    name := codes[..];
    DecodedNameFitsInt8();
    ShiftedNameDecodes();
  }

  class AppMuteManager {
    var token: int
    var observingVolume: bool
    var inAppSwitchState: MuteState
    var notifications: nat

    /** `init()`: the decoded name is not used further, and the hardware state is not read. */
    constructor ()
      ensures View() == Initial() && token == -1 && !observingVolume
    {
      token := -1;
      observingVolume := false;
      inAppSwitchState := Muted;
      notifications := 0;
      new;
      var _ := DecodeRingerStateName();
    }

    function View(): MuteManagerState
      reads this
    {
      MuteManagerState(inAppSwitchState, notifications)
    }

    /** An assignment to `inAppSwitchState`, with `didChange()`. */
    method Assign(m: MuteState)
      modifies this
      ensures View() == AssignStep(old(View()), m)
      ensures token == old(token) && observingVolume == old(observingVolume)
    {
      inAppSwitchState := m;
      notifications := notifications + 1;
    }

    method ToggleMuteState()
      modifies this
      ensures View() == ToggleStep(old(View()))
      ensures token == old(token) && observingVolume == old(observingVolume)
    {
      var currentState := inAppSwitchState;
      var targetState := if currentState == Muted then NotMuted else Muted;
      Assign(targetState);
    }

    method CurrentState() returns (m: MuteState)
      ensures m == inAppSwitchState
    {
      m := inAppSwitchState;
    }

    method ListenVolumeButtonChanges()
      modifies this
      ensures View() == old(View()) && observingVolume && token == old(token)
    {
      observingVolume := true;
    }

    /** The observer's block, run when the output volume changes while it is installed. */
    method OutputVolumeChanged()
      requires observingVolume
      modifies this
      ensures View() == VolumeButtonStep(old(View()))
      ensures token == old(token) && observingVolume == old(observingVolume)
    {
      if inAppSwitchState != Muted {
        return;
      }
      Assign(NotMuted);
    }

    method UpdateHardwareMuteState()
      modifies this
      ensures View() == UpdateHardwareStep(old(View()), Some(Muted))
      ensures token == old(token) && observingVolume == old(observingVolume)
    {
      var hardwareState := GetHardwareState();
      ApplyHardwareState(hardwareState);
    }

    /** The body of `updateHardwareMuteState()` after the query, for any answer. */
    method ApplyHardwareState(hardwareState: Option<MuteState>)
      modifies this
      ensures View() == UpdateHardwareStep(old(View()), hardwareState)
      ensures token == old(token) && observingVolume == old(observingVolume)
    {
      var currentState := inAppSwitchState;
      if currentState == Muted && hardwareState == Some(NotMuted) {
        ToggleMuteState();
      }
      if currentState == NotMuted && hardwareState == Some(Muted) {
        ToggleMuteState();
      }
    }

    method GetHardwareState() returns (m: Option<MuteState>)
      ensures m == Some(Muted)
    {
      var state := 0;
      m := Some(HardwareStateFor(state));
    }
  }
}
