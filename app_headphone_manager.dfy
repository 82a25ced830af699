/**
 * The app's audio-route bookkeeping
 * (CollabOpenSource/Sources/Util/AppHeadphoneManager.swift).
 *
 * `AVAudioSession` is a `Session` value the manager's steps update: its
 * category, mode and options, the preferred rate, buffer and input, the
 * inputs and outputs of the current route and the latencies the hardware
 * reports. A session call that throws is named in the `failing` set the
 * step is given; the source prints the error and carries on.
 *
 * A request for a session setup takes a fresh token and runs its block at
 * once or on a queue. A queued block is one atomic step, run by
 * `RunNextQueued`; the main-queue precondition, the timer and the route
 * notification's delivery are the system's.
 */
module AppHeadphone {
  import opened Wrappers
  import opened Extensions

  /** `Constants.airpodProOutputConstant`, the output latency by which AirPods Pro are recognised. */
  const AirpodProOutputConstant: real := 0.16066665947437286
  const OffsetTimescale: int := 10000
  const PreferredSampleRate: real := 48100.0
  const PreferredIOBufferDuration: real := 0.005

  /** A `CMTime` of `value / timescale` seconds. */
  datatype CMTime = CMTime(value: int, timescale: int)

  /** `CMTimeMakeWithSeconds(seconds, preferredTimescale: 10000)`. */
  function SecondsAt10000(seconds: real): (t: CMTime)
    ensures t.timescale == OffsetTimescale
    ensures seconds >= 0.0 ==> t.value >= 0 && seconds * 10000.0 - 0.5 < t.value as real <= seconds * 10000.0 + 0.5
  {
    CMTime(RoundToInt(seconds * 10000.0), OffsetTimescale)
  }

  /** `Constants.airpodProOffset`. */
  function AirpodProOffset(): CMTime
  {
    SecondsAt10000(AirpodProOutputConstant)
  }

  /** The AirPods Pro offset is 1607 ten-thousandths of a second. */
  lemma AirpodProOffsetValue()
    ensures AirpodProOffset() == CMTime(1607, 10000)
  {
    assert AirpodProOutputConstant * 10000.0 + 0.5 == 1607.1665947437286;
    assert (1607.1665947437286).Floor == 1607;
  }

  datatype PortType = HeadsetMic | BuiltInMic | UsbAudio | LineIn | BluetoothHFP | BluetoothA2DP | Headphones | BuiltInSpeaker | OtherPort

  /** A port description: its identity and its type. */
  datatype Port = Port(id: nat, portType: PortType)

  datatype Category = Playback | PlayAndRecord | OtherCategory

  datatype Mode = DefaultMode | VideoRecording

  datatype Session = Session(
    category: Category,
    mode: Mode,
    allowBluetoothA2DP: bool,
    preferredSampleRate: real,
    preferredIOBufferDuration: real,
    active: bool,
    availableInputs: Option<seq<Port>>,
    preferredInput: Option<Port>,
    outputs: seq<Port>,
    outputLatency: real,
    inputLatency: real)

  /** The session calls that can throw. */
  datatype SessionCall = SetCategory | SetPreferredSampleRate | SetPreferredIOBufferDuration | SetActive | SetPreferredInput

  datatype HeadphoneState = Connected | NotConnected

  datatype HeadphoneType = Unknown | AirPodPro

  /** Which setup a request asks for. */
  datatype SessionSetup = ForPlayback | ForRecord

  /** A block waiting on its queue, with the token its request took. */
  datatype QueuedBlock = QueuedBlock(setup: SessionSetup, token: int)

  datatype ManagerState = ManagerState(
    session: Session,
    headphoneState: HeadphoneState,
    headphoneType: HeadphoneType,
    token: int,
    queued: seq<QueuedBlock>,
    completed: seq<int>,
    stateNotifications: nat,
    typeNotifications: nat)

  // ---------------------------------------------------------------------
  // Ports
  // ---------------------------------------------------------------------

  /** `inputs.first(where: { $0.portType == t })`. */
  function FirstOfType(ports: seq<Port>, t: PortType): (r: Option<Port>)
    ensures r.Some? ==> r.value in ports && r.value.portType == t
    ensures r.None? <==> forall i :: 0 <= i < |ports| ==> ports[i].portType != t
    ensures r.Some? ==> exists i :: 0 <= i < |ports| && ports[i] == r.value && forall j :: 0 <= j < i ==> ports[j].portType != t
  {
    if ports == [] then None
    else if ports[0].portType == t then Some(ports[0])
    else
      var r := FirstOfType(ports[1..], t);
      if r.Some? then
        var i :| 0 <= i < |ports[1..]| && ports[1..][i] == r.value && forall j :: 0 <= j < i ==> ports[1..][j].portType != t;
        assert ports[i + 1] == r.value && forall j :: 0 <= j < i + 1 ==> ports[j].portType != t;
        r
      else r
  }

  /** `((usbMic ?? lineIn) ?? headsetMic) ?? builtInMic`. */
  function PreferredInputAmong(inputs: seq<Port>): Option<Port>
  {
    var usb := FirstOfType(inputs, UsbAudio);
    var lineIn := FirstOfType(inputs, LineIn);
    var headset := FirstOfType(inputs, HeadsetMic);
    var builtIn := FirstOfType(inputs, BuiltInMic);
    if usb.Some? then usb else if lineIn.Some? then lineIn else if headset.Some? then headset else builtIn
  }

  predicate HasType(ports: seq<Port>, t: PortType)
  {
    exists i :: 0 <= i < |ports| && ports[i].portType == t
  }

  /**
   * A USB microphone wins, then line-in, then a headset microphone, then the
   * built-in one; a Bluetooth microphone is never chosen, and with none of
   * the four there is no choice.
   */
  lemma PreferredInputPriority(inputs: seq<Port>)
    ensures var p := PreferredInputAmong(inputs);
            (p.Some? ==> p.value in inputs && p.value.portType in {UsbAudio, LineIn, HeadsetMic, BuiltInMic})
            && (p.None? <==> !HasType(inputs, UsbAudio) && !HasType(inputs, LineIn) && !HasType(inputs, HeadsetMic) && !HasType(inputs, BuiltInMic))
            && (HasType(inputs, UsbAudio) ==> p.Some? && p.value.portType == UsbAudio)
            && (!HasType(inputs, UsbAudio) && HasType(inputs, LineIn) ==> p.Some? && p.value.portType == LineIn)
            && (!HasType(inputs, UsbAudio) && !HasType(inputs, LineIn) && HasType(inputs, HeadsetMic) ==> p.Some? && p.value.portType == HeadsetMic)
            && (!HasType(inputs, UsbAudio) && !HasType(inputs, LineIn) && !HasType(inputs, HeadsetMic) && HasType(inputs, BuiltInMic)
                ==> p.Some? && p.value.portType == BuiltInMic)
  {
    var usb := FirstOfType(inputs, UsbAudio);
    var lineIn := FirstOfType(inputs, LineIn);
    var headset := FirstOfType(inputs, HeadsetMic);
    var builtIn := FirstOfType(inputs, BuiltInMic);
    assert usb.None? ==> !HasType(inputs, UsbAudio);
    assert lineIn.None? ==> !HasType(inputs, LineIn);
    assert headset.None? ==> !HasType(inputs, HeadsetMic);
    assert builtIn.None? ==> !HasType(inputs, BuiltInMic);
    if usb.Some? { assert HasType(inputs, UsbAudio) by { var i :| 0 <= i < |inputs| && inputs[i] == usb.value; } }
    if lineIn.Some? { assert HasType(inputs, LineIn) by { var i :| 0 <= i < |inputs| && inputs[i] == lineIn.value; } }
    if headset.Some? { assert HasType(inputs, HeadsetMic) by { var i :| 0 <= i < |inputs| && inputs[i] == headset.value; } }
    if builtIn.Some? { assert HasType(inputs, BuiltInMic) by { var i :| 0 <= i < |inputs| && inputs[i] == builtIn.value; } }
  }

  predicate IsHeadphoneOutput(t: PortType)
  {
    t == Headphones || t == BluetoothA2DP || t == UsbAudio || t == LineIn
  }

  /** `hasHeadphones(in:)`. */
  function HasHeadphones(outputs: seq<Port>): (r: bool)
    ensures r <==> exists i :: 0 <= i < |outputs| && IsHeadphoneOutput(outputs[i].portType)
  {
    if outputs == [] then false
    else if IsHeadphoneOutput(outputs[0].portType) then true
    else
      var r := HasHeadphones(outputs[1..]);
      if r then
        var i :| 0 <= i < |outputs[1..]| && IsHeadphoneOutput(outputs[1..][i].portType);
        assert IsHeadphoneOutput(outputs[i + 1].portType);
        r
      else
        assert forall i :: 1 <= i < |outputs| ==> outputs[i] == outputs[1..][i - 1];
        r
  }

  // ---------------------------------------------------------------------
  // Steps
  // ---------------------------------------------------------------------

  /** `setPreferredInput()`: only while the category is play-and-record, and only when a microphone is found. */
  function SetPreferredInputStep(session: Session, failing: set<SessionCall>): Session
  {
    if session.category != PlayAndRecord || session.availableInputs.None? then session
    else
      var preferred := PreferredInputAmong(session.availableInputs.value);
      if preferred.None? || SetPreferredInput in failing then session
      else session.(preferredInput := preferred)
  }

  /** Outside play-and-record, `setPreferredInput()` changes nothing. */
  lemma PreferredInputOnlyWhenRecording(session: Session, failing: set<SessionCall>)
    ensures session.category != PlayAndRecord ==> SetPreferredInputStep(session, failing) == session
    ensures session.category == PlayAndRecord && session.availableInputs.Some? && SetPreferredInput !in failing
            && PreferredInputAmong(session.availableInputs.value).Some?
            ==> SetPreferredInputStep(session, failing).preferredInput == PreferredInputAmong(session.availableInputs.value)
  {
  }

  /** The playback block once its token is current. */
  function PlaybackSetup(session: Session, failing: set<SessionCall>): Session
  {
    if SetCategory in failing then session else session.(category := Playback)
  }

  /** The record block once its token is current: category, rate, buffer, activation, then the preferred input. */
  function RecordSetup(session: Session, failing: set<SessionCall>): Session
  {
    var s1 := if SetCategory in failing then session
              else session.(category := PlayAndRecord, mode := VideoRecording, allowBluetoothA2DP := true);
    var s2 := if SetPreferredSampleRate in failing then s1 else s1.(preferredSampleRate := PreferredSampleRate);
    var s3 := if SetPreferredIOBufferDuration in failing then s2 else s2.(preferredIOBufferDuration := PreferredIOBufferDuration);
    var s4 := if SetActive in failing then s3 else s3.(active := true);
    SetPreferredInputStep(s4, failing)
  }

  /** A request's block: nothing at all unless its token is still the latest. */
  function RunBlock(s: ManagerState, b: QueuedBlock, failing: set<SessionCall>): ManagerState
  {
    if b.token != s.token then s
    else s.(session := match b.setup
                       case ForPlayback => PlaybackSetup(s.session, failing)
                       case ForRecord => RecordSetup(s.session, failing))
  }

  /** `setAudioSessionForPlayback(on:)` and `setAudioSessionForRecord(on:)`: a fresh token, then the block at once or queued. */
  function RequestStep(s: ManagerState, setup: SessionSetup, onQueue: bool, failing: set<SessionCall>): ManagerState
  {
    var t := s.token + 1;
    var s1 := s.(token := t);
    if onQueue then s1.(queued := s1.queued + [QueuedBlock(setup, t)])
    else RunBlock(s1, QueuedBlock(setup, t), failing).(completed := s1.completed + [t])
  }

  /** The queue running its first block, which then completes its future. */
  function RunNextQueuedStep(s: ManagerState, failing: set<SessionCall>): ManagerState
    requires s.queued != []
  {
    var b := s.queued[0];
    RunBlock(s.(queued := s.queued[1..]), b, failing).(completed := s.completed + [b.token])
  }

  /** The type a known output latency indicates. */
  function TypeForLatency(outputLatency: real): HeadphoneType
  {
    if outputLatency == AirpodProOutputConstant then AirPodPro else Unknown
  }

  /** `updateHeadphoneState()`: the state is assigned and posted every time, the type posted only when it changes. */
  function UpdateHeadphoneStateStep(s: ManagerState): ManagerState
  {
    var state := if HasHeadphones(s.session.outputs) then Connected else NotConnected;
    var newType := TypeForLatency(s.session.outputLatency);
    s.(headphoneState := state, stateNotifications := s.stateNotifications + 1,
       headphoneType := newType,
       typeNotifications := s.typeNotifications + if newType != s.headphoneType then 1 else 0)
  }

  /** `handleRouteChange(notification:)`. */
  function RouteChangeStep(s: ManagerState, failing: set<SessionCall>): ManagerState
  {
    var s1 := UpdateHeadphoneStateStep(s);
    s1.(session := SetPreferredInputStep(s1.session, failing))
  }

  /** `getAudioOffset()`, read by `manualSyncingOffset`. */
  function ManualSyncingOffset(t: HeadphoneType): CMTime
  {
    if t == AirPodPro then AirpodProOffset() else CMTime(0, 1)
  }

  /** `recordingOffset`: twice the input latency. */
  function RecordingOffset(session: Session): CMTime
  {
    SecondsAt10000(session.inputLatency * 2.0)
  }

  // ---------------------------------------------------------------------
  // Properties
  // ---------------------------------------------------------------------

  /** Every queued block holds a token already taken, so no later request reuses one. */
  predicate TokensTaken(s: ManagerState)
  {
    forall i :: 0 <= i < |s.queued| ==> s.queued[i].token <= s.token
  }

  /** A request's token is above every token taken before it, and the old blocks become stale. */
  lemma RequestTakesFreshToken(s: ManagerState, setup: SessionSetup, onQueue: bool, failing: set<SessionCall>)
    requires TokensTaken(s)
    ensures var t := RequestStep(s, setup, onQueue, failing);
            t.token == s.token + 1 && TokensTaken(t)
            && forall i :: 0 <= i < |s.queued| ==> s.queued[i].token < t.token
  {
  }

  /** Running the next block keeps every token taken. */
  lemma RunNextKeepsTokens(s: ManagerState, failing: set<SessionCall>)
    requires s.queued != [] && TokensTaken(s)
    ensures TokensTaken(RunNextQueuedStep(s, failing))
  {
  }

  /** A block whose token is no longer the latest changes no setting; it still completes its future. */
  lemma StaleBlockDoesNothing(s: ManagerState, failing: set<SessionCall>)
    requires s.queued != [] && s.queued[0].token != s.token
    ensures RunNextQueuedStep(s, failing).session == s.session
    ensures RunNextQueuedStep(s, failing).completed == s.completed + [s.queued[0].token]
  {
  }

  /**
   * Of two queued requests the later one wins: the first block finds its
   * token stale and does nothing, and the second applies its setup.
   */
  lemma LatestRequestWins(s: ManagerState, first: SessionSetup, second: SessionSetup, failing: set<SessionCall>)
    requires s.queued == []
    ensures var q := RequestStep(RequestStep(s, first, true, failing), second, true, failing);
            var r1 := RunNextQueuedStep(q, failing);
            r1.session == s.session
            && r1.queued != []
            && RunNextQueuedStep(r1, failing).session
               == (match second case ForPlayback => PlaybackSetup(s.session, failing) case ForRecord => RecordSetup(s.session, failing))
  {
    var q := RequestStep(RequestStep(s, first, true, failing), second, true, failing);
    assert q.queued == [QueuedBlock(first, s.token + 1), QueuedBlock(second, s.token + 2)];
  }

  /** A current record block with no failing call leaves the session set up for recording. */
  lemma RecordSetupConfigures(session: Session)
    ensures var r := RecordSetup(session, {});
            r.category == PlayAndRecord && r.mode == VideoRecording && r.allowBluetoothA2DP
            && r.preferredSampleRate == 48100.0 && r.preferredIOBufferDuration == 0.005 && r.active
            && (session.availableInputs.Some? && PreferredInputAmong(session.availableInputs.value).Some?
                ==> r.preferredInput == PreferredInputAmong(session.availableInputs.value))
  {
  }

  /** A failing call skips that one setting, and the block carries on with the next. */
  lemma RecordSetupSurvivesFailures(session: Session, failing: set<SessionCall>)
    requires SetCategory !in failing && SetActive !in failing
    ensures RecordSetup(session, failing).category == PlayAndRecord
    ensures RecordSetup(session, failing).active
    ensures SetPreferredSampleRate in failing ==> RecordSetup(session, failing).preferredSampleRate == session.preferredSampleRate
  {
  }

  /** The state posts on every update, the type only when it differs from the old one. */
  lemma NotificationsOnUpdate(s: ManagerState)
    ensures var t := UpdateHeadphoneStateStep(s);
            t.stateNotifications == s.stateNotifications + 1
            && (t.typeNotifications == s.typeNotifications + 1 <==> t.headphoneType != s.headphoneType)
            && (t.typeNotifications == s.typeNotifications <==> t.headphoneType == s.headphoneType)
            && (t.headphoneState == Connected <==> exists i :: 0 <= i < |s.session.outputs| && IsHeadphoneOutput(s.session.outputs[i].portType))
  {
  }

  /** The syncing offset is the AirPods Pro one iff AirPods Pro were recognised, and zero otherwise. */
  lemma OffsetOnlyForAirpods(t: HeadphoneType)
    ensures t == AirPodPro ==> ManualSyncingOffset(t) == CMTime(1607, 10000)
    ensures t != AirPodPro ==> ManualSyncingOffset(t).value == 0
  {
    AirpodProOffsetValue();
  }

  class AppHeadphoneManager {
    var session: Session
    var inAppHeadphoneState: HeadphoneState
    var headphoneType: HeadphoneType
    var currentAudioSessionChangeRequestToken: int
    var queued: seq<QueuedBlock>
    var completed: seq<int>
    var stateNotifications: nat
    var typeNotifications: nat

    /** `init()`, observing route changes of the given session. */
    constructor (session: Session)
      ensures View() == ManagerState(session, NotConnected, Unknown, 0, [], [], 0, 0)
    {
      this.session := session;
      inAppHeadphoneState := NotConnected;
      headphoneType := Unknown;
      currentAudioSessionChangeRequestToken := 0;
      queued := [];
      completed := [];
      stateNotifications := 0;
      typeNotifications := 0;
    }

    function View(): ManagerState
      reads this
    {
      ManagerState(session, inAppHeadphoneState, headphoneType, currentAudioSessionChangeRequestToken, queued, completed,
                   stateNotifications, typeNotifications)
    }

    method CurrentState() returns (state: HeadphoneState)
      ensures state == inAppHeadphoneState
    {
      state := inAppHeadphoneState;
    }

    method CurrentHeadphoneType() returns (t: HeadphoneType)
      ensures t == headphoneType
    {
      t := headphoneType;
    }

    method ManualSyncingOffsetNow() returns (offset: CMTime)
      ensures offset == ManualSyncingOffset(headphoneType)
    {
      offset := if headphoneType == AirPodPro then SecondsAt10000(AirpodProOutputConstant) else CMTime(0, 1);
    }

    /** The route or the hardware changing outside the app. */
    method SetRoute(outputs: seq<Port>, availableInputs: Option<seq<Port>>, outputLatency: real, inputLatency: real)
      modifies this
      ensures View() == old(View()).(session := old(session).(outputs := outputs, availableInputs := availableInputs,
                                                                outputLatency := outputLatency, inputLatency := inputLatency))
    {
      session := session.(outputs := outputs, availableInputs := availableInputs, outputLatency := outputLatency, inputLatency := inputLatency);
    }

    method UpdateHeadphoneType() returns (t: HeadphoneType)
      ensures t == TypeForLatency(session.outputLatency)
    {
      if session.outputLatency == AirpodProOutputConstant {
        return AirPodPro;
      }
      return Unknown;
    }

    method UpdateHeadphoneState()
      modifies this
      ensures View() == UpdateHeadphoneStateStep(old(View()))
    {
      inAppHeadphoneState := if HasHeadphones(session.outputs) then Connected else NotConnected;
      stateNotifications := stateNotifications + 1;
      var oldValue := headphoneType;
      headphoneType := UpdateHeadphoneType();
      if oldValue != headphoneType {
        typeNotifications := typeNotifications + 1;
      }
    }

    method SetPreferredInputNow(failing: set<SessionCall>)
      modifies this
      ensures View() == old(View()).(session := SetPreferredInputStep(old(session), failing))
    {
      if session.category != PlayAndRecord {
        return;
      }
      if session.availableInputs.None? {
        return;
      }
      var inputs := session.availableInputs.value;
      var usbMic := FirstOfType(inputs, UsbAudio);
      var lineIn := FirstOfType(inputs, LineIn);
      var headsetMic := FirstOfType(inputs, HeadsetMic);
      var builtInMic := FirstOfType(inputs, BuiltInMic);
      var preferredInput := if usbMic.Some? then usbMic else if lineIn.Some? then lineIn else if headsetMic.Some? then headsetMic else builtInMic;
      if preferredInput.None? {
        return;
      }
      if SetPreferredInput !in failing {
        session := session.(preferredInput := preferredInput);
      }
    }

    /** The block of a request, run with the token it took. */
    method Block(b: QueuedBlock, failing: set<SessionCall>)
      modifies this
      ensures View() == RunBlock(old(View()), b, failing)
    {
      if b.token != currentAudioSessionChangeRequestToken {
        return;
      }
      match b.setup
      case ForPlayback =>
        if SetCategory !in failing {
          session := session.(category := Playback);
        }
      case ForRecord =>
        if SetCategory !in failing {
          session := session.(category := PlayAndRecord, mode := VideoRecording, allowBluetoothA2DP := true);
        }
        if SetPreferredSampleRate !in failing {
          session := session.(preferredSampleRate := PreferredSampleRate);
        }
        if SetPreferredIOBufferDuration !in failing {
          session := session.(preferredIOBufferDuration := PreferredIOBufferDuration);
        }
        if SetActive !in failing {
          session := session.(active := true);
        }
        SetPreferredInputNow(failing);
    }

    /** `setAudioSessionForPlayback(on:)` or `setAudioSessionForRecord(on:)`; `done` is whether the future has already completed. */
    method SetAudioSession(setup: SessionSetup, onQueue: bool, failing: set<SessionCall>) returns (done: bool)
      modifies this
      ensures View() == RequestStep(old(View()), setup, onQueue, failing)
      ensures done <==> !onQueue
    {
      currentAudioSessionChangeRequestToken := currentAudioSessionChangeRequestToken + 1;
      var tokenForThisRequest := currentAudioSessionChangeRequestToken;
      if !onQueue {
        Block(QueuedBlock(setup, tokenForThisRequest), failing);
        completed := completed + [tokenForThisRequest];
        return true;
      }
      queued := queued + [QueuedBlock(setup, tokenForThisRequest)];
      return false;
    }

    method RunNextQueued(failing: set<SessionCall>)
      requires queued != []
      modifies this
      ensures View() == RunNextQueuedStep(old(View()), failing)
    {
      var b := queued[0];
      queued := queued[1..];
      Block(b, failing);
      completed := completed + [b.token];
    }

    method HandleRouteChange(failing: set<SessionCall>)
      modifies this
      ensures View() == RouteChangeStep(old(View()), failing)
    {
      UpdateHeadphoneState();
      SetPreferredInputNow(failing);
    }
  }
}
