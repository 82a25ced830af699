/**
 * A looper that plays one clip seamlessly by keeping a current player and a
 * buffer player scheduled to take over at the next loop
 * (OpenCollab/Sources/VideoPlayback/QueuePlayerLooper.swift).
 *
 * The players it creates are known by a `PlayerHandle` numbered in order
 * of creation; what the looper asks of them (schedule, preheat, attach,
 * clear, volume and mute) and what it tells its delegate are recorded as
 * `QueueEvent`s. The app mute switch and the headphone state are
 * parameters of the notifications that report them.
 */
module QueuePlayerLooperModel {
  import opened Wrappers
  import opened Extensions
  import opened HotLooperModel

  datatype PlayerHandle = PlayerHandle(serial: nat)

  datatype QueueEvent =
    | PlayerCreated(player: PlayerHandle, volume: real, isMuted: bool)
    | PlayerPreheat(player: PlayerHandle)
    | PlayerScheduled(player: PlayerHandle, itemTime: Time, syncTime: Time)
    | PlayerAttached(player: PlayerHandle, volume: real, isMuted: bool)
    | PlayerCleared(player: PlayerHandle)
    | PlayerVolumeSet(player: PlayerHandle, volume: real)
    | PlayerMuteSet(player: PlayerHandle, isMuted: bool)
    | DelegateReadyToLoop(delegate: LooperId)
    | DelegateIsBuffering(delegate: LooperId)
    | DelegateStoppedBuffering(delegate: LooperId)
    | LoadingEndTimeSet(time: Time)

  datatype LooperConfig = LooperConfig(playbackStartTime: Time, playbackDuration: Time, hasHostView: bool)

  datatype LooperState = LooperState(
    currentPlayer: Option<PlayerHandle>,
    bufferPlayer: Option<PlayerHandle>,
    nextPlayer: nat,
    isPreheating: bool,
    isReadyToLoop: bool,
    delegate: Option<LooperId>,
    isMuted: bool,
    volume: real,
    shouldMuteWithoutHeadphones: bool,
    events: seq<QueueEvent>)

  /**
   * The slots hold players this looper created, and never the same one
   * twice.
   */
  predicate SlotsValid(s: LooperState)
  {
    (s.currentPlayer.Some? ==> s.currentPlayer.value.serial < s.nextPlayer)
    && (s.bufferPlayer.Some? ==> s.bufferPlayer.value.serial < s.nextPlayer)
    && (s.currentPlayer.Some? && s.bufferPlayer.Some? ==> s.currentPlayer != s.bufferPlayer)
  }

  function Emit(s: LooperState, e: QueueEvent): LooperState
  {
    s.(events := s.events + [e])
  }

  /** `player?.clear()`. */
  function ClearCall(p: Option<PlayerHandle>): seq<QueueEvent>
  {
    if p.Some? then [PlayerCleared(p.value)] else []
  }

  function VolumeCall(p: Option<PlayerHandle>, volume: real): seq<QueueEvent>
  {
    if p.Some? then [PlayerVolumeSet(p.value, volume)] else []
  }

  function MuteCall(p: Option<PlayerHandle>, isMuted: bool): seq<QueueEvent>
  {
    if p.Some? then [PlayerMuteSet(p.value, isMuted)] else []
  }

  /** `createPlayer(syncClock:)`: the next handle, created with the looper's volume and mute. */
  function NewPlayer(s: LooperState): (LooperState, PlayerHandle)
  {
    var p := PlayerHandle(s.nextPlayer);
    (s.(nextPlayer := s.nextPlayer + 1, events := s.events + [PlayerCreated(p, s.volume, s.isMuted)]), p)
  }

  /** `preheat(syncClock:)`: a new current player is created and preheated. */
  function PreheatStep(s: LooperState): LooperState
  {
    var (created, p) := NewPlayer(s);
    created.(isPreheating := true, currentPlayer := Some(p), events := created.events + [PlayerPreheat(p)])
  }

  /** `attachPlayer(player:)`: it becomes current and takes the looper's volume and mute. */
  function AttachStep(s: LooperState, p: PlayerHandle): LooperState
  {
    s.(currentPlayer := Some(p), events := s.events + [PlayerAttached(p, s.volume, s.isMuted)])
  }

  /** `setBufferPlayer(syncTime:syncClock:)`: a new buffer player scheduled from its start. */
  function SetBufferStep(s: LooperState, syncTime: Time): LooperState
  {
    var (created, p) := NewPlayer(s);
    created.(bufferPlayer := Some(p), events := created.events + [PlayerScheduled(p, Zero, syncTime)])
  }

  /** `play(itemTime:syncTime:syncClock:)`. */
  function PlayStep(c: LooperConfig, s: LooperState, itemTime: Time, syncTime: Time): LooperState
  {
    var (withPlayer, p) := if s.currentPlayer.Some? then (s, s.currentPlayer.value) else NewPlayer(s);
    var scheduled := Emit(withPlayer, PlayerScheduled(p, itemTime, syncTime));
    var remainingPlaybackTime := c.playbackDuration - itemTime;
    SetBufferStep(AttachStep(scheduled, p), syncTime + remainingPlaybackTime)
  }

  /** `removeCurrentPlayer()`. */
  function RemoveCurrentStep(s: LooperState): LooperState
  {
    s.(currentPlayer := None, events := s.events + ClearCall(s.currentPlayer))
  }

  /** `attachBufferPlayer()`. */
  function AttachBufferStep(s: LooperState): LooperState
  {
    if s.bufferPlayer.None? then s else AttachStep(s, s.bufferPlayer.value).(bufferPlayer := None)
  }

  /** `loop(loopTime:loopDuration:syncClock:)`. */
  function LoopStep(s: LooperState, loopTime: Time, loopDuration: Time): LooperState
  {
    if s.bufferPlayer.None? then s
    else SetBufferStep(AttachBufferStep(RemoveCurrentStep(s)), loopTime + loopDuration)
  }

  /** `clear()`. */
  function ClearStep(s: LooperState): LooperState
  {
    var currentCleared := s.(currentPlayer := None, events := s.events + ClearCall(s.currentPlayer));
    currentCleared.(bufferPlayer := None, events := currentCleared.events + ClearCall(s.bufferPlayer))
  }

  /** `playerPreheated(player:)`. */
  function PlayerPreheatedStep(s: LooperState, p: PlayerHandle): LooperState
  {
    if s.currentPlayer != Some(p) then s
    else if !s.isPreheating then s
    else
      s.(isPreheating := false, isReadyToLoop := true,
         events := s.events + (if s.delegate.Some? then [DelegateReadyToLoop(s.delegate.value)] else []))
  }

  /** `bufferingStarted(player:)`: forwarded to the delegate for whichever player. */
  function BufferingStartedStep(s: LooperState): LooperState
  {
    if s.delegate.Some? then Emit(s, DelegateIsBuffering(s.delegate.value)) else s
  }

  function BufferingStoppedStep(s: LooperState): LooperState
  {
    if s.delegate.Some? then Emit(s, DelegateStoppedBuffering(s.delegate.value)) else s
  }

  /** `playerStartedPlaying(player:time:)`. */
  function PlayerStartedPlayingStep(c: LooperConfig, s: LooperState, time: Time): LooperState
  {
    if c.hasHostView then Emit(s, LoadingEndTimeSet(time)) else s
  }

  /** The `isMuted` setter with its `didSet`. */
  function SetMutedStep(s: LooperState, isMuted: bool): LooperState
  {
    s.(isMuted := isMuted, events := s.events + MuteCall(s.currentPlayer, isMuted) + MuteCall(s.bufferPlayer, isMuted))
  }

  /** The `volume` setter with its `didSet`. */
  function SetVolumeStep(s: LooperState, volume: real): LooperState
  {
    s.(volume := volume, events := s.events + VolumeCall(s.currentPlayer, volume) + VolumeCall(s.bufferPlayer, volume))
  }

  /** `muteStateChanged()`, with the app's mute state `appIsMuted`. */
  function MuteStateChangedStep(s: LooperState, appIsMuted: bool): LooperState
  {
    if appIsMuted || s.shouldMuteWithoutHeadphones then SetMutedStep(s, true) else SetMutedStep(s, false)
  }

  /** `headphoneStateChanged()`, with the headphone state `headphonesConnected`. */
  function HeadphoneStateChangedStep(s: LooperState, headphonesConnected: bool): LooperState
  {
    if !s.shouldMuteWithoutHeadphones then s else SetMutedStep(s, !headphonesConnected)
  }

  /** The `shouldMuteWithoutHeadphones` setter, whose `didSet` re-reads the headphones. */
  function SetShouldMuteWithoutHeadphonesStep(s: LooperState, flag: bool, headphonesConnected: bool): LooperState
  {
    HeadphoneStateChangedStep(s.(shouldMuteWithoutHeadphones := flag), headphonesConnected)
  }

  /**
   * `play` keeps a current player that already exists (created while
   * preheating) and otherwise creates one; the player is scheduled as
   * asked, and a new buffer player is scheduled from its start for the
   * moment the current one reaches the end of the window.
   */
  lemma PlayReusesCurrentAndQueuesBuffer(c: LooperConfig, s: LooperState, itemTime: Time, syncTime: Time)
    ensures var r := PlayStep(c, s, itemTime, syncTime);
            var p := if s.currentPlayer.Some? then s.currentPlayer.value else PlayerHandle(s.nextPlayer);
            r.currentPlayer == Some(p)
            && PlayerScheduled(p, itemTime, syncTime) in r.events
            && r.bufferPlayer == Some(PlayerHandle(r.nextPlayer - 1))
            && r.events[|r.events| - 1] == PlayerScheduled(r.bufferPlayer.value, 0, syncTime + (c.playbackDuration - itemTime))
            && r.nextPlayer == s.nextPlayer + (if s.currentPlayer.Some? then 1 else 2)
  {
    var (withPlayer, p) := if s.currentPlayer.Some? then (s, s.currentPlayer.value) else NewPlayer(s);
    var scheduled := Emit(withPlayer, PlayerScheduled(p, itemTime, syncTime));
    assert scheduled.events[|scheduled.events| - 1] == PlayerScheduled(p, itemTime, syncTime);
    var r := PlayStep(c, s, itemTime, syncTime);
    assert r.events[|scheduled.events| - 1] == PlayerScheduled(p, itemTime, syncTime);
  }

  /** `loop` without a buffer player does nothing at all. */
  lemma LoopWithoutBufferIsNoop(s: LooperState, loopTime: Time, loopDuration: Time)
    requires s.bufferPlayer.None?
    ensures LoopStep(s, loopTime, loopDuration) == s
  {
  }

  /**
   * `loop` with a buffer player clears the current player, promotes the
   * buffer to current and queues a new buffer for one loop later.
   */
  lemma LoopPromotesBuffer(s: LooperState, loopTime: Time, loopDuration: Time)
    requires s.bufferPlayer.Some?
    ensures var r := LoopStep(s, loopTime, loopDuration);
            var newBuffer := PlayerHandle(s.nextPlayer);
            r.currentPlayer == s.bufferPlayer
            && r.bufferPlayer == Some(newBuffer)
            && r.events == s.events + ClearCall(s.currentPlayer)
                 + [PlayerAttached(s.bufferPlayer.value, s.volume, s.isMuted),
                    PlayerCreated(newBuffer, s.volume, s.isMuted),
                    PlayerScheduled(newBuffer, 0, loopTime + loopDuration)]
  {
  }

  /** `clear` empties both slots and clears each player that was in one. */
  lemma ClearEmptiesSlots(s: LooperState)
    ensures var r := ClearStep(s);
            r.currentPlayer.None? && r.bufferPlayer.None?
            && r.events == s.events + ClearCall(s.currentPlayer) + ClearCall(s.bufferPlayer)
            && SlotsValid(r)
  {
  }

  /**
   * `playerPreheated` changes something exactly when the player is the
   * current one and the looper is preheating; it then becomes ready to
   * loop and stops preheating.
   */
  lemma PreheatedOnlyForCurrentPlayer(s: LooperState, p: PlayerHandle)
    ensures s.currentPlayer == Some(p) && s.isPreheating <==> PlayerPreheatedStep(s, p) != s
    ensures s.currentPlayer == Some(p) && s.isPreheating ==>
              var r := PlayerPreheatedStep(s, p);
              r.isReadyToLoop && !r.isPreheating
  {
  }

  /** A volume or mute change reaches every player in a slot. */
  lemma VolumeAndMuteReachBothPlayers(s: LooperState, volume: real, isMuted: bool)
    ensures var r := SetVolumeStep(s, volume);
            r.volume == volume
            && (s.currentPlayer.Some? ==> PlayerVolumeSet(s.currentPlayer.value, volume) in r.events[|s.events|..])
            && (s.bufferPlayer.Some? ==> PlayerVolumeSet(s.bufferPlayer.value, volume) in r.events[|s.events|..])
    ensures var r := SetMutedStep(s, isMuted);
            r.isMuted == isMuted
            && (s.currentPlayer.Some? ==> PlayerMuteSet(s.currentPlayer.value, isMuted) in r.events[|s.events|..])
            && (s.bufferPlayer.Some? ==> PlayerMuteSet(s.bufferPlayer.value, isMuted) in r.events[|s.events|..])
  {
    var v := SetVolumeStep(s, volume);
    assert v.events[|s.events|..] == VolumeCall(s.currentPlayer, volume) + VolumeCall(s.bufferPlayer, volume);
    var m := SetMutedStep(s, isMuted);
    assert m.events[|s.events|..] == MuteCall(s.currentPlayer, isMuted) + MuteCall(s.bufferPlayer, isMuted);
  }

  /**
   * The mute rules: the mute switch mutes when the app is muted or the
   * looper mutes without headphones; a headphone change matters only to a
   * looper that mutes without headphones, and then mutes it exactly when
   * none are connected.
   */
  lemma MuteRules(s: LooperState, appIsMuted: bool, headphonesConnected: bool)
    ensures MuteStateChangedStep(s, appIsMuted).isMuted == (appIsMuted || s.shouldMuteWithoutHeadphones)
    ensures s.shouldMuteWithoutHeadphones ==> HeadphoneStateChangedStep(s, headphonesConnected).isMuted == !headphonesConnected
    ensures !s.shouldMuteWithoutHeadphones ==> HeadphoneStateChangedStep(s, headphonesConnected) == s
    ensures SetShouldMuteWithoutHeadphonesStep(s, true, headphonesConnected).isMuted == !headphonesConnected
  {
  }

  /** Every step of the looper keeps the two slots valid. */
  lemma StepsKeepSlotsValid(c: LooperConfig, s: LooperState, itemTime: Time, syncTime: Time,
                            loopTime: Time, loopDuration: Time, p: PlayerHandle)
    requires SlotsValid(s)
    ensures SlotsValid(PreheatStep(s))
    ensures SlotsValid(PlayStep(c, s, itemTime, syncTime))
    ensures SlotsValid(LoopStep(s, loopTime, loopDuration))
    ensures SlotsValid(ClearStep(s))
    ensures SlotsValid(PlayerPreheatedStep(s, p))
  {
  }

  class QueuePlayerLooper {
    const id: LooperId
    const playbackStartTime: Time
    const playbackDuration: Time
    const hasHostView: bool
    var currentPlayer: Option<PlayerHandle>
    var bufferPlayer: Option<PlayerHandle>
    /** The number the next created player gets. */
    var nextPlayer: nat
    var isPreheating: bool
    var isReadyToLoop: bool
    var delegate: Option<LooperId>
    var isMuted: bool
    var volume: real
    var shouldMuteWithoutHeadphones: bool
    var events: seq<QueueEvent>

    constructor (id: LooperId, playbackStartTime: Time, playbackDuration: Time, hasHostView: bool)
      ensures this.id == id
      ensures Config() == LooperConfig(playbackStartTime, playbackDuration, hasHostView)
      ensures View() == LooperState(None, None, 0, false, false, None, false, 1.0, false, [])
    {
      this.id := id;
      this.playbackStartTime := playbackStartTime;
      this.playbackDuration := playbackDuration;
      this.hasHostView := hasHostView;
      currentPlayer := None;
      bufferPlayer := None;
      nextPlayer := 0;
      isPreheating := false;
      isReadyToLoop := false;
      delegate := None;
      isMuted := false;
      volume := 1.0;
      shouldMuteWithoutHeadphones := false;
      events := [];
    }

    function Config(): LooperConfig
    {
      LooperConfig(playbackStartTime, playbackDuration, hasHostView)
    }

    function View(): LooperState
      reads this
    {
      LooperState(currentPlayer, bufferPlayer, nextPlayer, isPreheating, isReadyToLoop, delegate,
                  isMuted, volume, shouldMuteWithoutHeadphones, events)
    }

    method SetDelegate(delegate: Option<LooperId>)
      modifies this
      ensures View() == old(View()).(delegate := delegate)
    {
      this.delegate := delegate;
    }

    method SetIsMuted(isMuted: bool)
      modifies this
      ensures View() == SetMutedStep(old(View()), isMuted)
    {
      this.isMuted := isMuted;
      if currentPlayer.Some? {
        events := events + [PlayerMuteSet(currentPlayer.value, isMuted)];
      }
      if bufferPlayer.Some? {
        events := events + [PlayerMuteSet(bufferPlayer.value, isMuted)];
      }
    }

    method SetVolume(volume: real)
      modifies this
      ensures View() == SetVolumeStep(old(View()), volume)
    {
      this.volume := volume;
      if currentPlayer.Some? {
        events := events + [PlayerVolumeSet(currentPlayer.value, volume)];
      }
      if bufferPlayer.Some? {
        events := events + [PlayerVolumeSet(bufferPlayer.value, volume)];
      }
    }

    method SetShouldMuteWithoutHeadphones(flag: bool, headphonesConnected: bool)
      modifies this
      ensures View() == SetShouldMuteWithoutHeadphonesStep(old(View()), flag, headphonesConnected)
    {
      shouldMuteWithoutHeadphones := flag;
      HeadphoneStateChanged(headphonesConnected);
    }

    method Preheat()
      modifies this
      ensures View() == PreheatStep(old(View()))
    {
      isPreheating := true;
      var p := CreatePlayer();
      currentPlayer := Some(p);
      events := events + [PlayerPreheat(p)];
    }

    method Play(itemTime: Time, syncTime: Time)
      modifies this
      ensures View() == PlayStep(Config(), old(View()), itemTime, syncTime)
    {
      var p: PlayerHandle;
      if currentPlayer.Some? {
        p := currentPlayer.value;
      } else {
        p := CreatePlayer();
      }
      events := events + [PlayerScheduled(p, itemTime, syncTime)];
      AttachPlayer(p);
      var remainingPlaybackTime := playbackDuration - itemTime;
      var nextLoopTime := syncTime + remainingPlaybackTime;
      SetBufferPlayer(nextLoopTime);
    }

    method Loop(loopTime: Time, loopDuration: Time)
      modifies this
      ensures View() == LoopStep(old(View()), loopTime, loopDuration)
    {
      if bufferPlayer.None? {
        return;
      }
      RemoveCurrentPlayer();
      AttachBufferPlayer();
      var nextLoopTime := loopTime + loopDuration;
      SetBufferPlayer(nextLoopTime);
    }

    method Clear()
      modifies this
      ensures View() == ClearStep(old(View()))
    {
      if currentPlayer.Some? {
        events := events + [PlayerCleared(currentPlayer.value)];
      }
      currentPlayer := None;
      if bufferPlayer.Some? {
        events := events + [PlayerCleared(bufferPlayer.value)];
      }
      bufferPlayer := None;
    }

    method CreatePlayer() returns (p: PlayerHandle)
      modifies this
      ensures (View(), p) == NewPlayer(old(View()))
    {
      p := PlayerHandle(nextPlayer);
      nextPlayer := nextPlayer + 1;
      events := events + [PlayerCreated(p, volume, isMuted)];
    }

    method AttachPlayer(p: PlayerHandle)
      modifies this
      ensures View() == AttachStep(old(View()), p)
    {
      currentPlayer := Some(p);
      events := events + [PlayerAttached(p, volume, isMuted)];
    }

    method SetBufferPlayer(syncTime: Time)
      modifies this
      ensures View() == SetBufferStep(old(View()), syncTime)
    {
      var p := CreatePlayer();
      bufferPlayer := Some(p);
      events := events + [PlayerScheduled(p, Zero, syncTime)];
    }

    method AttachBufferPlayer()
      modifies this
      ensures View() == AttachBufferStep(old(View()))
    {
      if bufferPlayer.None? {
        return;
      }
      AttachPlayer(bufferPlayer.value);
      bufferPlayer := None;
    }

    method RemoveCurrentPlayer()
      modifies this
      ensures View() == RemoveCurrentStep(old(View()))
    {
      if currentPlayer.Some? {
        events := events + [PlayerCleared(currentPlayer.value)];
      }
      currentPlayer := None;
    }

    method MuteStateChanged(appIsMuted: bool)
      modifies this
      ensures View() == MuteStateChangedStep(old(View()), appIsMuted)
    {
      if appIsMuted || shouldMuteWithoutHeadphones {
        SetIsMuted(true);
      } else {
        SetIsMuted(false);
      }
    }

    method HeadphoneStateChanged(headphonesConnected: bool)
      modifies this
      ensures View() == HeadphoneStateChangedStep(old(View()), headphonesConnected)
    {
      if !shouldMuteWithoutHeadphones {
        return;
      }
      SetIsMuted(!headphonesConnected);
    }

    method BufferingStarted(player: PlayerHandle)
      modifies this
      ensures View() == BufferingStartedStep(old(View()))
    {
      if delegate.Some? {
        events := events + [DelegateIsBuffering(delegate.value)];
      }
    }

    method BufferingStopped(player: PlayerHandle)
      modifies this
      ensures View() == BufferingStoppedStep(old(View()))
    {
      if delegate.Some? {
        events := events + [DelegateStoppedBuffering(delegate.value)];
      }
    }

    method PlayerPreheated(player: PlayerHandle)
      modifies this
      ensures View() == PlayerPreheatedStep(old(View()), player)
    {
      if currentPlayer != Some(player) {
        return;
      }
      if !isPreheating {
        return;
      }
      isPreheating := false;
      isReadyToLoop := true;
      if delegate.Some? {
        events := events + [DelegateReadyToLoop(delegate.value)];
      }
    }

    method PlayerStartedPlaying(player: PlayerHandle, time: Time)
      modifies this
      ensures View() == PlayerStartedPlayingStep(Config(), old(View()), time)
    {
      if hasHostView {
        events := events + [LoadingEndTimeSet(time)];
      }
    }
  }
}
