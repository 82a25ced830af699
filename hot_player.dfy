/**
 * One player that can be scheduled to start at a host-clock time
 * (OpenCollab/Sources/VideoPlayback/HotPlayer.swift).
 *
 * The AVPlayer and its item exist together or not at all: `hasPlayer`.
 * The host clock reading is the parameter `now`, `hasSyncClock` says
 * whether a clock was given. Every asynchronous completion (the preroll
 * finishing, the item's status or rate changing, a dispatched work item
 * firing, a buffering observer) is one method, run as one atomic step.
 * Calls made on the AVPlayer and on the delegate are `PlayerEvent`s.
 *
 * Each step is specified by a function from `PlayerState` to
 * `PlayerState` and the methods of `HotPlayer` are proved to perform it.
 */
module HotPlayerModel {
  import opened Wrappers
  import opened Extensions

  /** `Constants.allotedPrerollBuffer`: 4 s at timescale 600. */
  const PrerollBuffer: Time := 4 * Timescale

  datatype PlayerEvent =
    | AVPlayerCreated(forwardPlaybackEndTime: Time, volume: real, isMuted: bool)
    | PrerollRequested
    | PlayWorkDispatched(waitTime: Time)
    | RateSet(itemTime: Time, hostTime: Time)
    | PlainPlay
    | AVPlayerPaused
    | BufferObservationStarted
    | PlayerVolumeSet(volume: real)
    | PlayerMuteSet(isMuted: bool)
    | NotifiedPreheated
    | NotifiedStartedPlaying(time: Time)
    | NotifiedBufferingStarted
    | NotifiedBufferingStopped

  /** What the player was created with and never changes. */
  datatype PlayerConfig = PlayerConfig(assetPlaybackStartTime: Time, assetPlaybackDuration: Time, hasSyncClock: bool)

  /** `playWork` is the pending dispatched work item with its wait time. */
  datatype PlayerState = PlayerState(
    itemTime: Option<Time>,
    syncTime: Option<Time>,
    hasPlayer: bool,
    isDetectingRecovery: bool,
    isObservingBuffering: bool,
    isPreheating: bool,
    isScheduled: bool,
    shouldBePlaying: bool,
    playWork: Option<Time>,
    hasDelegate: bool,
    volume: real,
    isMuted: bool,
    events: seq<PlayerEvent>)

  /** The end the player item is told to stop at: the end of the window. */
  function ForwardPlaybackEndTime(c: PlayerConfig): (t: Time)
    ensures t - c.assetPlaybackStartTime == c.assetPlaybackDuration
  {
    c.assetPlaybackStartTime + c.assetPlaybackDuration
  }

  /** Recovery is only ever watched on an existing player. */
  predicate RecoveryNeedsPlayer(s: PlayerState)
  {
    s.isDetectingRecovery ==> s.hasPlayer
  }

  function Emit(s: PlayerState, e: PlayerEvent): PlayerState
  {
    s.(events := s.events + [e])
  }

  /** `delegate?.…`: a call on the delegate only when there is one. */
  function Notify(s: PlayerState, e: PlayerEvent): (r: PlayerState)
    ensures r.events == s.events + (if s.hasDelegate then [e] else [])
    ensures r == s.(events := r.events)
  {
    if s.hasDelegate then Emit(s, e) else s
  }

  /** The four ways `preparePlayback` can go. */
  datatype PlaybackDecision = PlayWhenReady | AlreadyPast | DispatchAfter(waitTime: Time) | PrepareNow

  /**
   * `preparePlayback`'s timing decision: without a sync time or clock play
   * when ready; past the end of the scheduled window do nothing; with more
   * than the preroll buffer left wait until only the buffer is left;
   * otherwise prepare now.
   */
  function Decide(syncTime: Option<Time>, hasSyncClock: bool, duration: Time, now: Time): (d: PlaybackDecision)
    ensures d == PlayWhenReady <==> syncTime.None? || !hasSyncClock
    ensures d == AlreadyPast <==> syncTime.Some? && hasSyncClock && now > syncTime.value + duration
    ensures d.DispatchAfter? <==>
              syncTime.Some? && hasSyncClock && now <= syncTime.value + duration
              && syncTime.value - now > PrerollBuffer
    ensures d.DispatchAfter? ==> d.waitTime > 0 && now + d.waitTime + PrerollBuffer == syncTime.value
  {
    if syncTime.None? || !hasSyncClock then PlayWhenReady
    else
      var endTime := syncTime.value + duration;
      if Compare(now, endTime) > 0 then AlreadyPast
      else
        var remainingTime := syncTime.value - now;
        var dispatchWaitTime := remainingTime - PrerollBuffer;
        if Compare(dispatchWaitTime, Zero) > 0 then DispatchAfter(dispatchWaitTime) else PrepareNow
  }

  /** Waking up after the dispatched wait leaves exactly the preroll buffer, so playback is prepared then. */
  lemma DispatchedWorkWakesWithPrerollBuffer(syncTime: Option<Time>, hasSyncClock: bool, duration: Time, now: Time)
    requires duration >= 0
    requires Decide(syncTime, hasSyncClock, duration, now).DispatchAfter?
    ensures var w := Decide(syncTime, hasSyncClock, duration, now).waitTime;
            Decide(syncTime, hasSyncClock, duration, now + w) == PrepareNow
            && syncTime.value - (now + w) == PrerollBuffer
  {
  }

  /**
   * The rate `playAtScheduledTime` sets: item and host time as scheduled,
   * or, when the sync time is already past, both moved forward by the
   * lateness so that the player starts in step at the current clock time.
   */
  function ScheduledRate(assetPlaybackStartTime: Time, itemTime: Time, syncTime: Time, now: Time): (r: (Time, Time))
    ensures r.1 == Max(syncTime, now)
    ensures r.0 - r.1 == assetPlaybackStartTime + itemTime - syncTime
    ensures now <= syncTime ==> r == (assetPlaybackStartTime + itemTime, syncTime)
  {
    if Compare(now, syncTime) > 0 then (now - syncTime + (assetPlaybackStartTime + itemTime), now)
    else (assetPlaybackStartTime + itemTime, syncTime)
  }

  /** `createPlayer()`: a new AVPlayer with the current volume and mute, watched for recovery. */
  function CreatePlayerStep(c: PlayerConfig, s: PlayerState): (r: PlayerState)
    ensures r.hasPlayer && r.isDetectingRecovery
    ensures r.events == s.events + [AVPlayerCreated(ForwardPlaybackEndTime(c), s.volume, s.isMuted)]
  {
    s.(hasPlayer := true, isDetectingRecovery := true,
       events := s.events + [AVPlayerCreated(ForwardPlaybackEndTime(c), s.volume, s.isMuted)])
  }

  /** `playAtScheduledTime()`. */
  function PlayAtScheduledTimeStep(c: PlayerConfig, s: PlayerState, now: Time): PlayerState
  {
    if !s.hasPlayer then s
    else if s.itemTime.None? || s.syncTime.None? || !c.hasSyncClock then Emit(s, PlainPlay)
    else
      var rate := ScheduledRate(c.assetPlaybackStartTime, s.itemTime.value, s.syncTime.value, now);
      Notify(Emit(s, RateSet(rate.0, rate.1)), NotifiedStartedPlaying(now)).(shouldBePlaying := true)
  }

  /** `prepareToPlay()`: play an existing player, otherwise create one. */
  function PrepareToPlayStep(c: PlayerConfig, s: PlayerState, now: Time): PlayerState
  {
    if s.hasPlayer then PlayAtScheduledTimeStep(c, s, now) else CreatePlayerStep(c, s)
  }

  /** `dispatchPlayWork(waitTime:)`: the previous work item is replaced. */
  function DispatchStep(s: PlayerState, waitTime: Time): PlayerState
  {
    s.(playWork := Some(waitTime), events := s.events + [PlayWorkDispatched(waitTime)])
  }

  /** `preparePlayback()`. */
  function PreparePlaybackStep(c: PlayerConfig, s: PlayerState, now: Time): PlayerState
  {
    match Decide(s.syncTime, c.hasSyncClock, c.assetPlaybackDuration, now)
    case PlayWhenReady => PrepareToPlayStep(c, s, now)
    case AlreadyPast => s
    case DispatchAfter(w) => DispatchStep(s, w)
    case PrepareNow => PrepareToPlayStep(c, s, now)
  }

  /** `preheat()`. */
  function PreheatStep(c: PlayerConfig, s: PlayerState): PlayerState
  {
    if s.isScheduled then s else CreatePlayerStep(c, s.(isPreheating := true))
  }

  /** `schedule(itemTime:syncTime:)`. */
  function ScheduleStep(c: PlayerConfig, s: PlayerState, itemTime: Time, syncTime: Option<Time>, now: Time): PlayerState
  {
    var scheduled := s.(itemTime := Some(itemTime), syncTime := syncTime, isScheduled := true);
    if scheduled.isPreheating then scheduled else PreparePlaybackStep(c, scheduled, now)
  }

  /** `prerollPlayer()`: the preroll request; its completion is `PrerollFinishedStep`. */
  function PrerollStep(s: PlayerState): PlayerState
  {
    if !s.hasPlayer then s else Emit(s, PrerollRequested)
  }

  /** The private `play()`, run once the player item is ready. */
  function PlayStep(c: PlayerConfig, s: PlayerState, now: Time): PlayerState
  {
    if s.isPreheating then PrerollStep(s)
    else if s.isScheduled then PlayAtScheduledTimeStep(c, s, now)
    else s
  }

  /** The completion of `preroll(atRate:)`. */
  function PrerollFinishedStep(c: PlayerConfig, s: PlayerState, finished: bool, now: Time): PlayerState
  {
    if !finished then s
    else
      var done := s.(isPreheating := false);
      if done.itemTime.Some? then PreparePlaybackStep(c, done, now) else Notify(done, NotifiedPreheated)
  }

  /** `clearInternalState()`: the pending work is cancelled and the AVPlayer paused and dropped. */
  function ClearInternalStep(s: PlayerState): PlayerState
  {
    s.(isDetectingRecovery := s.isDetectingRecovery && !s.hasPlayer,
       playWork := None,
       hasPlayer := false,
       events := s.events + (if s.hasPlayer then [AVPlayerPaused] else []))
  }

  /** `clear()`: also lets go of the delegate. */
  function ClearStep(s: PlayerState): PlayerState
  {
    ClearInternalStep(s).(hasDelegate := false)
  }

  /** `recover()`: start over from a fresh player. */
  function RecoverStep(c: PlayerConfig, s: PlayerState, now: Time): PlayerState
  {
    PreparePlaybackStep(c, ClearInternalStep(s), now)
  }

  /** `beginObservingBuffering()`: already buffered, or no item to watch, means play at once. */
  function BeginObservingBufferingStep(c: PlayerConfig, s: PlayerState, likelyToKeepUp: bool, bufferFull: bool,
                                       now: Time): PlayerState
  {
    var observing := Notify(s, NotifiedBufferingStarted).(isObservingBuffering := true);
    if observing.hasPlayer && !likelyToKeepUp && !bufferFull then Emit(observing, BufferObservationStarted)
    else PlayStep(c, observing, now)
  }

  /** `endBufferingObservationAndRestartPlayback()`: only the first of the two observers acts. */
  function EndBufferingStep(c: PlayerConfig, s: PlayerState, now: Time): PlayerState
  {
    if !s.isObservingBuffering then s
    else PlayStep(c, Notify(s, NotifiedBufferingStopped).(isObservingBuffering := false), now)
  }

  /** The status callback of `beginObservingPlayerStatus()`. */
  function StatusChangedStep(c: PlayerConfig, s: PlayerState, readyToPlay: bool, likelyToKeepUp: bool,
                             bufferFull: bool, now: Time): PlayerState
  {
    if !readyToPlay then RecoverStep(c, s, now)
    else if s.hasPlayer && (likelyToKeepUp || bufferFull) then PlayStep(c, s, now)
    else BeginObservingBufferingStep(c, s, likelyToKeepUp, bufferFull, now)
  }

  /**
   * `playbackIsStuck()`: nil without a player; stuck only when the item's
   * timebase is stopped strictly inside the playback window.
   */
  function PlaybackIsStuck(c: PlayerConfig, s: PlayerState, timebaseRate: Option<real>, currentItemTime: Time): (r: Option<bool>)
    ensures r.None? <==> !s.hasPlayer
    ensures r == Some(true) <==>
              s.hasPlayer && timebaseRate == Some(0.0)
              && 0 < currentItemTime < ForwardPlaybackEndTime(c)
  {
    if !s.hasPlayer then None
    else if timebaseRate.None? || timebaseRate.value != 0.0 then Some(false)
    else if currentItemTime < ForwardPlaybackEndTime(c) && currentItemTime > Zero then Some(true)
    else Some(false)
  }

  /** `onItemRateChanged(_:)` and the main-queue block it dispatches. */
  function RateChangedStep(c: PlayerConfig, s: PlayerState, changedRate: real, timebaseRate: Option<real>,
                           currentItemTime: Time, bufferEmpty: bool, likelyToKeepUp: bool, bufferFull: bool,
                           now: Time): PlayerState
  {
    if changedRate != 0.0 then s
    else if !(s.isDetectingRecovery && PlaybackIsStuck(c, s, timebaseRate, currentItemTime) == Some(true)) then s
    else if bufferEmpty then BeginObservingBufferingStep(c, s, likelyToKeepUp, bufferFull, now)
    else RecoverStep(c, s, now)
  }

  /** The dispatched work item firing. */
  function PlayWorkFiredStep(c: PlayerConfig, s: PlayerState, now: Time): PlayerState
  {
    if s.playWork.None? then s else PrepareToPlayStep(c, s.(playWork := None), now)
  }

  /** The `volume` setter's `didSet`. */
  function SetVolumeStep(s: PlayerState, volume: real): PlayerState
  {
    s.(volume := volume, events := s.events + (if s.hasPlayer then [PlayerVolumeSet(volume)] else []))
  }

  /** The `isMuted` setter's `didSet`. */
  function SetMutedStep(s: PlayerState, isMuted: bool): PlayerState
  {
    s.(isMuted := isMuted, events := s.events + (if s.hasPlayer then [PlayerMuteSet(isMuted)] else []))
  }

  /** `currentTime`: the player's time within the playback window, nil without a player. */
  function CurrentTime(c: PlayerConfig, s: PlayerState, playerTime: Time): (t: Option<Time>)
    ensures t.None? <==> !s.hasPlayer
    ensures t.Some? ==> c.assetPlaybackStartTime + t.value == playerTime
  {
    if !s.hasPlayer then None else Some(playerTime - c.assetPlaybackStartTime)
  }

  /** `preheat()` is ignored once scheduled; otherwise it preheats a new player. */
  lemma PreheatIgnoredOnceScheduled(c: PlayerConfig, s: PlayerState)
    ensures s.isScheduled ==> PreheatStep(c, s) == s
    ensures !s.isScheduled ==>
              var r := PreheatStep(c, s);
              r.isPreheating && r.hasPlayer
              && r.events == s.events + [AVPlayerCreated(ForwardPlaybackEndTime(c), s.volume, s.isMuted)]
  {
  }

  /** The fields a playback step leaves alone. */
  predicate SameSchedule(r: PlayerState, s: PlayerState)
  {
    r.itemTime == s.itemTime && r.syncTime == s.syncTime && r.isScheduled == s.isScheduled
    && r.isPreheating == s.isPreheating && r.isObservingBuffering == s.isObservingBuffering
    && r.hasDelegate == s.hasDelegate
  }

  lemma PrepareToPlayKeepsSchedule(c: PlayerConfig, s: PlayerState, now: Time)
    ensures SameSchedule(PrepareToPlayStep(c, s, now), s)
    ensures RecoveryNeedsPlayer(s) ==> RecoveryNeedsPlayer(PrepareToPlayStep(c, s, now))
  {
    if s.hasPlayer {
      var r := PlayAtScheduledTimeStep(c, s, now);
      assert SameSchedule(r, s) && r.hasPlayer == s.hasPlayer && r.isDetectingRecovery == s.isDetectingRecovery;
    }
  }

  /** `preparePlayback` never touches the schedule or the preheating flag. */
  lemma PreparePlaybackKeepsSchedule(c: PlayerConfig, s: PlayerState, now: Time)
    ensures SameSchedule(PreparePlaybackStep(c, s, now), s)
    ensures RecoveryNeedsPlayer(s) ==> RecoveryNeedsPlayer(PreparePlaybackStep(c, s, now))
  {
    match Decide(s.syncTime, c.hasSyncClock, c.assetPlaybackDuration, now)
    case PlayWhenReady => PrepareToPlayKeepsSchedule(c, s, now);
    case AlreadyPast =>
    case DispatchAfter(w) => assert PreparePlaybackStep(c, s, now) == DispatchStep(s, w);
    case PrepareNow => PrepareToPlayKeepsSchedule(c, s, now);
  }

  /** `schedule` records the times; while preheating it leaves everything else to the preroll's end. */
  lemma ScheduleStoresTimes(c: PlayerConfig, s: PlayerState, itemTime: Time, syncTime: Option<Time>, now: Time)
    ensures var r := ScheduleStep(c, s, itemTime, syncTime, now);
            r.itemTime == Some(itemTime) && r.syncTime == syncTime && r.isScheduled
    ensures s.isPreheating ==>
              ScheduleStep(c, s, itemTime, syncTime, now)
              == s.(itemTime := Some(itemTime), syncTime := syncTime, isScheduled := true)
  {
    PreparePlaybackKeepsSchedule(c, s.(itemTime := Some(itemTime), syncTime := syncTime, isScheduled := true), now);
  }

  /** Too late for the window: no player is created and nothing is dispatched. */
  lemma PastWindowDoesNothing(c: PlayerConfig, s: PlayerState, now: Time)
    requires c.hasSyncClock && s.syncTime.Some? && now > s.syncTime.value + c.assetPlaybackDuration
    ensures PreparePlaybackStep(c, s, now) == s
  {
  }

  /** A scheduled, existing player starts in step with the schedule whenever it is started. */
  lemma ScheduledPlayKeepsSync(c: PlayerConfig, s: PlayerState, now: Time)
    requires s.hasPlayer && s.itemTime.Some? && s.syncTime.Some? && c.hasSyncClock
    ensures var r := PlayAtScheduledTimeStep(c, s, now);
            var host := Max(s.syncTime.value, now);
            var item := host + c.assetPlaybackStartTime + s.itemTime.value - s.syncTime.value;
            r.shouldBePlaying
            && r.events == s.events + [RateSet(item, host)] + (if s.hasDelegate then [NotifiedStartedPlaying(now)] else [])
  {
    var rate := ScheduledRate(c.assetPlaybackStartTime, s.itemTime.value, s.syncTime.value, now);
    assert rate == (Max(s.syncTime.value, now) + c.assetPlaybackStartTime + s.itemTime.value - s.syncTime.value, Max(s.syncTime.value, now));
  }

  /** After `clear()` there is no player, no pending work and no delegate. */
  lemma ClearLeavesNothingRunning(s: PlayerState)
    requires RecoveryNeedsPlayer(s)
    ensures var r := ClearStep(s);
            !r.hasPlayer && r.playWork.None? && !r.hasDelegate && !r.isDetectingRecovery
  {
  }

  /** The second buffering observer to fire finds the episode over and does nothing. */
  lemma EndBufferingRunsOncePerEpisode(c: PlayerConfig, s: PlayerState, now: Time, later: Time)
    ensures !EndBufferingStep(c, s, now).isObservingBuffering
    ensures EndBufferingStep(c, EndBufferingStep(c, s, now), later) == EndBufferingStep(c, s, now)
  {
    if s.isObservingBuffering {
      PlayKeepsObservingFlag(c, Notify(s, NotifiedBufferingStopped).(isObservingBuffering := false), now);
    }
  }

  lemma PlayKeepsObservingFlag(c: PlayerConfig, s: PlayerState, now: Time)
    ensures PlayStep(c, s, now).isObservingBuffering == s.isObservingBuffering
  {
  }

  /** Scheduling, preheating and the preroll's end keep recovery detection tied to an existing player. */
  lemma ScheduleStepsKeepRecoveryNeedsPlayer(c: PlayerConfig, s: PlayerState, now: Time, itemTime: Time,
                                             syncTime: Option<Time>, finished: bool)
    requires RecoveryNeedsPlayer(s)
    ensures RecoveryNeedsPlayer(PreheatStep(c, s))
    ensures RecoveryNeedsPlayer(ScheduleStep(c, s, itemTime, syncTime, now))
    ensures RecoveryNeedsPlayer(PrerollFinishedStep(c, s, finished, now))
    ensures RecoveryNeedsPlayer(PlayWorkFiredStep(c, s, now))
  {
    PreparePlaybackKeepsSchedule(c, s.(itemTime := Some(itemTime), syncTime := syncTime, isScheduled := true), now);
    PreparePlaybackKeepsSchedule(c, s.(isPreheating := false), now);
    PrepareToPlayKeepsSchedule(c, s.(playWork := None), now);
  }

  /** The player-item callbacks and `clear` keep recovery detection tied to an existing player. */
  lemma CallbackStepsKeepRecoveryNeedsPlayer(c: PlayerConfig, s: PlayerState, now: Time, readyToPlay: bool,
                                             likelyToKeepUp: bool, bufferFull: bool)
    requires RecoveryNeedsPlayer(s)
    ensures RecoveryNeedsPlayer(StatusChangedStep(c, s, readyToPlay, likelyToKeepUp, bufferFull, now))
    ensures RecoveryNeedsPlayer(EndBufferingStep(c, s, now))
    ensures RecoveryNeedsPlayer(ClearStep(s))
  {
    StatusChangedKeepsRecoveryNeedsPlayer(c, s, now, readyToPlay, likelyToKeepUp, bufferFull);
    EndBufferingKeepsRecoveryNeedsPlayer(c, s, now);
  }

  /** The rate callback, which may start buffering observation or recover, and the volume and mute setters keep it too. */
  lemma RateChangedKeepsRecoveryNeedsPlayer(c: PlayerConfig, s: PlayerState, changedRate: real, timebaseRate: Option<real>,
                                            currentItemTime: Time, bufferEmpty: bool, likelyToKeepUp: bool,
                                            bufferFull: bool, now: Time, volume: real, isMuted: bool)
    requires RecoveryNeedsPlayer(s)
    ensures RecoveryNeedsPlayer(RateChangedStep(c, s, changedRate, timebaseRate, currentItemTime, bufferEmpty,
                                                likelyToKeepUp, bufferFull, now))
    ensures RecoveryNeedsPlayer(SetVolumeStep(s, volume))
    ensures RecoveryNeedsPlayer(SetMutedStep(s, isMuted))
  {
    if changedRate == 0.0 && s.isDetectingRecovery && PlaybackIsStuck(c, s, timebaseRate, currentItemTime) == Some(true) {
      if bufferEmpty {
        BeginObservingKeepsRecoveryNeedsPlayer(c, s, likelyToKeepUp, bufferFull, now);
      } else {
        RecoverKeepsRecoveryNeedsPlayer(c, s, now);
      }
    }
  }

  lemma StatusChangedKeepsRecoveryNeedsPlayer(c: PlayerConfig, s: PlayerState, now: Time, readyToPlay: bool,
                                              likelyToKeepUp: bool, bufferFull: bool)
    requires RecoveryNeedsPlayer(s)
    ensures RecoveryNeedsPlayer(StatusChangedStep(c, s, readyToPlay, likelyToKeepUp, bufferFull, now))
  {
    if !readyToPlay {
      RecoverKeepsRecoveryNeedsPlayer(c, s, now);
    } else if s.hasPlayer && (likelyToKeepUp || bufferFull) {
      PlayKeepsRecoveryNeedsPlayer(c, s, now);
    } else {
      BeginObservingKeepsRecoveryNeedsPlayer(c, s, likelyToKeepUp, bufferFull, now);
    }
  }

  lemma EndBufferingKeepsRecoveryNeedsPlayer(c: PlayerConfig, s: PlayerState, now: Time)
    requires RecoveryNeedsPlayer(s)
    ensures RecoveryNeedsPlayer(EndBufferingStep(c, s, now))
  {
    if s.isObservingBuffering {
      PlayKeepsRecoveryNeedsPlayer(c, Notify(s, NotifiedBufferingStopped).(isObservingBuffering := false), now);
    }
  }

  lemma RecoverKeepsRecoveryNeedsPlayer(c: PlayerConfig, s: PlayerState, now: Time)
    requires RecoveryNeedsPlayer(s)
    ensures RecoveryNeedsPlayer(RecoverStep(c, s, now))
  {
    PreparePlaybackKeepsSchedule(c, ClearInternalStep(s), now);
  }

  lemma BeginObservingKeepsRecoveryNeedsPlayer(c: PlayerConfig, s: PlayerState, likelyToKeepUp: bool, bufferFull: bool,
                                               now: Time)
    requires RecoveryNeedsPlayer(s)
    ensures RecoveryNeedsPlayer(BeginObservingBufferingStep(c, s, likelyToKeepUp, bufferFull, now))
  {
    var observing := Notify(s, NotifiedBufferingStarted).(isObservingBuffering := true);
    if !(observing.hasPlayer && !likelyToKeepUp && !bufferFull) {
      PlayKeepsRecoveryNeedsPlayer(c, observing, now);
    }
  }

  lemma PlayKeepsRecoveryNeedsPlayer(c: PlayerConfig, s: PlayerState, now: Time)
    requires RecoveryNeedsPlayer(s)
    ensures RecoveryNeedsPlayer(PlayStep(c, s, now))
  {
    if !s.isPreheating && s.isScheduled {
      var r := PlayAtScheduledTimeStep(c, s, now);
      assert r.hasPlayer == s.hasPlayer && r.isDetectingRecovery == s.isDetectingRecovery;
    }
  }

  class HotPlayer {
    const assetPlaybackStartTime: Time
    const assetPlaybackDuration: Time
    const hasSyncClock: bool
    var itemTime: Option<Time>
    var syncTime: Option<Time>
    var hasPlayer: bool
    var isDetectingRecovery: bool
    var isObservingBuffering: bool
    var isPreheating: bool
    var isScheduled: bool
    var shouldBePlaying: bool
    var playWork: Option<Time>
    var hasDelegate: bool
    var volume: real
    var isMuted: bool
    var events: seq<PlayerEvent>

    constructor (assetPlaybackStartTime: Time, assetPlaybackDuration: Time, hasSyncClock: bool,
                 volume: real, isMuted: bool, hasDelegate: bool)
      ensures Config() == PlayerConfig(assetPlaybackStartTime, assetPlaybackDuration, hasSyncClock)
      ensures View() == PlayerState(None, None, false, false, false, false, false, false, None,
                                    hasDelegate, volume, isMuted, [])
    {
      this.assetPlaybackStartTime := assetPlaybackStartTime;
      this.assetPlaybackDuration := assetPlaybackDuration;
      this.hasSyncClock := hasSyncClock;
      itemTime := None;
      syncTime := None;
      hasPlayer := false;
      isDetectingRecovery := false;
      isObservingBuffering := false;
      isPreheating := false;
      isScheduled := false;
      shouldBePlaying := false;
      playWork := None;
      this.hasDelegate := hasDelegate;
      this.volume := volume;
      this.isMuted := isMuted;
      events := [];
    }

    function Config(): PlayerConfig
    {
      PlayerConfig(assetPlaybackStartTime, assetPlaybackDuration, hasSyncClock)
    }

    function View(): PlayerState
      reads this
    {
      PlayerState(itemTime, syncTime, hasPlayer, isDetectingRecovery, isObservingBuffering, isPreheating,
                  isScheduled, shouldBePlaying, playWork, hasDelegate, volume, isMuted, events)
    }

    method SetVolume(volume: real)
      modifies this
      ensures View() == SetVolumeStep(old(View()), volume)
    {
      this.volume := volume;
      if hasPlayer {
        events := events + [PlayerVolumeSet(volume)];
      }
    }

    method SetMuted(isMuted: bool)
      modifies this
      ensures View() == SetMutedStep(old(View()), isMuted)
    {
      this.isMuted := isMuted;
      if hasPlayer {
        events := events + [PlayerMuteSet(isMuted)];
      }
    }

    /** `currentTime`, read at the player's time `playerTime`. */
    method GetCurrentTime(playerTime: Time) returns (t: Option<Time>)
      ensures t == CurrentTime(Config(), View(), playerTime)
      ensures t.None? <==> !hasPlayer
    {
      if !hasPlayer {
        return None;
      }
      t := Some(playerTime - assetPlaybackStartTime);
    }

    method CreatePlayer()
      modifies this
      ensures View() == CreatePlayerStep(Config(), old(View()))
    {
      events := events + [AVPlayerCreated(assetPlaybackStartTime + assetPlaybackDuration, volume, isMuted)];
      hasPlayer := true;
      if !isDetectingRecovery {
        isDetectingRecovery := true;
      }
    }

    method Preheat()
      modifies this
      ensures View() == PreheatStep(Config(), old(View()))
    {
      if isScheduled {
        return;
      }
      isPreheating := true;
      CreatePlayer();
    }

    method Schedule(itemTime: Time, syncTime: Option<Time>, now: Time)
      modifies this
      ensures View() == ScheduleStep(Config(), old(View()), itemTime, syncTime, now)
    {
      this.itemTime := Some(itemTime);
      this.syncTime := syncTime;
      isScheduled := true;
      if isPreheating {
        return;
      }
      PreparePlayback(now);
    }

    method PrerollPlayer()
      modifies this
      ensures View() == PrerollStep(old(View()))
    {
      if !hasPlayer {
        return;
      }
      events := events + [PrerollRequested];
    }

    /** The preroll's completion handler. */
    method PrerollFinished(finished: bool, now: Time)
      modifies this
      ensures View() == PrerollFinishedStep(Config(), old(View()), finished, now)
    {
      if !finished {
        return;
      }
      isPreheating := false;
      if itemTime.Some? {
        PreparePlayback(now);
        return;
      }
      if hasDelegate {
        events := events + [NotifiedPreheated];
      }
    }

    method PreparePlayback(now: Time)
      modifies this
      ensures View() == PreparePlaybackStep(Config(), old(View()), now)
    {
      if syncTime.None? || !hasSyncClock {
        PrepareToPlay(now);
        return;
      }
      var endTime := syncTime.value + assetPlaybackDuration;
      if Compare(now, endTime) > 0 {
        return;
      }
      var remainingTime := syncTime.value - now;
      var dispatchWaitTime := remainingTime - PrerollBuffer;
      if Compare(dispatchWaitTime, Zero) > 0 {
        DispatchPlayWork(dispatchWaitTime);
        return;
      }
      PrepareToPlay(now);
    }

    method DispatchPlayWork(waitTime: Time)
      modifies this
      ensures View() == DispatchStep(old(View()), waitTime)
    {
      playWork := Some(waitTime);
      events := events + [PlayWorkDispatched(waitTime)];
    }

    /** The dispatched work item running after its wait. */
    method PlayWorkFired(now: Time)
      modifies this
      ensures View() == PlayWorkFiredStep(Config(), old(View()), now)
    {
      if playWork.None? {
        return;
      }
      playWork := None;
      PrepareToPlay(now);
    }

    method PrepareToPlay(now: Time)
      modifies this
      ensures View() == PrepareToPlayStep(Config(), old(View()), now)
    {
      if hasPlayer {
        PlayAtScheduledTime(now);
        return;
      }
      CreatePlayer();
    }

    method PlayAtScheduledTime(now: Time)
      modifies this
      ensures View() == PlayAtScheduledTimeStep(Config(), old(View()), now)
    {
      if !hasPlayer {
        return;
      }
      if itemTime.None? || syncTime.None? || !hasSyncClock {
        events := events + [PlainPlay];
        return;
      }
      var relativeItemTime := assetPlaybackStartTime + itemTime.value;
      var hostTime := syncTime.value;
      if Compare(now, syncTime.value) > 0 {
        var elapsedTime := now - syncTime.value;
        relativeItemTime := elapsedTime + relativeItemTime;
        hostTime := now;
      }
      events := events + [RateSet(relativeItemTime, hostTime)];
      if hasDelegate {
        events := events + [NotifiedStartedPlaying(now)];
      }
      shouldBePlaying := true;
    }

    method Play(now: Time)
      modifies this
      ensures View() == PlayStep(Config(), old(View()), now)
    {
      if isPreheating {
        PrerollPlayer();
        return;
      } else if isScheduled {
        PlayAtScheduledTime(now);
        return;
      }
    }

    method Clear()
      modifies this
      ensures View() == ClearStep(old(View()))
    {
      ClearInternalState();
      hasDelegate := false;
    }

    method ClearInternalState()
      modifies this
      ensures View() == ClearInternalStep(old(View()))
    {
      if isDetectingRecovery && hasPlayer {
        isDetectingRecovery := false;
      }
      playWork := None;
      if hasPlayer {
        events := events + [AVPlayerPaused];
      }
      hasPlayer := false;
    }

    method EndBufferingObservationAndRestartPlayback(now: Time)
      modifies this
      ensures View() == EndBufferingStep(Config(), old(View()), now)
    {
      if !isObservingBuffering {
        return;
      }
      if hasDelegate {
        events := events + [NotifiedBufferingStopped];
      }
      isObservingBuffering := false;
      Play(now);
    }

    /** `onItemRateChanged(_:)`, with the readings of the item it makes. */
    method OnItemRateChanged(changedRate: real, timebaseRate: Option<real>, currentItemTime: Time,
                             bufferEmpty: bool, likelyToKeepUp: bool, bufferFull: bool, now: Time)
      modifies this
      ensures View() == RateChangedStep(Config(), old(View()), changedRate, timebaseRate, currentItemTime,
                                        bufferEmpty, likelyToKeepUp, bufferFull, now)
    {
      if changedRate != 0.0 {
        return;
      }
      var stuck := PlaybackIsStuck(Config(), View(), timebaseRate, currentItemTime);
      if !(isDetectingRecovery && stuck == Some(true)) {
        return;
      }
      if bufferEmpty {
        BeginObservingBuffering(likelyToKeepUp, bufferFull, now);
        return;
      }
      Recover(now);
    }

    method Recover(now: Time)
      modifies this
      ensures View() == RecoverStep(Config(), old(View()), now)
    {
      ClearInternalState();
      PreparePlayback(now);
    }

    /** The status callback registered by `beginObservingPlayerStatus()`. */
    method PlayerStatusChanged(readyToPlay: bool, likelyToKeepUp: bool, bufferFull: bool, now: Time)
      modifies this
      ensures View() == StatusChangedStep(Config(), old(View()), readyToPlay, likelyToKeepUp, bufferFull, now)
    {
      if !readyToPlay {
        Recover(now);
        return;
      }
      if hasPlayer && (likelyToKeepUp || bufferFull) {
        Play(now);
      } else {
        BeginObservingBuffering(likelyToKeepUp, bufferFull, now);
      }
    }

    method BeginObservingBuffering(likelyToKeepUp: bool, bufferFull: bool, now: Time)
      modifies this
      ensures View() == BeginObservingBufferingStep(Config(), old(View()), likelyToKeepUp, bufferFull, now)
    {
      if hasDelegate {
        events := events + [NotifiedBufferingStarted];
      }
      isObservingBuffering := true;
      if !(hasPlayer && !likelyToKeepUp && !bufferFull) {
        Play(now);
        return;
      }
      events := events + [BufferObservationStarted];
    }
  }
}
