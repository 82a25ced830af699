/**
 * The clock that keeps every looper of a collab in step: loop start times,
 * the loop count, playback time as elapsed time modulo the loop duration,
 * and the list of attached loopers
 * (OpenCollab/Sources/VideoPlayback/HotLooper.swift).
 *
 * The host clock is the parameter `now`. Loopers are known by their ids;
 * what the hot looper asks of them and tells its delegate is recorded as
 * `LoopEvent`s in order. The loop timer is `loopTimerInterval`: the
 * interval it was last scheduled with, `None` once cancelled; its firing
 * is a call of `TriggerLoop`.
 */
module HotLooperModel {
  import opened Wrappers
  import opened Collections
  import opened Extensions

  type LooperId = string

  /** `Constants.loopBuffer`: 3/300 s, that is 6 ticks at timescale 600. */
  const LoopBuffer: Time := 6

  datatype LoopEvent =
    | Looped(atTime: Time, loopCount: int)
    | PlaybackStarted
    | BufferingStarted
    | BufferingStopped
    | LooperPreheat(id: LooperId)
    | LooperPlay(id: LooperId, itemTime: Time, syncTime: Time)
    | LooperLoop(id: LooperId, loopTime: Time, loopDuration: Time)
    | LooperClear(id: LooperId)
    | LooperDelegateSet(id: LooperId)
    | LooperDelegateUnset(id: LooperId)

  /**
   * `calculatePlaybackTime(currentTime:)`: zero before the loop has started,
   * otherwise the time since the loop start modulo the duration.
   */
  function PlaybackTime(duration: Time, loopStartTime: Option<Time>, currentTime: Time): (p: Time)
    requires duration != 0
  {
    match loopStartTime
    case None => 0
    case Some(startTime) => TruncatingRemainder(currentTime - startTime, duration)
  }

  /** Within a started loop, playback time lies in `[0, duration)` once the loop has begun. */
  lemma PlaybackTimeInLoop(duration: Time, startTime: Time, currentTime: Time)
    requires duration > 0 && currentTime >= startTime
    ensures 0 <= PlaybackTime(duration, Some(startTime), currentTime) < duration
    ensures currentTime - startTime < duration ==> PlaybackTime(duration, Some(startTime), currentTime) == currentTime - startTime
  {
    var e := currentTime - startTime;
    if e < duration {
      ModUnique(e, duration, 0, e);
    }
  }

  /** One loop later, playback is back at the same point. */
  lemma PlaybackTimeIsPeriodic(duration: Time, startTime: Time, currentTime: Time)
    requires duration > 0 && currentTime >= startTime
    ensures PlaybackTime(duration, Some(startTime), currentTime + duration)
              == PlaybackTime(duration, Some(startTime), currentTime)
  {
    var e := currentTime - startTime;
    var q := e / duration;
    var r := e % duration;
    assert e == q * duration + r;
    assert e + duration == (q + 1) * duration + r;
    ModUnique(e + duration, duration, q + 1, r);
  }

  /** `calculateStartTime(playbackTime:atTime:)`. */
  function StartTimeFor(playbackTime: Time, atTime: Time): (s: Time)
    ensures s + playbackTime == atTime
  {
    atTime - playbackTime
  }

  /**
   * A loop started at `StartTimeFor(playbackTime, atTime)` is at
   * `playbackTime` (modulo the duration) at `atTime`.
   */
  lemma StartTimeRestoresPlaybackTime(duration: Time, playbackTime: Time, atTime: Time)
    requires duration != 0
    ensures PlaybackTime(duration, Some(StartTimeFor(playbackTime, atTime)), atTime)
              == TruncatingRemainder(playbackTime, duration)
    ensures 0 <= playbackTime < duration ==>
              PlaybackTime(duration, Some(StartTimeFor(playbackTime, atTime)), atTime) == playbackTime
  {
    if 0 <= playbackTime < duration {
      ModUnique(playbackTime, duration, 0, playbackTime);
    }
  }

  /** `calculateRemainingInterval(intervalStartTime:atTime:)`: what is left of the loop begun at the interval start. */
  function RemainingInterval(duration: Time, intervalStartTime: Time, atTime: Time): (r: Time)
    ensures intervalStartTime + duration == atTime + r
  {
    duration - (atTime - intervalStartTime)
  }

  /** The per-looper calls of `resetToPlaybackTime`: clear, then play. */
  function ClearAndPlayEach(ids: seq<LooperId>, itemTime: Time, syncTime: Time): (r: seq<LoopEvent>)
    ensures |r| == 2 * |ids|
    ensures forall k :: 0 <= k < |ids| ==>
              r[2 * k] == LooperClear(ids[k]) && r[2 * k + 1] == LooperPlay(ids[k], itemTime, syncTime)
  {
    if |ids| == 0 then [] else
    ClearAndPlayEach(ids[..|ids| - 1], itemTime, syncTime)
      + [LooperClear(ids[|ids| - 1]), LooperPlay(ids[|ids| - 1], itemTime, syncTime)]
  }

  /** `syncToLoop` for every looper: play at the same item and sync time. */
  function PlayEach(ids: seq<LooperId>, itemTime: Time, syncTime: Time): (r: seq<LoopEvent>)
    ensures |r| == |ids|
    ensures forall k :: 0 <= k < |ids| ==> r[k] == LooperPlay(ids[k], itemTime, syncTime)
  {
    if |ids| == 0 then [] else PlayEach(ids[..|ids| - 1], itemTime, syncTime) + [LooperPlay(ids[|ids| - 1], itemTime, syncTime)]
  }

  /** The per-looper calls of `triggerLoop`. */
  function LoopEach(ids: seq<LooperId>, loopTime: Time, loopDuration: Time): (r: seq<LoopEvent>)
    ensures |r| == |ids|
    ensures forall k :: 0 <= k < |ids| ==> r[k] == LooperLoop(ids[k], loopTime, loopDuration)
  {
    if |ids| == 0 then [] else LoopEach(ids[..|ids| - 1], loopTime, loopDuration) + [LooperLoop(ids[|ids| - 1], loopTime, loopDuration)]
  }

  /** `detach(looper:)` for every looper: clear it and drop it as delegate. */
  function DetachEach(ids: seq<LooperId>): (r: seq<LoopEvent>)
    ensures |r| == 2 * |ids|
  {
    if |ids| == 0 then [] else DetachEach(ids[..|ids| - 1]) + [LooperClear(ids[|ids| - 1]), LooperDelegateUnset(ids[|ids| - 1])]
  }

  /** Detaching is, looper by looper in list order, a clear followed by dropping the delegate. */
  lemma {:induction false} DetachEachCalls(ids: seq<LooperId>)
    ensures forall k :: 0 <= k < |ids| ==>
              DetachEach(ids)[2 * k] == LooperClear(ids[k]) && DetachEach(ids)[2 * k + 1] == LooperDelegateUnset(ids[k])
    decreases |ids|
  {
    if |ids| > 0 {
      var init := ids[..|ids| - 1];
      DetachEachCalls(init);
      forall k | 0 <= k < |ids|
        ensures DetachEach(ids)[2 * k] == LooperClear(ids[k]) && DetachEach(ids)[2 * k + 1] == LooperDelegateUnset(ids[k])
      {
        if k < |init| {
          assert ids[k] == init[k];
        }
      }
    }
  }

  /** `removeFromLoopers(looper:)`: drops the first looper with the id, if any. */
  function RemoveFirst(s: seq<LooperId>, id: LooperId): (r: seq<LooperId>)
    ensures id !in s ==> r == s
    ensures id in s ==> exists i :: 0 <= i < |s| && s[i] == id && (forall j :: 0 <= j < i ==> s[j] != id)
                                   && r == s[..i] + s[i + 1..]
  {
    match FirstIndex(s, id)
    case None => s
    case Some(i) => s[..i] + s[i + 1..]
  }

  /** Removing a looper takes exactly one occurrence of its id out of the list. */
  lemma RemoveFirstTakesOneOccurrence(s: seq<LooperId>, id: LooperId)
    requires id in s
    ensures multiset(RemoveFirst(s, id)) == multiset(s) - multiset{id}
  {
    var i := FirstIndex(s, id).value;
    assert s == s[..i] + [s[i]] + s[i + 1..];
    assert RemoveFirst(s, id) == s[..i] + s[i + 1..];
  }

  /** Without duplicates, the removed id is gone altogether. */
  lemma RemoveFirstOfDistinct(s: seq<LooperId>, id: LooperId)
    requires Distinct(s)
    ensures Distinct(RemoveFirst(s, id)) && id !in RemoveFirst(s, id)
  {
    if id in s {
      var i := FirstIndex(s, id).value;
      var r := s[..i] + s[i + 1..];
      assert RemoveFirst(s, id) == r;
      assert forall k :: 0 <= k < |r| ==> r[k] == (if k < i then s[k] else s[k + 1]);
    }
  }

  /** The state `attach(looper:)` works on. */
  datatype AttachState = AttachState(loopers: seq<LooperId>, loopersToRecover: Option<seq<LooperId>>,
                                     lastObservedPlaybackTime: Option<Time>, events: seq<LoopEvent>)

  /**
   * `attach(looper:)`: while the app is active, `activelyAttach` adds a
   * looper it does not have yet and either preheats it (loop not started)
   * or syncs it to the loop; in the background the looper waits in
   * `loopersToRecover`, with playback to resume from zero if nothing was
   * observed.
   */
  function Attached(st: AttachState, id: LooperId, duration: Time, loopStartTime: Option<Time>,
                    now: Time, active: bool): (r: AttachState)
    requires duration != 0
    ensures active ==> r.loopersToRecover == st.loopersToRecover
                       && r.lastObservedPlaybackTime == st.lastObservedPlaybackTime
    ensures active && id in st.loopers ==> r == st
    ensures active && id !in st.loopers ==>
              r.loopers == st.loopers + [id]
              && r.events == st.events + [LooperDelegateSet(id)]
                             + (if loopStartTime.None? then [LooperPreheat(id)]
                                else [LooperPlay(id, PlaybackTime(duration, loopStartTime, now), now)])
    ensures !active ==>
              r.loopers == st.loopers && r.events == st.events
              && r.loopersToRecover == Some(st.loopersToRecover.GetOr([]) + [id])
              && r.lastObservedPlaybackTime == Some(st.lastObservedPlaybackTime.GetOr(0))
    ensures Distinct(st.loopers) ==> Distinct(r.loopers)
  {
    if active then
      if id in st.loopers then st
      else
        var call := if loopStartTime.None? then LooperPreheat(id)
                    else LooperPlay(id, PlaybackTime(duration, loopStartTime, now), now);
        st.(loopers := st.loopers + [id], events := st.events + [LooperDelegateSet(id), call])
    else
      st.(loopersToRecover := Some(st.loopersToRecover.GetOr([]) + [id]),
          lastObservedPlaybackTime := Some(st.lastObservedPlaybackTime.GetOr(Zero)))
  }

  /** `attach(looper:)` for each looper in turn. */
  function AttachedAll(st: AttachState, ids: seq<LooperId>, duration: Time, loopStartTime: Option<Time>,
                       now: Time, active: bool): (r: AttachState)
    requires duration != 0
    decreases |ids|
  {
    if |ids| == 0 then st
    else Attached(AttachedAll(st, ids[..|ids| - 1], duration, loopStartTime, now, active),
                  ids[|ids| - 1], duration, loopStartTime, now, active)
  }

  /** However many loopers are attached, none is attached twice, and while active every one of them ends up attached. */
  lemma {:induction false} AttachedAllKeepsLoopersDistinct(st: AttachState, ids: seq<LooperId>, duration: Time,
                                                           loopStartTime: Option<Time>, now: Time, active: bool)
    requires duration != 0
    requires Distinct(st.loopers)
    ensures Distinct(AttachedAll(st, ids, duration, loopStartTime, now, active).loopers)
    ensures active ==> forall id :: id in ids ==> id in AttachedAll(st, ids, duration, loopStartTime, now, active).loopers
    ensures forall id :: id in st.loopers ==> id in AttachedAll(st, ids, duration, loopStartTime, now, active).loopers
    decreases |ids|
  {
    if |ids| > 0 {
      var prefix := ids[..|ids| - 1];
      AttachedAllKeepsLoopersDistinct(st, prefix, duration, loopStartTime, now, active);
      var mid := AttachedAll(st, prefix, duration, loopStartTime, now, active);
      assert forall id :: id in ids ==> id in prefix || id == ids[|ids| - 1];
      assert forall id :: id in mid.loopers ==>
               id in Attached(mid, ids[|ids| - 1], duration, loopStartTime, now, active).loopers;
    }
  }

  /** One step of detaching every looper: the list loses exactly the looper detached. */
  lemma DetachStep(loopers: seq<LooperId>, attached: seq<LooperId>, i: nat)
    requires i < |attached| && multiset(loopers) == multiset(attached[i..])
    ensures multiset(RemoveFirst(loopers, attached[i])) == multiset(attached[i + 1..])
  {
    assert attached[i..] == [attached[i]] + attached[i + 1..];
    assert attached[i] in multiset(loopers);
    RemoveFirstTakesOneOccurrence(loopers, attached[i]);
  }

  lemma DetachEachStep(attached: seq<LooperId>, i: nat)
    requires i < |attached|
    ensures DetachEach(attached[..i + 1]) == DetachEach(attached[..i]) + [LooperClear(attached[i]), LooperDelegateUnset(attached[i])]
  {
    assert attached[..i + 1][..i] == attached[..i];
  }

  class HotLooper {
    const duration: Time
    /** The loop start times in the order they were set. */
    var loopTimes: seq<Time>
    var lastObservedPlaybackTime: Option<Time>
    var scheduledPlaybackTime: Option<Time>
    var pausedLoopers: Option<seq<LooperId>>
    var loopersToRecover: Option<seq<LooperId>>
    var loopStartTime: Option<Time>
    var loopTimerInterval: Option<Time>
    var loopers: seq<LooperId>
    var bufferingLooperCount: int
    var events: seq<LoopEvent>

    constructor (duration: Time)
      ensures this.duration == duration
      ensures loopTimes == [] && lastObservedPlaybackTime == None && scheduledPlaybackTime == None
      ensures pausedLoopers == None && loopersToRecover == None && loopStartTime == None
      ensures loopTimerInterval == None && loopers == [] && bufferingLooperCount == 0 && events == []
    {
      this.duration := duration;
      loopTimes := [];
      lastObservedPlaybackTime := None;
      scheduledPlaybackTime := None;
      pausedLoopers := None;
      loopersToRecover := None;
      loopStartTime := None;
      loopTimerInterval := None;
      loopers := [];
      bufferingLooperCount := 0;
      events := [];
    }

    /** `loopCount`: the loops completed since the first start time. */
    function LoopCount(): (n: nat)
      reads this
      ensures |loopTimes| > 0 ==> n + 1 == |loopTimes|
      ensures |loopTimes| == 0 ==> n == 0
    {
      if |loopTimes| == 0 then 0 else |loopTimes| - 1
    }

    /** Every loop time so far lies a whole number of loops after the first. */
    predicate LoopTimesAreRegular()
      reads this
    {
      forall k :: 0 <= k < |loopTimes| ==> loopTimes[k] == loopTimes[0] + k * duration
    }

    function AttachView(): AttachState
      reads this
    {
      AttachState(loopers, loopersToRecover, lastObservedPlaybackTime, events)
    }

    /**
     * The `loopStartTime` setter: a start time is appended to the loop
     * times and reported with the new loop count; clearing it does neither.
     */
    method SetLoopStartTime(startTime: Option<Time>)
      modifies this`loopStartTime, this`loopTimes, this`events
      ensures loopStartTime == startTime
      ensures startTime.None? ==> loopTimes == old(loopTimes) && events == old(events)
      ensures startTime.Some? ==>
                loopTimes == old(loopTimes) + [startTime.value]
                && events == old(events) + [Looped(startTime.value, |old(loopTimes)|)]
    {
      loopStartTime := startTime;
      if startTime.None? {
        return;
      }
      loopTimes := loopTimes + [startTime.value];
      events := events + [Looped(startTime.value, LoopCount())];
    }

    /** `algorithmicCurrentTimeAtLoop()`: the first start time plus one duration per loop time so far. */
    method AlgorithmicCurrentTimeAtLoop() returns (loopTime: Option<Time>)
      ensures |loopTimes| == 0 <==> loopTime.None?
      ensures loopTime.Some? ==> loopTime.value == loopTimes[0] + |loopTimes| * duration
      ensures loopTime.Some? && LoopTimesAreRegular() ==>
                loopTime.value == loopTimes[|loopTimes| - 1] + duration
    {
      if |loopTimes| == 0 {
        return None;
      }
      loopTime := Some(loopTimes[0] + duration * |loopTimes|);
    }

    /** `currentPlaybackTime()`: none before the loop starts. */
    method CurrentPlaybackTime(now: Time) returns (playbackTime: Option<Time>)
      requires duration != 0
      ensures loopStartTime.None? <==> playbackTime.None?
      ensures playbackTime.Some? ==> playbackTime.value == PlaybackTime(duration, loopStartTime, now)
      ensures playbackTime.Some? && duration > 0 && now >= loopStartTime.value ==> 0 <= playbackTime.value < duration
    {
      if loopStartTime.None? {
        return None;
      }
      playbackTime := Some(PlaybackTime(duration, loopStartTime, now));
    }

    /**
     * `dispatchLoopEvent(loopStartTime:atTime:)`: the start time is set and
     * the loop timer scheduled for what is left of the loop, less the loop
     * buffer.
     */
    method DispatchLoopEvent(startTime: Time, atTime: Time)
      modifies this`loopStartTime, this`loopTimes, this`events, this`loopTimerInterval
      ensures loopStartTime == Some(startTime)
      ensures loopTimes == old(loopTimes) + [startTime]
      ensures events == old(events) + [Looped(startTime, |old(loopTimes)|)]
      ensures loopTimerInterval == Some(RemainingInterval(duration, startTime, atTime) - LoopBuffer)
    {
      SetLoopStartTime(Some(startTime));
      var loopInterval := RemainingInterval(duration, startTime, atTime);
      loopTimerInterval := Some(loopInterval - LoopBuffer);
    }

    /**
     * `triggerLoop()`: every looper loops at the algorithmic loop time, which
     * becomes the next start time, and the timer is set one duration (less
     * the buffer) ahead. Regular loop times stay regular.
     */
    method TriggerLoop()
      modifies this`loopStartTime, this`loopTimes, this`events, this`loopTimerInterval
      ensures old(|loopTimes|) == 0 ==>
                loopTimes == old(loopTimes) && events == old(events) && loopStartTime == old(loopStartTime)
                && loopTimerInterval == old(loopTimerInterval)
      ensures old(|loopTimes|) > 0 ==>
                var loopTime := old(loopTimes[0]) + old(|loopTimes|) * duration;
                && loopTimes == old(loopTimes) + [loopTime]
                && loopStartTime == Some(loopTime)
                && events == old(events) + LoopEach(loopers, loopTime, duration) + [Looped(loopTime, old(|loopTimes|))]
                && loopTimerInterval == Some(duration - LoopBuffer)
      ensures old(LoopTimesAreRegular()) ==> LoopTimesAreRegular()
    {
      var algorithmicCurrentTime := AlgorithmicCurrentTimeAtLoop();
      if algorithmicCurrentTime.None? {
        return;
      }
      var loopTime := algorithmicCurrentTime.value;
      var calls: seq<LoopEvent> := [];
      var i := 0;
      while i < |loopers|
        invariant 0 <= i <= |loopers|
        invariant calls == LoopEach(loopers[..i], loopTime, duration)
      {
        assert loopers[..i + 1][..i] == loopers[..i];
        calls := calls + [LooperLoop(loopers[i], loopTime, duration)];
        i := i + 1;
      }
      assert loopers[..i] == loopers;
      events := events + calls;
      DispatchLoopEvent(loopTime, loopTime);
    }

    /** `resetToPlaybackTime(playbackTime:atTime:)`: the loop restarts so that `atTime` is at `playbackTime`. */
    method ResetToPlaybackTime(playbackTime: Time, atTime: Time)
      modifies this`loopStartTime, this`loopTimes, this`events, this`loopTimerInterval
      ensures loopTimes == [StartTimeFor(playbackTime, atTime)]
      ensures loopStartTime == Some(StartTimeFor(playbackTime, atTime))
      ensures events == old(events) + [Looped(StartTimeFor(playbackTime, atTime), 0)]
                        + ClearAndPlayEach(loopers, playbackTime, atTime) + [PlaybackStarted]
      ensures loopTimerInterval == Some(RemainingInterval(duration, StartTimeFor(playbackTime, atTime), atTime) - LoopBuffer)
      ensures LoopTimesAreRegular() && LoopCount() == 0
    {
      SetLoopStartTime(None);
      loopTimes := [];
      var newStartTime := StartTimeFor(playbackTime, atTime);
      DispatchLoopEvent(newStartTime, atTime);
      var calls: seq<LoopEvent> := [];
      var i := 0;
      while i < |loopers|
        invariant 0 <= i <= |loopers|
        invariant calls == ClearAndPlayEach(loopers[..i], playbackTime, atTime)
      {
        assert loopers[..i + 1][..i] == loopers[..i];
        calls := calls + [LooperClear(loopers[i]), LooperPlay(loopers[i], playbackTime, atTime)];
        i := i + 1;
      }
      assert loopers[..i] == loopers;
      events := events + calls + [PlaybackStarted];
    }

    /** `attach(looper:)`, with `active` the application state. */
    method Attach(looper: LooperId, now: Time, active: bool)
      requires duration != 0
      modifies this`loopers, this`loopersToRecover, this`lastObservedPlaybackTime, this`events
      ensures AttachView() == Attached(old(AttachView()), looper, duration, loopStartTime, now, active)
    {
      if active {
        if looper in loopers {
          return;
        }
        loopers := loopers + [looper];
        events := events + [LooperDelegateSet(looper)];
        if loopStartTime.None? {
          events := events + [LooperPreheat(looper)];
        } else {
          var playbackTime := PlaybackTime(duration, loopStartTime, now);
          events := events + [LooperPlay(looper, playbackTime, now)];
        }
      } else {
        if loopersToRecover.None? {
          assert [] + [looper] == [looper];
          loopersToRecover := Some([looper]);
        } else {
          loopersToRecover := Some(loopersToRecover.value + [looper]);
        }
        if lastObservedPlaybackTime.None? {
          lastObservedPlaybackTime := Some(Zero);
        }
      }
    }

    method AttachAll(ids: seq<LooperId>, now: Time, active: bool)
      requires duration != 0
      modifies this`loopers, this`loopersToRecover, this`lastObservedPlaybackTime, this`events
      ensures AttachView() == AttachedAll(old(AttachView()), ids, duration, loopStartTime, now, active)
    {
      var i := 0;
      while i < |ids|
        invariant 0 <= i <= |ids|
        invariant AttachView() == AttachedAll(old(AttachView()), ids[..i], duration, loopStartTime, now, active)
      {
        assert ids[..i + 1][..i] == ids[..i];
        Attach(ids[i], now, active);
        i := i + 1;
      }
      assert ids[..i] == ids;
    }

    /** `detach(looper:)`: the looper is cleared, dropped from the list and no longer reports here. */
    method Detach(looper: LooperId)
      modifies this`loopers, this`events
      ensures loopers == RemoveFirst(old(loopers), looper)
      ensures events == old(events) + [LooperClear(looper), LooperDelegateUnset(looper)]
    {
      events := events + [LooperClear(looper)];
      loopers := RemoveFirst(loopers, looper);
      events := events + [LooperDelegateUnset(looper)];
    }

    /** `clearPlaybackState()`: no start time, no loop times, no loop timer. */
    method ClearPlaybackState()
      modifies this`loopStartTime, this`loopTimes, this`loopTimerInterval
      ensures loopStartTime == None && loopTimes == [] && loopTimerInterval == None
    {
      loopStartTime := None;
      loopTimes := [];
      loopTimerInterval := None;
    }

    /** `clearLoopersAndPlaybackState()`: every looper that was attached is detached, so none is left. */
    method ClearLoopersAndPlaybackState()
      modifies this`loopStartTime, this`loopTimes, this`loopTimerInterval, this`loopers, this`events
      ensures loopStartTime == None && loopTimes == [] && loopTimerInterval == None
      ensures loopers == []
      ensures events == old(events) + DetachEach(old(loopers))
    {
      ClearPlaybackState();
      var attached := loopers;
      var i := 0;
      while i < |attached|
        invariant 0 <= i <= |attached|
        invariant multiset(loopers) == multiset(attached[i..])
        invariant events == old(events) + DetachEach(attached[..i])
        invariant loopStartTime == None && loopTimes == [] && loopTimerInterval == None
      {
        DetachStep(loopers, attached, i);
        DetachEachStep(attached, i);
        Detach(attached[i]);
        i := i + 1;
      }
      assert attached[..i] == attached;
      assert |multiset(loopers)| == 0;
    }

    /** `clear()`: detach everything and forget the loopers waiting for the foreground. */
    method Clear()
      modifies this`loopStartTime, this`loopTimes, this`loopTimerInterval, this`loopers, this`events,
               this`loopersToRecover
      ensures loopStartTime == None && loopTimes == [] && loopTimerInterval == None
      ensures loopers == [] && loopersToRecover == None
      ensures events == old(events) + DetachEach(old(loopers))
    {
      ClearLoopersAndPlaybackState();
      loopersToRecover := None;
    }

    /** `pause()`: remembers where playback was and which loopers played, then detaches them. */
    method Pause(now: Time)
      requires duration != 0
      modifies this`loopStartTime, this`loopTimes, this`loopTimerInterval, this`loopers, this`events,
               this`lastObservedPlaybackTime, this`pausedLoopers
      ensures lastObservedPlaybackTime == Some(PlaybackTime(duration, old(loopStartTime), now))
      ensures pausedLoopers == Some(old(loopers))
      ensures loopStartTime == None && loopTimes == [] && loopTimerInterval == None && loopers == []
      ensures events == old(events) + DetachEach(old(loopers))
    {
      lastObservedPlaybackTime := Some(PlaybackTime(duration, loopStartTime, now));
      pausedLoopers := Some(loopers);
      ClearLoopersAndPlaybackState();
    }

    /**
     * `unpause(playbackTime:)`: without a time to resume from, nothing;
     * otherwise that time is scheduled for when the loopers are ready, and
     * the paused loopers are attached again.
     */
    method Unpause(playbackTime: Option<Time>, now: Time, active: bool)
      requires duration != 0
      modifies this`loopers, this`loopersToRecover, this`lastObservedPlaybackTime, this`events,
               this`scheduledPlaybackTime, this`pausedLoopers
      ensures playbackTime.None? && old(lastObservedPlaybackTime).None? ==>
                AttachView() == old(AttachView()) && scheduledPlaybackTime == old(scheduledPlaybackTime)
                && pausedLoopers == old(pausedLoopers)
      ensures playbackTime.Some? || old(lastObservedPlaybackTime).Some? ==>
                scheduledPlaybackTime == Some(if playbackTime.Some? then playbackTime.value
                                              else old(lastObservedPlaybackTime).value)
                && AttachView() == AttachedAll(old(AttachView()), old(pausedLoopers).GetOr([]), duration,
                                               loopStartTime, now, active)
                && pausedLoopers == None
    {
      var unpausePlaybackTime := if playbackTime.Some? then playbackTime else lastObservedPlaybackTime;
      if unpausePlaybackTime.None? {
        return;
      }
      scheduledPlaybackTime := unpausePlaybackTime;
      if pausedLoopers.Some? {
        AttachAll(pausedLoopers.value, now, active);
      }
      pausedLoopers := None;
    }

    /** `didEnterBackground`: with loopers playing, remember them and where playback was, then detach them. */
    method DidEnterBackground(now: Time)
      requires duration != 0
      modifies this`loopStartTime, this`loopTimes, this`loopTimerInterval, this`loopers, this`events,
               this`lastObservedPlaybackTime, this`loopersToRecover
      ensures old(|loopers|) == 0 ==>
                loopers == old(loopers) && events == old(events) && loopTimes == old(loopTimes)
                && loopStartTime == old(loopStartTime) && loopTimerInterval == old(loopTimerInterval)
                && lastObservedPlaybackTime == old(lastObservedPlaybackTime)
                && loopersToRecover == old(loopersToRecover)
      ensures old(|loopers|) > 0 ==>
                lastObservedPlaybackTime == Some(PlaybackTime(duration, old(loopStartTime), now))
                && loopersToRecover == Some(old(loopers))
                && loopStartTime == None && loopTimes == [] && loopTimerInterval == None && loopers == []
                && events == old(events) + DetachEach(old(loopers))
    {
      if |loopers| == 0 {
        return;
      }
      lastObservedPlaybackTime := Some(PlaybackTime(duration, loopStartTime, now));
      loopersToRecover := Some(loopers);
      ClearLoopersAndPlaybackState();
    }

    /**
     * `didEnterForeground`: with loopers to recover and a playback time, they
     * are attached again and the loop resumes from that time now.
     */
    method DidEnterForeground(now: Time, active: bool)
      requires duration != 0
      modifies this`loopStartTime, this`loopTimes, this`loopTimerInterval, this`loopers, this`events,
               this`lastObservedPlaybackTime, this`loopersToRecover
      ensures old(loopersToRecover).None? || old(lastObservedPlaybackTime).None? ==>
                AttachView() == old(AttachView()) && loopTimes == old(loopTimes)
                && loopStartTime == old(loopStartTime) && loopTimerInterval == old(loopTimerInterval)
      ensures old(loopersToRecover).Some? && old(lastObservedPlaybackTime).Some? ==>
                var resumeAt := old(lastObservedPlaybackTime).value;
                var attached := AttachedAll(old(AttachView()), old(loopersToRecover).value, duration,
                                            old(loopStartTime), now, active);
                && loopersToRecover == None
                && loopers == attached.loopers
                && lastObservedPlaybackTime == attached.lastObservedPlaybackTime
                && loopTimes == [StartTimeFor(resumeAt, now)]
                && loopStartTime == Some(StartTimeFor(resumeAt, now))
                && events == attached.events + [Looped(StartTimeFor(resumeAt, now), 0)]
                             + ClearAndPlayEach(attached.loopers, resumeAt, now) + [PlaybackStarted]
    {
      if loopersToRecover.None? || lastObservedPlaybackTime.None? {
        return;
      }
      var recovering := loopersToRecover.value;
      var resumeAt := lastObservedPlaybackTime.value;
      AttachAll(recovering, now, active);
      loopersToRecover := None;
      ResetToPlaybackTime(resumeAt, now);
    }

    /** `isBuffering(looper:)`: the first looper to start buffering is reported. */
    method IsBuffering()
      modifies this`bufferingLooperCount, this`events
      ensures bufferingLooperCount == old(bufferingLooperCount) + 1
      ensures events == old(events) + (if bufferingLooperCount == 1 then [BufferingStarted] else [])
    {
      bufferingLooperCount := bufferingLooperCount + 1;
      if bufferingLooperCount == 1 {
        events := events + [BufferingStarted];
      }
    }

    /** `stoppedBuffering(looper:)`: the end is reported when no looper buffers any more. */
    method StoppedBuffering()
      modifies this`bufferingLooperCount, this`events
      ensures bufferingLooperCount == old(bufferingLooperCount) - 1
      ensures events == old(events) + (if bufferingLooperCount == 0 then [BufferingStopped] else [])
    {
      bufferingLooperCount := bufferingLooperCount - 1;
      if bufferingLooperCount == 0 {
        events := events + [BufferingStopped];
      }
    }

    /**
     * `readyToLoop(looper:)`: the first ready looper starts the loop, at the
     * scheduled playback time if there is one (which is then used up), and
     * every looper is synced to it.
     */
    method ReadyToLoop(now: Time)
      requires duration != 0
      modifies this`loopStartTime, this`loopTimes, this`events, this`loopTimerInterval, this`scheduledPlaybackTime
      ensures old(loopStartTime).Some? ==>
                loopStartTime == old(loopStartTime) && loopTimes == old(loopTimes) && events == old(events)
                && scheduledPlaybackTime == old(scheduledPlaybackTime) && loopTimerInterval == old(loopTimerInterval)
      ensures old(loopStartTime).None? ==>
                var startTime := if old(scheduledPlaybackTime).Some? then StartTimeFor(old(scheduledPlaybackTime).value, now) else now;
                && scheduledPlaybackTime == None
                && loopStartTime == Some(startTime)
                && loopTimes == old(loopTimes) + [startTime]
                && loopTimerInterval == Some(RemainingInterval(duration, startTime, now) - LoopBuffer)
                && events == old(events) + [Looped(startTime, |old(loopTimes)|), PlaybackStarted]
                             + PlayEach(loopers, PlaybackTime(duration, Some(startTime), now), now)
    {
      if loopStartTime.Some? {
        return;
      }
      var startTime: Time;
      if scheduledPlaybackTime.Some? {
        startTime := StartTimeFor(scheduledPlaybackTime.value, now);
        scheduledPlaybackTime := None;
      } else {
        startTime := now;
      }
      DispatchLoopEvent(startTime, now);
      events := events + [PlaybackStarted];
      var playbackTime := PlaybackTime(duration, loopStartTime, now);
      var calls: seq<LoopEvent> := [];
      var i := 0;
      while i < |loopers|
        invariant 0 <= i <= |loopers|
        invariant calls == PlayEach(loopers[..i], playbackTime, now)
      {
        assert loopers[..i + 1][..i] == loopers[..i];
        calls := calls + [LooperPlay(loopers[i], playbackTime, now)];
        i := i + 1;
      }
      assert loopers[..i] == loopers;
      events := events + calls;
    }
  }
}
