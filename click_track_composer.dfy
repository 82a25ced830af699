/**
 * The metronome click track (OpenCollab/Sources/Util/ClickTrackComposer.swift).
 *
 * A click track is the sequence of clicks laid into one audio track: beat 1
 * at time zero, one beat every `timePerBeat`, each click either the accent
 * sound or the standard sound. The two sounds are their durations, `None`
 * when the resource or its audio track is missing; whether the composition
 * gets its audio track is `trackCreated`, and the insertion that throws, if
 * any, is `failingInsertion` (counted from 0). `timePerBeat` is the value
 * `BeatSnapper.timePerBeat` gives for the BPM.
 */
module ClickTrackComposerModel {
  import opened Wrappers
  import opened Extensions

  /** One inserted click: where it starts and which sound it is. */
  datatype Click = Click(at: Time, accented: bool)

  datatype ClickParams = ClickParams(
    duration: Time,
    timePerBeat: Time,
    beatsPerBar: int,
    accentedBeatInBar: int,
    accentLength: Time,
    standardLength: Time)

  /** `currentBeat % beatsPerBar == accentedBeatInBar`, with Swift's remainder. */
  predicate IsAccent(p: ClickParams, beat: int)
    requires p.beatsPerBar != 0
  {
    TruncatingRemainder(beat, p.beatsPerBar) == p.accentedBeatInBar
  }

  /** The duration of the sound chosen for `beat`. */
  function ClickLength(p: ClickParams, beat: int): Time
    requires p.beatsPerBar != 0
  {
    if IsAccent(p, beat) then p.accentLength else p.standardLength
  }

  /**
   * The clicks the loop places from `beat` starting at `at`: none once `at`
   * reaches the duration or the next click would end past it.
   */
  function PlacedFrom(p: ClickParams, beat: int, at: Time): seq<Click>
    requires p.timePerBeat > 0
    requires p.beatsPerBar != 0 || at >= p.duration
    decreases p.duration - at
  {
    if at >= p.duration then []
    else if at + ClickLength(p, beat) > p.duration then []
    else [Click(at, IsAccent(p, beat))] + PlacedFrom(p, beat + 1, at + p.timePerBeat)
  }

  /** The whole click track: beat 1 at time zero. */
  function Placed(p: ClickParams): seq<Click>
    requires p.timePerBeat > 0
    requires p.beatsPerBar != 0 || p.duration <= 0
  {
    PlacedFrom(p, 1, 0)
  }

  /**
   * Click `i` from `(beat, at)` starts `i` beats later, is accented exactly
   * when beat `beat + i` is, and ends within the duration.
   */
  lemma {:induction false} PlacedFromClicks(p: ClickParams, beat: int, at: Time, i: int)
    requires p.timePerBeat > 0
    requires p.beatsPerBar != 0 || at >= p.duration
    requires 0 <= i < |PlacedFrom(p, beat, at)|
    ensures p.beatsPerBar != 0
    ensures PlacedFrom(p, beat, at)[i] == Click(at + i * p.timePerBeat, IsAccent(p, beat + i))
    ensures at + i * p.timePerBeat < p.duration
    ensures at + i * p.timePerBeat + ClickLength(p, beat + i) <= p.duration
    decreases p.duration - at
  {
    if i > 0 {
      PlacedFromClicks(p, beat + 1, at + p.timePerBeat, i - 1);
      assert (at + p.timePerBeat) + (i - 1) * p.timePerBeat == at + i * p.timePerBeat;
    }
  }

  /**
   * Placement stops at the first click that does not fit: with `n` clicks
   * placed, the time `n` beats on has reached the duration, or the click of
   * beat `beat + n` would end past it.
   */
  lemma {:induction false} PlacedFromStopsAtFirstMisfit(p: ClickParams, beat: int, at: Time)
    requires p.timePerBeat > 0
    requires p.beatsPerBar != 0 || at >= p.duration
    ensures var n := |PlacedFrom(p, beat, at)|;
            var next := at + n * p.timePerBeat;
            next >= p.duration || (p.beatsPerBar != 0 && next + ClickLength(p, beat + n) > p.duration)
    decreases p.duration - at
  {
    if at >= p.duration || at + ClickLength(p, beat) > p.duration {
    } else {
      PlacedFromStopsAtFirstMisfit(p, beat + 1, at + p.timePerBeat);
      var n := |PlacedFrom(p, beat + 1, at + p.timePerBeat)|;
      assert (at + p.timePerBeat) + n * p.timePerBeat == at + (n + 1) * p.timePerBeat;
    }
  }

  /**
   * Beats are numbered from 1: click `k - 1` of the track is beat `k`, starts
   * at `(k - 1) * timePerBeat` and fits in the duration.
   */
  lemma PlacedClick(p: ClickParams, i: int)
    requires p.timePerBeat > 0
    requires p.beatsPerBar != 0 || p.duration <= 0
    requires 0 <= i < |Placed(p)|
    ensures p.beatsPerBar != 0
    ensures Placed(p)[i].at == i * p.timePerBeat
    ensures Placed(p)[i].accented <==> IsAccent(p, i + 1)
    ensures Placed(p)[i].at + ClickLength(p, i + 1) <= p.duration
  {
    PlacedFromClicks(p, 1, 0, i);
  }

  /** Beats are positive, so an accent beat outside `0 ..< |beatsPerBar|` never sounds. */
  lemma NeverAccentedOutOfRange(p: ClickParams, i: int)
    requires p.timePerBeat > 0
    requires p.beatsPerBar != 0 || p.duration <= 0
    requires p.accentedBeatInBar < 0 || p.accentedBeatInBar >= Abs(p.beatsPerBar)
    requires 0 <= i < |Placed(p)|
    ensures !Placed(p)[i].accented
  {
    PlacedClick(p, i);
  }

  /** With a positive bar length, the accent pattern repeats every bar. */
  lemma AccentRepeatsEveryBar(p: ClickParams, i: int)
    requires p.timePerBeat > 0
    requires p.beatsPerBar > 0
    requires 0 <= i && i + p.beatsPerBar < |Placed(p)|
    ensures Placed(p)[i].accented == Placed(p)[i + p.beatsPerBar].accented
  {
    PlacedClick(p, i);
    PlacedClick(p, i + p.beatsPerBar);
    RemainderShift(i + 1, p.beatsPerBar);
  }

  /** Adding the divisor does not change a remainder. */
  lemma RemainderShift(a: int, b: int)
    requires b > 0
    ensures (a + b) % b == a % b
  {
    var q := a / b;
    var r := a % b;
    ModUnique(a + b, b, q + 1, r);
  }

  /** The sound durations, when both resources and their audio tracks exist. */
  function ParamsOf(duration: Time, timePerBeat: Time, beatsPerBar: int, accentedBeatInBar: int,
                    accentLength: Time, standardLength: Time): ClickParams
  {
    ClickParams(duration, timePerBeat, beatsPerBar, accentedBeatInBar, accentLength, standardLength)
  }

  /**
   * `composeClickTrackFor(BPM:duration:beatsPerBar:accentedBeatInBar:)`:
   * `None` when a sound or the audio track is missing or an insertion
   * throws, otherwise exactly the clicks of `Placed`. Swift's `%` traps on a
   * zero bar length once the loop runs.
   */
  method ComposeClickTrackFor(duration: Time, beatsPerBar: int, accentedBeatInBar: int,
                              accentClick: Option<Time>, standardClick: Option<Time>,
                              trackCreated: bool, failingInsertion: Option<nat>,
                              timePerBeat: Time)
    returns (composition: Option<seq<Click>>)
    requires timePerBeat > 0
    requires beatsPerBar != 0 || duration <= 0
    ensures accentClick.None? || standardClick.None? || !trackCreated ==> composition.None?
    ensures accentClick.Some? && standardClick.Some? && trackCreated ==>
              var clicks := Placed(ParamsOf(duration, timePerBeat, beatsPerBar, accentedBeatInBar,
                                            accentClick.value, standardClick.value));
              if failingInsertion.Some? && failingInsertion.value < |clicks| then composition.None?
              else composition == Some(clicks)
  {
    if accentClick.None? || standardClick.None? || !trackCreated {
      return None;
    }
    var p := ParamsOf(duration, timePerBeat, beatsPerBar, accentedBeatInBar, accentClick.value, standardClick.value);
    ghost var clicks := Placed(p);
    var placed: seq<Click> := [];
    var currentTime: Time := 0;
    var currentBeat := 1;
    ghost var rest := clicks;
    while currentTime < duration
      invariant rest == PlacedFrom(p, currentBeat, currentTime)
      invariant placed + rest == clicks
      invariant failingInsertion.None? || failingInsertion.value >= |placed|
      decreases duration - currentTime
    {
      var accented := TruncatingRemainder(currentBeat, beatsPerBar) == accentedBeatInBar;
      var length := if accented then accentClick.value else standardClick.value;
      if currentTime + length > duration {
        assert rest == [];
        break;
      }
      ghost var next := PlacedFrom(p, currentBeat + 1, currentTime + timePerBeat);
      assert rest == [Click(currentTime, accented)] + next;
      if failingInsertion == Some(|placed|) {
        assert |clicks| == |placed| + |rest|;
        return None;
      }
      placed := placed + [Click(currentTime, accented)];
      currentTime := currentTime + timePerBeat;
      currentBeat := currentBeat + 1;
      rest := next;
    }
    assert placed + [] == placed;
    return Some(placed);
  }
}
