/**
 * The metronome tempo editor: a minus button, the BPM label and a plus
 * button (OpenCollab/Sources/ViewControllers/MetronomeEditViewController.swift).
 *
 * Holding a button starts a repeating timer that clicks it again and
 * again; while that timer is valid, tempo changes are not reported, and
 * releasing the button reports the final tempo. A timer firing is a call
 * of the click method it was created for. The weak delegate is
 * `hasDelegate`; what the controller tells it is recorded as
 * `MetronomeEvent`s. `shownBPM` is the tempo the label shows.
 *
 * Each step is a function from `EditState` to `EditState`, and the
 * methods of `MetronomeEditViewController` are proved to perform it.
 */
module MetronomeEdit {
  /** `Constants.minBPM` and `Constants.maxBPM`. */
  const MinBPM: int := 40
  const MaxBPM: int := 220

  datatype MetronomeEvent = DidUpdateBPM(bpm: int) | PauseClickTrack

  datatype StepButton = Minus | Plus

  /** The long-press gesture states the handler tells apart. */
  datatype GesturePhase = Began | Ended | OtherPhase

  datatype EditState = EditState(
    bpm: int,
    timerValid: bool,
    minusEnabled: bool,
    plusEnabled: bool,
    minusHighlighted: bool,
    plusHighlighted: bool,
    shownBPM: int,
    hasDelegate: bool,
    events: seq<MetronomeEvent>)

  /** `BPM`'s `didSet`: reported unless a long-press timer is valid, and shown on the label. */
  function SetBPMStep(s: EditState, bpm: int): EditState
  {
    s.(bpm := bpm,
       shownBPM := bpm,
       events := s.events + (if !s.timerValid && s.hasDelegate then [DidUpdateBPM(bpm)] else []))
  }

  /** `updateHasNext()`. */
  function UpdateHasNextStep(s: EditState): EditState
  {
    s.(minusEnabled := s.bpm > MinBPM, plusEnabled := s.bpm < MaxBPM)
  }

  /** `didClickMinusButton(_:)`. */
  function ClickMinusStep(s: EditState): EditState
  {
    var t := UpdateHasNextStep(SetBPMStep(s, s.bpm - 1));
    if t.minusEnabled then t else t.(timerValid := false)
  }

  /** `didClickPlusButton(_:)`. */
  function ClickPlusStep(s: EditState): EditState
  {
    var t := UpdateHasNextStep(SetBPMStep(s, s.bpm + 1));
    if t.plusEnabled then t else t.(timerValid := false)
  }

  function ClickStep(s: EditState, button: StepButton): EditState
  {
    match button
    case Minus => ClickMinusStep(s)
    case Plus => ClickPlusStep(s)
  }

  function Highlight(s: EditState, button: StepButton, on: bool): EditState
  {
    match button
    case Minus => s.(minusHighlighted := on)
    case Plus => s.(plusHighlighted := on)
  }

  /** `didLongPressButton(gesture:button:selector:)`. */
  function LongPressStep(s: EditState, button: StepButton, phase: GesturePhase): EditState
  {
    match phase
    case Began =>
      var t := Highlight(s, button, true).(timerValid := true);
      t.(events := t.events + (if t.hasDelegate then [PauseClickTrack] else []))
    case Ended =>
      var t := Highlight(s, button, false).(timerValid := false);
      SetBPMStep(t, t.bpm)
    case OtherPhase => s
  }

  /** After a click the buttons are enabled exactly as the limits allow. */
  predicate EnabledMatchesLimits(s: EditState)
  {
    (s.minusEnabled <==> s.bpm > MinBPM) && (s.plusEnabled <==> s.bpm < MaxBPM)
  }

  /** A timer is only running while the button it clicks stays enabled. */
  predicate TimerNeedsEnabled(s: EditState, button: StepButton)
  {
    s.timerValid ==> (match button case Minus => s.minusEnabled case Plus => s.plusEnabled)
  }

  /** A click moves the tempo by exactly one, without checking the limits itself, and shows it. */
  lemma ClickMovesByOne(s: EditState, button: StepButton)
    ensures ClickStep(s, button).bpm == (if button == Minus then s.bpm - 1 else s.bpm + 1)
    ensures ClickStep(s, button).shownBPM == ClickStep(s, button).bpm
  {
  }

  /** Minus is enabled iff the tempo is above 40 and plus iff it is below 220, after every click. */
  lemma ClickEnablesByLimits(s: EditState, button: StepButton)
    ensures EnabledMatchesLimits(ClickStep(s, button))
    ensures ClickStep(s, button).minusEnabled <==> ClickStep(s, button).bpm > 40
    ensures ClickStep(s, button).plusEnabled <==> ClickStep(s, button).bpm < 220
  {
  }

  /**
   * The timer is invalidated as soon as the clicked button becomes
   * disabled, and is otherwise left as it was.
   */
  lemma ClickInvalidatesTimerAtLimit(s: EditState, button: StepButton)
    ensures TimerNeedsEnabled(ClickStep(s, button), button)
    ensures ClickStep(s, button).timerValid <==> s.timerValid && (if button == Minus then s.bpm - 1 > MinBPM else s.bpm + 1 < MaxBPM)
  {
  }

  /** A tempo change is reported, with the new tempo, exactly when no valid timer exists. */
  lemma ClickReportsOnlyWithoutTimer(s: EditState, button: StepButton)
    ensures var r := ClickStep(s, button);
            r.events == s.events + (if !s.timerValid && s.hasDelegate then [DidUpdateBPM(r.bpm)] else [])
  {
    var bpm := if button == Minus then s.bpm - 1 else s.bpm + 1;
    var t := UpdateHasNextStep(SetBPMStep(s, bpm));
    assert t.events == s.events + (if !s.timerValid && s.hasDelegate then [DidUpdateBPM(bpm)] else []);
    assert ClickStep(s, button).events == t.events && ClickStep(s, button).bpm == bpm;
  }

  /** Beginning a long press starts the timer and pauses the click track. */
  lemma LongPressBeginPauses(s: EditState, button: StepButton)
    ensures var r := LongPressStep(s, button, Began);
            r.timerValid && r.bpm == s.bpm
            && r.events == s.events + (if s.hasDelegate then [PauseClickTrack] else [])
  {
  }

  /** Ending a long press stops the timer and reports the tempo it ended on. */
  lemma LongPressEndReportsFinal(s: EditState, button: StepButton)
    ensures var r := LongPressStep(s, button, Ended);
            !r.timerValid && (if button == Minus then !r.minusHighlighted else !r.plusHighlighted)
            && r.bpm == s.bpm
            && r.events == s.events + (if s.hasDelegate then [DidUpdateBPM(s.bpm)] else [])
  {
  }

  /** `n` timer-driven clicks of one button. */
  function Repeat(s: EditState, button: StepButton, n: nat): EditState
    decreases n
  {
    if n == 0 then s else Repeat(ClickStep(s, button), button, n - 1)
  }

  /** While the timer is valid, repeated clicks report nothing, whatever they do to the tempo. */
  lemma {:induction false} RepeatWhileTimerIsSilent(s: EditState, button: StepButton, n: nat)
    requires Repeat(s, button, n).timerValid
    ensures s.timerValid
    ensures Repeat(s, button, n).events == s.events
    decreases n
  {
    if n > 0 {
      RepeatWhileTimerIsSilent(ClickStep(s, button), button, n - 1);
    }
  }

  /**
   * A whole long press (begin, clicks while the timer holds, end) tells the
   * delegate to pause and then reports the final tempo once. The timer
   * fires only while it is valid, so each of the `n` clicks finds it valid;
   * the last one may reach a limit and invalidate it.
   */
  lemma {:induction false} LongPressReportsOnce(s: EditState, button: StepButton, n: nat)
    requires n == 0 || Repeat(LongPressStep(s, button, Began), button, n - 1).timerValid
    ensures var r := LongPressStep(Repeat(LongPressStep(s, button, Began), button, n), button, Ended);
            r.events == s.events + (if s.hasDelegate then [PauseClickTrack, DidUpdateBPM(r.bpm)] else [])
            && !r.timerValid
  {
    var b := LongPressStep(s, button, Began);
    var m := Repeat(b, button, n);
    if n > 0 {
      RepeatWhileTimerIsSilent(b, button, n - 1);
      RepeatLast(b, button, n);
      ClickReportsOnlyWithoutTimer(Repeat(b, button, n - 1), button);
    }
    assert m.events == b.events;
    assert m.hasDelegate == s.hasDelegate by { RepeatKeepsDelegate(b, button, n); }
    if s.hasDelegate {
      assert s.events + [PauseClickTrack] + [DidUpdateBPM(m.bpm)] == s.events + [PauseClickTrack, DidUpdateBPM(m.bpm)];
    }
  }

  /** The `n`-th click comes after the first `n - 1`. */
  lemma {:induction false} RepeatLast(s: EditState, button: StepButton, n: nat)
    requires n > 0
    ensures Repeat(s, button, n) == ClickStep(Repeat(s, button, n - 1), button)
    decreases n
  {
    if n > 1 {
      RepeatLast(ClickStep(s, button), button, n - 1);
    }
  }

  lemma {:induction false} RepeatKeepsDelegate(s: EditState, button: StepButton, n: nat)
    ensures Repeat(s, button, n).hasDelegate == s.hasDelegate
    decreases n
  {
    if n > 0 {
      RepeatKeepsDelegate(ClickStep(s, button), button, n - 1);
    }
  }

  class MetronomeEditViewController {
    var bpm: int
    var timerValid: bool
    var minusEnabled: bool
    var plusEnabled: bool
    var minusHighlighted: bool
    var plusHighlighted: bool
    var shownBPM: int
    var hasDelegate: bool
    var events: seq<MetronomeEvent>

    /** `init(BPM:)`: the observer does not run during `init`, so nothing is reported. */
    constructor (bpm: int)
      ensures View() == EditState(bpm, false, true, true, false, false, bpm, false, [])
    {
      this.bpm := bpm;
      timerValid := false;
      minusEnabled := true;
      plusEnabled := true;
      minusHighlighted := false;
      plusHighlighted := false;
      shownBPM := bpm;
      hasDelegate := false;
      events := [];
    }

    function View(): EditState
      reads this
    {
      EditState(bpm, timerValid, minusEnabled, plusEnabled, minusHighlighted, plusHighlighted, shownBPM, hasDelegate, events)
    }

    method SetDelegate(hasDelegate: bool)
      modifies this
      ensures View() == old(View()).(hasDelegate := hasDelegate)
    {
      this.hasDelegate := hasDelegate;
    }

    /** An assignment to `BPM`, with its observer. */
    method SetBPM(bpm: int)
      modifies this
      ensures View() == SetBPMStep(old(View()), bpm)
    {
      this.bpm := bpm;
      if !timerValid && hasDelegate {
        events := events + [DidUpdateBPM(bpm)];
      }
      shownBPM := bpm;
    }

    method UpdateHasNext()
      modifies this
      ensures View() == UpdateHasNextStep(old(View()))
    {
      minusEnabled := bpm > MinBPM;
      plusEnabled := bpm < MaxBPM;
    }

    method DidClickMinusButton()
      modifies this
      ensures View() == ClickMinusStep(old(View()))
    {
      SetBPM(bpm - 1);
      UpdateHasNext();
      if !minusEnabled {
        timerValid := false;
      }
    }

    method DidClickPlusButton()
      modifies this
      ensures View() == ClickPlusStep(old(View()))
    {
      SetBPM(bpm + 1);
      UpdateHasNext();
      if !plusEnabled {
        timerValid := false;
      }
    }

    method DidLongPressMinusButton(phase: GesturePhase)
      modifies this
      ensures View() == LongPressStep(old(View()), Minus, phase)
    {
      DidLongPressButton(Minus, phase);
    }

    method DidLongPressPlusButton(phase: GesturePhase)
      modifies this
      ensures View() == LongPressStep(old(View()), Plus, phase)
    {
      DidLongPressButton(Plus, phase);
    }

    method DidLongPressButton(button: StepButton, phase: GesturePhase)
      modifies this
      ensures View() == LongPressStep(old(View()), button, phase)
    {
      match phase
      case Began =>
        if button == Minus { minusHighlighted := true; } else { plusHighlighted := true; }
        timerValid := true;
        if hasDelegate {
          events := events + [PauseClickTrack];
        }
      case Ended =>
        timerValid := false;
        if button == Minus { minusHighlighted := false; } else { plusHighlighted := false; }
        SetBPM(bpm);
      case OtherPhase =>
    }
  }
}
