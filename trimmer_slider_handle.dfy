/**
 * The draggable trim window over the waveform: two handles joined by a border
 * (OpenCollab/Sources/TrimmingSupport/TrimmerSliderHandleView.swift).
 * Geometry is in points, over `real`.
 */
module TrimmerSliderHandle {
  import opened Wrappers

  /** `Comparable.clamped(_:_:)` on times: `max(min(x, upper), lower)`. */
  function ClampedTime(x: int, lower: int, upper: int): (r: int)
    ensures lower <= upper ==> lower <= r <= upper
    ensures lower <= x <= upper ==> r == x
    ensures x < lower ==> r == lower
  {
    var m := if x < upper then x else upper;
    if m < lower then lower else m
  }

  /** `Comparable.clamped(_:_:)` on lengths. */
  function Clamped(x: real, lower: real, upper: real): (r: real)
    ensures lower <= upper ==> lower <= r <= upper
    ensures lower <= x <= upper ==> r == x
    ensures x < lower ==> r == lower
  {
    var m := if x < upper then x else upper;
    if m < lower then lower else m
  }

  const TrimmerBorderSize: real := 4.0
  const TrimmerHandleWidth: real := 17.0
  /** Both handles together. */
  const HandleOffset: real := 2.0 * TrimmerHandleWidth

  datatype DragType = Leading | Center | Trailing

  /** The callbacks the view reports to its owner, and the haptic tap on hitting a limit. */
  datatype HandleEvent = DragStarted(kind: DragType) | IsDragging(kind: DragType)
                       | DragEnded(kind: DragType) | ImpactOccurred

  /**
   * `minScrubberWidth` / `maxScrubberWidth`: the share `percent` of the
   * superview's width left over by the two handles, or 0 without a superview.
   */
  function ScrubberWidth(superviewWidth: Option<real>, percent: real): (w: real)
    ensures superviewWidth.None? ==> w == 0.0
    ensures superviewWidth.Some? && superviewWidth.value >= HandleOffset && 0.0 <= percent <= 1.0 ==>
              0.0 <= w <= superviewWidth.value - HandleOffset
  {
    match superviewWidth
    case None => 0.0
    case Some(width) => (width - HandleOffset) * percent
  }

  /** A larger share of a non-negative width is at least as wide. */
  lemma ShareMonotone(x: real, lo: real, hi: real)
    requires x >= 0.0 && lo <= hi
    ensures x * lo <= x * hi
  {
    assert x * (hi - lo) >= 0.0;
    assert x * hi == x * lo + x * (hi - lo);
  }

  /** `setWidth`: `min(max(width, lower), upper)`, which favours `upper` if the bounds cross. */
  function BoundedWidth(width: real, lower: real, upper: real): (r: real)
    ensures r <= upper
    ensures lower <= upper ==> lower <= r
    ensures lower <= width <= upper ==> r == width
  {
    var m := if width < lower then lower else width;
    if m < upper then m else upper
  }

  /** The tap zone widening, dropped when the handles are less than 40 points apart. */
  function TouchBuffer(viewWidth: real): (b: real)
    ensures b == 0.0 || b == 20.0
    ensures b == 20.0 <==> (viewWidth - TrimmerHandleWidth) - TrimmerHandleWidth >= 40.0
  {
    if (viewWidth - TrimmerHandleWidth) - TrimmerHandleWidth < 40.0 then 0.0 else 20.0
  }

  /** `touchesBegan`: which part of the window a touch at `x` (in the view's own coordinates) grabs. */
  function Classify(x: real, viewWidth: real): (kind: DragType)
  {
    var buffer := TouchBuffer(viewWidth);
    var leadingHandleMaxX := TrimmerHandleWidth + buffer;
    var trailingHandleXOrigin := viewWidth - TrimmerHandleWidth - buffer;
    if trailingHandleXOrigin <= x then Trailing
    else if leadingHandleMaxX <= x then Center
    else Leading
  }

  function Rank(kind: DragType): nat
  {
    match kind
    case Leading => 0
    case Center => 1
    case Trailing => 2
  }

  /** Sliding the touch to the right never moves it to a grip further left. */
  lemma ClassifyIsMonotone(x1: real, x2: real, viewWidth: real)
    requires x1 <= x2
    ensures Rank(Classify(x1, viewWidth)) <= Rank(Classify(x2, viewWidth))
  {
  }

  /** The three zones: trailing from `width - 17 - buffer` on, centre between the widened handles, leading before. */
  lemma ClassifyZones(x: real, viewWidth: real)
    ensures Classify(x, viewWidth) == Trailing <==> x >= viewWidth - TrimmerHandleWidth - TouchBuffer(viewWidth)
    ensures Classify(x, viewWidth) == Center <==>
              TrimmerHandleWidth + TouchBuffer(viewWidth) <= x < viewWidth - TrimmerHandleWidth - TouchBuffer(viewWidth)
    ensures Classify(x, viewWidth) == Leading <==>
              x < TrimmerHandleWidth + TouchBuffer(viewWidth) && x < viewWidth - TrimmerHandleWidth - TouchBuffer(viewWidth)
  {
  }

  /** The lower end of the leading drag's range: `floor(max(17, trailing - 17 - maxWidth))`. */
  function LeadingMinPos(originalTrailing: real, maxScrubberWidth: real): (p: real)
    ensures p >= TrimmerHandleWidth
  {
    var m := if TrimmerHandleWidth < originalTrailing - TrimmerHandleWidth - maxScrubberWidth
             then originalTrailing - TrimmerHandleWidth - maxScrubberWidth else TrimmerHandleWidth;
    m.Floor as real
  }

  function LeadingMaxPos(originalTrailing: real, minScrubberWidth: real): real
  {
    originalTrailing - TrimmerHandleWidth - minScrubberWidth
  }

  /** The trailing drag's range: its lower end is capped by its upper end, so it is never empty. */
  function TrailingRange(originalOriginX: real, superviewWidth: real, minScrubberWidth: real,
                         maxScrubberWidth: real): (range: (real, real))
    ensures range.0 <= range.1
    ensures range.1 <= superviewWidth - TrimmerHandleWidth
    ensures range.1 <= originalOriginX + TrimmerHandleWidth + maxScrubberWidth
    ensures range.0 <= originalOriginX + TrimmerHandleWidth + minScrubberWidth
  {
    var a := originalOriginX + TrimmerHandleWidth + maxScrubberWidth;
    var b := superviewWidth - TrimmerHandleWidth;
    var maxPos := if a < b then a else b;
    var c := originalOriginX + TrimmerHandleWidth + minScrubberWidth;
    var minPos := if maxPos < c then maxPos else c;
    (minPos, maxPos)
  }

  /** A haptic tap when the clamped position sits on either end of its range. */
  function Haptic(x: real, minPos: real, maxPos: real): seq<HandleEvent>
  {
    if x == minPos || x == maxPos then [ImpactOccurred] else []
  }

  class TrimmerSliderHandleView {
    /** The superview's width, or `None` when the view is not in a hierarchy. */
    var superviewWidth: Option<real>
    var originX: real
    var width: real
    var dragType: DragType
    var minTrimPercent: real
    var maxTrimPercent: real
    var centerTouchAllowed: bool
    var originalFrameOriginX: real
    var originalFrameWidth: real
    var originalPositionSelfX: real
    var originalPositionSuperX: real
    var events: seq<HandleEvent>

    constructor ()
      ensures superviewWidth.None? && originX == 0.0 && width == 0.0
      ensures dragType == Center && minTrimPercent == 0.0 && maxTrimPercent == 1.0
      ensures centerTouchAllowed && events == []
    {
      superviewWidth := None;
      originX := 0.0;
      width := 0.0;
      dragType := Center;
      minTrimPercent := 0.0;
      maxTrimPercent := 1.0;
      centerTouchAllowed := true;
      originalFrameOriginX := 0.0;
      originalFrameWidth := 0.0;
      originalPositionSelfX := 0.0;
      originalPositionSuperX := 0.0;
      events := [];
    }

    function MinScrubberWidth(): real
      reads this`superviewWidth, this`minTrimPercent
    {
      ScrubberWidth(superviewWidth, minTrimPercent)
    }

    function MaxScrubberWidth(): real
      reads this`superviewWidth, this`maxTrimPercent
    {
      ScrubberWidth(superviewWidth, maxTrimPercent)
    }

    /** The leading drag's clamp range is a `ClosedRange`, which traps when its ends cross. */
    predicate LeadingDragRangeIsValid()
      reads this`superviewWidth, this`minTrimPercent, this`maxTrimPercent, this`originalFrameOriginX, this`originalFrameWidth
    {
      LeadingMinPos(originalFrameOriginX + originalFrameWidth, MaxScrubberWidth())
        <= LeadingMaxPos(originalFrameOriginX + originalFrameWidth, MinScrubberWidth())
    }

    method SetTrimConstraints(minPercent: real, maxPercent: real)
      modifies this`minTrimPercent, this`maxTrimPercent
      ensures minTrimPercent == minPercent && maxTrimPercent == maxPercent
    {
      minTrimPercent := minPercent;
      maxTrimPercent := maxPercent;
    }

    /** `setWidth`: the width is kept between the two scrubber bounds plus the handles. */
    method SetWidth(newWidth: real)
      modifies this`width
      ensures width == BoundedWidth(newWidth, MinScrubberWidth() + HandleOffset, MaxScrubberWidth() + HandleOffset)
      ensures width <= MaxScrubberWidth() + HandleOffset
      ensures minTrimPercent <= maxTrimPercent && superviewWidth.Some? && superviewWidth.value >= HandleOffset ==>
                MinScrubberWidth() + HandleOffset <= width
    {
      width := BoundedWidth(newWidth, MinScrubberWidth() + HandleOffset, MaxScrubberWidth() + HandleOffset);
      if minTrimPercent <= maxTrimPercent && superviewWidth.Some? && superviewWidth.value >= HandleOffset {
        ShareMonotone(superviewWidth.value - HandleOffset, minTrimPercent, maxTrimPercent);
        assert MinScrubberWidth() == (superviewWidth.value - HandleOffset) * minTrimPercent;
        assert MaxScrubberWidth() == (superviewWidth.value - HandleOffset) * maxTrimPercent;
      }
    }

    /** `touchesBegan`: remembers where the drag started and which grip it took. */
    method TouchesBegan(touchSelfX: Option<real>, touchSuperX: real)
      modifies this`originalPositionSelfX, this`originalPositionSuperX, this`originalFrameOriginX,
               this`originalFrameWidth, this`dragType, this`events
      ensures touchSelfX.None? || superviewWidth.None? ==> unchanged(this)
      ensures touchSelfX.Some? && superviewWidth.Some? ==>
                && dragType == Classify(touchSelfX.value, width)
                && originalPositionSelfX == touchSelfX.value && originalPositionSuperX == touchSuperX
                && originalFrameOriginX == originX && originalFrameWidth == width
                && events == old(events) + [DragStarted(dragType)]
    {
      if touchSelfX.None? || superviewWidth.None? {
        return;
      }
      originalPositionSelfX := touchSelfX.value;
      originalPositionSuperX := touchSuperX;
      originalFrameOriginX := originX;
      originalFrameWidth := width;
      dragType := Classify(touchSelfX.value, width);
      events := events + [DragStarted(dragType)];
    }

    /** `touchesMoved` for a touch at `locationSuperX` in the superview's coordinates. */
    method TouchesMoved(locationSuperX: real)
      requires superviewWidth.Some? && dragType == Leading ==> LeadingDragRangeIsValid()
      modifies this`originX, this`width, this`events
      ensures superviewWidth.None? ==> unchanged(this)
      ensures superviewWidth.Some? && dragType == Leading ==>
                var trailing := originalFrameOriginX + originalFrameWidth;
                var x := Clamped(originalFrameOriginX + TrimmerHandleWidth + (locationSuperX - originalPositionSuperX),
                                 LeadingMinPos(trailing, MaxScrubberWidth()), LeadingMaxPos(trailing, MinScrubberWidth()));
                && originX == x - TrimmerHandleWidth
                && width == BoundedWidth(trailing - x + TrimmerHandleWidth,
                                         MinScrubberWidth() + HandleOffset, MaxScrubberWidth() + HandleOffset)
                && events == old(events) + Haptic(x, LeadingMinPos(trailing, MaxScrubberWidth()),
                                                  LeadingMaxPos(trailing, MinScrubberWidth())) + [IsDragging(Leading)]
      ensures superviewWidth.Some? && dragType == Center ==>
                && width == old(width)
                && (superviewWidth.value - width < 0.0 || !centerTouchAllowed ==> unchanged(this))
                && (superviewWidth.value - width >= 0.0 && centerTouchAllowed ==>
                      && 0.0 <= originX <= superviewWidth.value - width
                      && originX == Clamped(locationSuperX - originalPositionSelfX, 0.0, superviewWidth.value - width)
                      && events == old(events) + [IsDragging(Center)])
      ensures superviewWidth.Some? && dragType == Trailing ==>
                var range := TrailingRange(originalFrameOriginX, superviewWidth.value, MinScrubberWidth(), MaxScrubberWidth());
                var x := Clamped(originalFrameOriginX + originalFrameWidth - TrimmerHandleWidth
                                 + (locationSuperX - originalPositionSuperX), range.0, range.1);
                && range.0 <= x <= range.1
                && originX == old(originX)
                && width == BoundedWidth(x - originalFrameOriginX + TrimmerHandleWidth,
                                         MinScrubberWidth() + HandleOffset, MaxScrubberWidth() + HandleOffset)
                && events == old(events) + Haptic(x, range.0, range.1) + [IsDragging(Trailing)]
    {
      if superviewWidth.None? {
        return;
      }
      match dragType {
        case Leading => MoveLeading(locationSuperX);
        case Center => MoveCenter(locationSuperX);
        case Trailing => MoveTrailing(locationSuperX);
      }
    }

    /** The leading handle's drag: the left edge follows the touch, the right edge stays. */
    method MoveLeading(locationSuperX: real)
      requires superviewWidth.Some? && dragType == Leading && LeadingDragRangeIsValid()
      modifies this`originX, this`width, this`events
      ensures var trailing := originalFrameOriginX + originalFrameWidth;
              var x := Clamped(originalFrameOriginX + TrimmerHandleWidth + (locationSuperX - originalPositionSuperX),
                               LeadingMinPos(trailing, MaxScrubberWidth()), LeadingMaxPos(trailing, MinScrubberWidth()));
              && originX == x - TrimmerHandleWidth
              && width == BoundedWidth(trailing - x + TrimmerHandleWidth,
                                       MinScrubberWidth() + HandleOffset, MaxScrubberWidth() + HandleOffset)
              && events == old(events) + Haptic(x, LeadingMinPos(trailing, MaxScrubberWidth()),
                                                LeadingMaxPos(trailing, MinScrubberWidth())) + [IsDragging(Leading)]
    {
      var originalTrailing := originalFrameOriginX + originalFrameWidth;
      var minPos := LeadingMinPos(originalTrailing, MaxScrubberWidth());
      var maxPos := LeadingMaxPos(originalTrailing, MinScrubberWidth());
      var delta := locationSuperX - originalPositionSuperX;
      var xPosition := Clamped(originalFrameOriginX + TrimmerHandleWidth + delta, minPos, maxPos);
      events := events + Haptic(xPosition, minPos, maxPos);
      originX := xPosition - TrimmerHandleWidth;
      SetWidth(originalTrailing - xPosition + TrimmerHandleWidth);
      events := events + [IsDragging(Leading)];
    }

    /** The centre drag: the whole window moves, kept inside the superview, when centre touches are allowed. */
    method MoveCenter(locationSuperX: real)
      requires superviewWidth.Some? && dragType == Center
      modifies this`originX, this`events
      ensures width == old(width)
      ensures superviewWidth.value - width < 0.0 || !centerTouchAllowed ==> unchanged(this)
      ensures superviewWidth.value - width >= 0.0 && centerTouchAllowed ==>
                && 0.0 <= originX <= superviewWidth.value - width
                && originX == Clamped(locationSuperX - originalPositionSelfX, 0.0, superviewWidth.value - width)
                && events == old(events) + [IsDragging(Center)]
    {
      var superWidth := superviewWidth.value;
      if superWidth - width < 0.0 || !centerTouchAllowed {
        return;
      }
      originX := Clamped(locationSuperX - originalPositionSelfX, 0.0, superWidth - width);
      events := events + [IsDragging(Center)];
    }

    /** The trailing handle's drag: the right edge follows the touch, the left edge stays. */
    method MoveTrailing(locationSuperX: real)
      requires superviewWidth.Some? && dragType == Trailing
      modifies this`width, this`events
      ensures var range := TrailingRange(originalFrameOriginX, superviewWidth.value, MinScrubberWidth(), MaxScrubberWidth());
              var x := Clamped(originalFrameOriginX + originalFrameWidth - TrimmerHandleWidth
                               + (locationSuperX - originalPositionSuperX), range.0, range.1);
              && range.0 <= x <= range.1
              && width == BoundedWidth(x - originalFrameOriginX + TrimmerHandleWidth,
                                       MinScrubberWidth() + HandleOffset, MaxScrubberWidth() + HandleOffset)
              && events == old(events) + Haptic(x, range.0, range.1) + [IsDragging(Trailing)]
    {
      var range := TrailingRange(originalFrameOriginX, superviewWidth.value, MinScrubberWidth(), MaxScrubberWidth());
      var delta := locationSuperX - originalPositionSuperX;
      var trailingPosition := originalFrameOriginX + originalFrameWidth - TrimmerHandleWidth + delta;
      var xPosition := Clamped(trailingPosition, range.0, range.1);
      events := events + Haptic(xPosition, range.0, range.1);
      SetWidth(xPosition - originalFrameOriginX + TrimmerHandleWidth);
      events := events + [IsDragging(Trailing)];
    }

    /** `touchesEnded` and `touchesCancelled` both report the end of the drag. */
    method TouchesEnded()
      modifies this`events
      ensures events == old(events) + [DragEnded(dragType)]
    {
      events := events + [DragEnded(dragType)];
    }
  }
}
