/**
 * One rank's paging slideshow of clips
 * (OpenCollab/Sources/RemixSupport/SlideshowViewController.swift).
 *
 * The scroll view is reduced to the three numbers the controller reads
 * along its direction: the content offset, the visible length and the
 * additional header padding. The delegate's calls are recorded as
 * `SlideEvent`s, only when a delegate exists. The layout pass that
 * `layoutIfNeeded` runs is its own operation, `ViewDidLayoutSubviews`.
 */
module Slideshow {
  import opened Extensions

  /** `Constants.detachVisibilityThreshold`. */
  const DetachVisibilityThreshold: real := 0.02

  /** A slide: its view (an identity), and the thumbnail URL and take number it may carry. */
  datatype SlideView = SlideView(view: nat, thumbnailURL: string, hasThumbnailURL: bool, takeNumber: int, hasTakeNumber: bool)

  datatype SlideEvent =
    | Attach(index: int, previewOnly: bool)
    | Detach(index: int, currentIndex: int)
    | Update(index: int, progress: real)
    | ScrollStarted
    | ScrollEnded
    | ViewTapped

  /** What `init` fixes: the direction, the padding between slides, the inset and the delegate. */
  datatype SlideshowConfig = SlideshowConfig(horizontal: bool, slidePadding: real, contentInset: real, hasDelegate: bool)

  datatype SlideshowState = SlideshowState(
    slides: seq<SlideView>,
    setIndex: int,
    waitingForInitialScroll: bool,
    viewDidDisappear: bool,
    isSelected: bool,
    scrollEnabled: bool,
    offset: real,
    viewLength: real,
    headerPadding: real,
    events: seq<SlideEvent>)

  /** `currentPagePortion()`: how many slide lengths the content has scrolled, 0 before layout. */
  function PagePortion(s: SlideshowState): real
  {
    if s.viewLength == 0.0 then 0.0 else (s.offset - s.headerPadding) / s.viewLength
  }

  /** `currentIndex()`: the nearest slide, clamped to the slides there are (0 when there are none). */
  function CurrentIndex(portion: real, count: int): (i: int)
    ensures 0 <= i
    ensures count > 0 ==> i < count
    ensures count <= 0 ==> i == 0
    ensures 0 <= RoundToInt(portion) < count ==> i == RoundToInt(portion)
    ensures count > 0 && RoundToInt(portion) >= count ==> i == count - 1
  {
    Max(Min(RoundToInt(portion), count - 1), 0)
  }

  function Current(s: SlideshowState): int
  {
    CurrentIndex(PagePortion(s), |s.slides|)
  }

  /** Within the slides, the current index is the slide nearest to the scroll position. */
  lemma CurrentIsNearest(s: SlideshowState)
    requires 0.0 <= PagePortion(s) && PagePortion(s) + 0.5 < |s.slides| as real
    ensures PagePortion(s) - 0.5 < Current(s) as real <= PagePortion(s) + 0.5
  {
  }

  /**
   * `scrollToIndex(index:animated:)`: nothing when `index` is already the
   * current index; otherwise it becomes `setIndex` and, when there is a
   * first slide, the content moves to `index` slide lengths less the inset.
   */
  function ScrollToIndexStep(c: SlideshowConfig, s: SlideshowState, index: int, firstSlideLength: real): SlideshowState
  {
    if index == Current(s) then s
    else if |s.slides| == 0 then s.(setIndex := index)
    else s.(setIndex := index, offset := (firstSlideLength + c.slidePadding) * index as real - c.contentInset)
  }

  /** Scrolling to another index records it, whatever the slides, and changes no slide. */
  lemma ScrollToIndexGuard(c: SlideshowConfig, s: SlideshowState, index: int, firstSlideLength: real)
    ensures index == Current(s) ==> ScrollToIndexStep(c, s, index, firstSlideLength) == s
    ensures index != Current(s) ==> ScrollToIndexStep(c, s, index, firstSlideLength).setIndex == index
    ensures ScrollToIndexStep(c, s, index, firstSlideLength).slides == s.slides
    ensures ScrollToIndexStep(c, s, index, firstSlideLength).events == s.events
  {
  }

  /**
   * After a layout pass (slides one visible length apart), scrolling to an
   * index on an unpadded header puts that slide exactly in view.
   */
  lemma ScrollToIndexShowsIt(c: SlideshowConfig, s: SlideshowState, index: int)
    requires c.contentInset == 0.0 && s.headerPadding == 0.0 && s.viewLength > 0.0
    requires |s.slides| > 0 && index != Current(s)
    ensures PagePortion(ScrollToIndexStep(c, s, index, s.viewLength - c.slidePadding)) == index as real
  {
  }

  /** `appendSlides(leftViews:rightViews:)`. */
  function AppendSlidesStep(s: SlideshowState, left: seq<SlideView>, hasLeft: bool,
                            right: seq<SlideView>, hasRight: bool): SlideshowState
  {
    var index0 := Current(s);
    var slides1 := if hasLeft then left + s.slides else s.slides;
    var index := if hasLeft then |slides1| else index0;
    var slides2 := if hasRight then slides1[..index] + right + slides1[index..] else slides1;
    s.(slides := slides2, setIndex := if hasLeft then |left| else 0, waitingForInitialScroll := true)
  }

  /**
   * Left slides go in front. Right slides go at the end when left slides
   * were given, else at the current index. `setIndex` becomes the number of
   * left slides, or 0, which picks the slide that was first before unless
   * right slides went in front of it.
   */
  lemma AppendSlidesPlaces(s: SlideshowState, left: seq<SlideView>, hasLeft: bool,
                           right: seq<SlideView>, hasRight: bool)
    ensures var t := AppendSlidesStep(s, left, hasLeft, right, hasRight);
            var l := if hasLeft then left else [];
            var r := if hasRight then right else [];
            var i := Current(s);
            (hasLeft ==> t.slides == left + s.slides + r)
            && (!hasLeft ==> t.slides == s.slides[..i] + r + s.slides[i..])
            && |t.slides| == |l| + |s.slides| + |r|
            && t.setIndex == |l|
            && t.waitingForInitialScroll
            && t.events == s.events
            && (|s.slides| > 0 && (hasLeft || !hasRight || i > 0) ==> t.slides[t.setIndex] == s.slides[0])
  {
    var i := Current(s);
    if !hasLeft && !hasRight {
      assert s.slides[..i] + [] + s.slides[i..] == s.slides;
    }
    if hasLeft {
      var slides1 := left + s.slides;
      assert slides1[..|slides1|] == slides1 && slides1[|slides1|..] == [];
      if !hasRight {
        assert left + s.slides + [] == left + s.slides;
      }
    }
  }

  /** `insertSlide(view:index:)`: Swift's `insert` traps past the end. */
  function InsertSlideStep(s: SlideshowState, slide: SlideView, index: int): SlideshowState
    requires 0 <= index <= |s.slides|
  {
    s.(slides := s.slides[..index] + [slide] + s.slides[index..], offset := 0.0)
  }

  /** `appendSlide(view:)`. */
  function AppendSlideStep(s: SlideshowState, slide: SlideView): SlideshowState
  {
    s.(slides := s.slides + [slide], offset := 0.0)
  }

  /** `replaceSlide(view:index:)`: only an index in range is replaced. */
  function ReplaceSlideStep(s: SlideshowState, slide: SlideView, index: nat): SlideshowState
  {
    if |s.slides| > index then s.(slides := s.slides[index := slide]) else s
  }

  /** `removeSlides()`. */
  function RemoveSlidesStep(s: SlideshowState): SlideshowState
  {
    s.(slides := [])
  }

  /** `removeSlide(at:)`: Swift's `remove(at:)` traps outside the slides. */
  function RemoveSlideStep(s: SlideshowState, index: int): SlideshowState
    requires 0 <= index < |s.slides|
  {
    s.(slides := s.slides[..index] + s.slides[index + 1..])
  }

  /** The new slide is at `index`; the others keep their order, those after it one place on. */
  lemma InsertSlidePlaces(s: SlideshowState, slide: SlideView, index: int)
    requires 0 <= index <= |s.slides|
    ensures var t := InsertSlideStep(s, slide, index).slides;
            |t| == |s.slides| + 1 && t[index] == slide
            && (forall j :: 0 <= j < index ==> t[j] == s.slides[j])
            && (forall j :: index < j < |t| ==> t[j] == s.slides[j - 1])
  {
  }

  /** Removing a slide just inserted at the same place gives back the slides there were. */
  lemma RemoveUndoesInsert(s: SlideshowState, slide: SlideView, index: int)
    requires 0 <= index <= |s.slides|
    ensures RemoveSlideStep(InsertSlideStep(s, slide, index), index).slides == s.slides
  {
    var t := InsertSlideStep(s, slide, index).slides;
    assert t[..index] == s.slides[..index];
    assert t[index + 1..] == s.slides[index..];
    assert s.slides[..index] + s.slides[index..] == s.slides;
  }

  /** Appending puts the slide last and keeps the others in order. */
  lemma AppendSlidePlaces(s: SlideshowState, slide: SlideView)
    ensures var t := AppendSlideStep(s, slide).slides;
            |t| == |s.slides| + 1 && t[|s.slides|] == slide && t[..|s.slides|] == s.slides
  {
  }

  /** Replacing keeps the count; in range, exactly slide `index` changes; otherwise nothing does. */
  lemma ReplaceSlideOnlyInRange(s: SlideshowState, slide: SlideView, index: nat)
    ensures var t := ReplaceSlideStep(s, slide, index);
            |t.slides| == |s.slides|
            && (index < |s.slides| ==>
                  t.slides[index] == slide && forall j :: 0 <= j < |s.slides| && j != index ==> t.slides[j] == s.slides[j])
            && (index >= |s.slides| ==> t == s)
  {
  }

  /** `removeSlides` empties the slideshow; `removeSlide(at:)` drops exactly slide `index`. */
  lemma RemoveSlideDropsOne(s: SlideshowState, index: int)
    requires 0 <= index < |s.slides|
    ensures RemoveSlidesStep(s).slides == []
    ensures var t := RemoveSlideStep(s, index).slides;
            |t| == |s.slides| - 1
            && (forall j :: 0 <= j < index ==> t[j] == s.slides[j])
            && (forall j :: index <= j < |t| ==> t[j] == s.slides[j + 1])
  {
  }

  /**
   * How visible slide `i` is at scroll position `portion`: the slide whose
   * number is the integer part shows the rest of it, the next one the
   * fraction once the position is positive, every other slide nothing.
   */
  function Progress(portion: real, i: int): real
  {
    var index := TruncateToInt(portion);
    var remainder := portion - index as real;
    if i == index then 1.0 - remainder
    else if i == index + 1 && portion > 0.0 then remainder
    else 0.0
  }

  /** What `notify(previewOnly:)` tells the delegate about slide `i`. */
  function SlideNotification(portion: real, i: int, previewOnly: bool): seq<SlideEvent>
  {
    var progress := Progress(portion, i);
    [Update(i, progress)]
    + if progress < DetachVisibilityThreshold then [Detach(i, TruncateToInt(portion))] else [Attach(i, previewOnly)]
  }

  /** The notifications for slides `0 ..< n`, in order. */
  function NotifyEvents(portion: real, n: nat, previewOnly: bool): seq<SlideEvent>
  {
    if n == 0 then [] else NotifyEvents(portion, n - 1, previewOnly) + SlideNotification(portion, n - 1, previewOnly)
  }

  /** Slide `i` gets events `2 i` and `2 i + 1`: its progress, then detach below 2 % and attach otherwise. */
  lemma {:induction false} NotifyEventsAt(portion: real, n: nat, previewOnly: bool, i: nat)
    requires i < n
    ensures |NotifyEvents(portion, n, previewOnly)| == 2 * n
    ensures NotifyEvents(portion, n, previewOnly)[2 * i] == Update(i, Progress(portion, i))
    ensures NotifyEvents(portion, n, previewOnly)[2 * i + 1]
            == if Progress(portion, i) < 0.02 then Detach(i, TruncateToInt(portion)) else Attach(i, previewOnly)
  {
    if i < n - 1 {
      NotifyEventsAt(portion, n - 1, previewOnly, i);
    } else if n > 1 {
      NotifyEventsLength(portion, n - 1, previewOnly);
    }
  }

  lemma {:induction false} NotifyEventsLength(portion: real, n: nat, previewOnly: bool)
    ensures |NotifyEvents(portion, n, previewOnly)| == 2 * n
  {
    if n > 0 {
      NotifyEventsLength(portion, n - 1, previewOnly);
    }
  }

  /**
   * At a non-negative position the current slide and the next share the
   * view: both progresses lie in [0, 1] and add up to 1 (the next slide's
   * is 0 on a whole position), and every other slide has none.
   */
  lemma ProgressSplitsBetweenTwo(portion: real, i: int)
    requires portion >= 0.0
    ensures var index := TruncateToInt(portion);
            0.0 <= Progress(portion, i) <= 1.0
            && (portion > 0.0 ==> Progress(portion, index) + Progress(portion, index + 1) == 1.0)
            && (portion == 0.0 ==> Progress(portion, 0) == 1.0)
            && (i != index && i != index + 1 ==> Progress(portion, i) == 0.0)
  {
  }

  /** Only the current slide and the next can be attached by a notification. */
  lemma AtMostTwoAttached(portion: real, i: int, previewOnly: bool)
    requires portion >= 0.0
    requires SlideNotification(portion, i, previewOnly)[1].Attach?
    ensures i == TruncateToInt(portion) || i == TruncateToInt(portion) + 1
  {
  }

  /** `notify(previewOnly:)`: one update and one attach or detach per slide, when a delegate exists. */
  function NotifyStep(c: SlideshowConfig, s: SlideshowState, previewOnly: bool): SlideshowState
  {
    s.(events := s.events + if c.hasDelegate then NotifyEvents(PagePortion(s), |s.slides|, previewOnly) else [])
  }

  /** `scrollEnded()`: the current index becomes `setIndex`. */
  function ScrollEndedStep(c: SlideshowConfig, s: SlideshowState): SlideshowState
  {
    s.(setIndex := Current(s), events := s.events + if c.hasDelegate then [ScrollEnded] else [])
  }

  /** Ending a scroll settles `setIndex` on a slide that exists (0 for none) and notifies in full. */
  lemma ScrollEndSettles(c: SlideshowConfig, s: SlideshowState)
    ensures var t := NotifyStep(c, ScrollEndedStep(c, s), false);
            0 <= t.setIndex && (|s.slides| > 0 ==> t.setIndex < |s.slides|)
            && t.slides == s.slides
            && t.events == s.events + if c.hasDelegate then [ScrollEnded] + NotifyEvents(PagePortion(s), |s.slides|, false) else []
  {
    if c.hasDelegate {
      assert s.events + [ScrollEnded] + NotifyEvents(PagePortion(s), |s.slides|, false)
          == s.events + ([ScrollEnded] + NotifyEvents(PagePortion(s), |s.slides|, false));
    }
  }

  /** `viewDidLayoutSubviews()`: the scroll view takes the frame, then, if the frame has area, scrolls to `setIndex`. */
  function LayoutStep(c: SlideshowConfig, s: SlideshowState, width: real, height: real): SlideshowState
  {
    var t := s.(viewLength := if c.horizontal then width else height);
    if width == 0.0 || height == 0.0 then t
    else ScrollToIndexStep(c, t, t.setIndex, t.viewLength - c.slidePadding)
  }

  /** `viewDidAppear(_:)`: marks the view as shown once it has slides. */
  function ViewDidAppearStep(s: SlideshowState): SlideshowState
  {
    if s.viewDidDisappear && |s.slides| > 0 then s.(viewDidDisappear := false) else s
  }

  /**
   * The loop of `notify(previewOnly:)` over `count` slides at position
   * `portion`: what it tells the delegate, in order (nothing without one).
   */
  method NotifySlides(portion: real, count: nat, previewOnly: bool, hasDelegate: bool) returns (sent: seq<SlideEvent>)
    ensures sent == if hasDelegate then NotifyEvents(portion, count, previewOnly) else []
  {
    var index := TruncateToInt(portion);
    var remainder := portion - index as real;
    sent := [];
    var i := 0;
    while i < count
      invariant 0 <= i <= count
      invariant sent == if hasDelegate then NotifyEvents(portion, i, previewOnly) else []
    {
      var progress := 0.0;
      if i == index {
        progress := 1.0 - remainder;
      } else if i == index + 1 && portion > 0.0 {
        progress := remainder;
      }
      if hasDelegate {
        sent := sent + [Update(i, progress)];
        if progress < DetachVisibilityThreshold {
          sent := sent + [Detach(i, index)];
        } else {
          sent := sent + [Attach(i, previewOnly)];
        }
      }
      i := i + 1;
    }
  }

  class SlideshowViewController {
    const config: SlideshowConfig
    var slideViews: seq<SlideView>
    var setIndex: int
    var waitingForInitialScroll: bool
    var viewDidDisappear: bool
    var isSelected: bool
    /** The layer's border is white while selected, clear otherwise. */
    var borderWhite: bool
    var scrollEnabled: bool
    var offset: real
    var viewLength: real
    var additionalHeaderPadding: real
    var events: seq<SlideEvent>

    /** `init(slideViews:direction:delegate:slidePadding:startingIndex:)`. */
    constructor (slideViews: seq<SlideView>, horizontal: bool, hasDelegate: bool, slidePadding: real,
                 startingIndex: int, contentInset: real)
      ensures config == SlideshowConfig(horizontal, slidePadding, contentInset, hasDelegate)
      ensures View() == SlideshowState(slideViews, startingIndex, true, true, false, true, 0.0, 0.0, 0.0, [])
      ensures !borderWhite
    {
      config := SlideshowConfig(horizontal, slidePadding, contentInset, hasDelegate);
      this.slideViews := slideViews;
      setIndex := startingIndex;
      waitingForInitialScroll := true;
      viewDidDisappear := true;
      isSelected := false;
      borderWhite := false;
      scrollEnabled := true;
      offset := 0.0;
      viewLength := 0.0;
      additionalHeaderPadding := 0.0;
      events := [];
    }

    function View(): SlideshowState
      reads this
    {
      SlideshowState(slideViews, setIndex, waitingForInitialScroll, viewDidDisappear, isSelected, scrollEnabled,
                     offset, viewLength, additionalHeaderPadding, events)
    }

    /** An assignment to `isSelected`, with its observer. */
    method SetSelected(selected: bool)
      modifies this
      ensures View() == old(View()).(isSelected := selected)
      ensures borderWhite == selected
    {
      isSelected := selected;
      borderWhite := isSelected;
    }

    method SetAdditionalHeaderPadding(padding: real)
      modifies this
      ensures View() == old(View()).(headerPadding := padding)
    {
      additionalHeaderPadding := padding;
    }

    /** The scroll view moving its content, by a drag or an animation. */
    method SetContentOffset(offset: real)
      modifies this
      ensures View() == old(View()).(offset := offset)
    {
      this.offset := offset;
    }

    method CurrentPagePortion() returns (portion: real)
      ensures portion == PagePortion(View())
    {
      portion := if viewLength == 0.0 then 0.0 else (offset - additionalHeaderPadding) / viewLength;
    }

    method CurrentIndexNow() returns (index: int)
      ensures index == Current(View())
      ensures 0 <= index && (|slideViews| > 0 ==> index < |slideViews|)
    {
      var portion := CurrentPagePortion();
      var rounded := RoundToInt(portion);
      index := Max(Min(rounded, |slideViews| - 1), 0);
    }

    /** `scrollToIndex(index:animated:)`; `firstSlideLength` is the first slide's length along the direction. */
    method ScrollToIndex(index: int, firstSlideLength: real)
      modifies this
      ensures View() == ScrollToIndexStep(config, old(View()), index, firstSlideLength)
    {
      var current := CurrentIndexNow();
      if index == current {
        return;
      }
      setIndex := index;
      if |slideViews| == 0 {
        return;
      }
      offset := (firstSlideLength + config.slidePadding) * index as real - config.contentInset;
    }

    method AppendSlides(left: seq<SlideView>, hasLeft: bool, right: seq<SlideView>, hasRight: bool)
      modifies this
      ensures View() == AppendSlidesStep(old(View()), left, hasLeft, right, hasRight)
    {
      var index := CurrentIndexNow();
      if hasLeft {
        slideViews := left + slideViews;
        index := |slideViews|;
      }
      if hasRight {
        slideViews := slideViews[..index] + right + slideViews[index..];
      }
      setIndex := if hasLeft then |left| else 0;
      waitingForInitialScroll := true;
    }

    method InsertSlide(slide: SlideView, index: int)
      requires 0 <= index <= |slideViews|
      modifies this
      ensures View() == InsertSlideStep(old(View()), slide, index)
    {
      slideViews := slideViews[..index] + [slide] + slideViews[index..];
      offset := 0.0;
    }

    method AppendSlide(slide: SlideView)
      modifies this
      ensures View() == AppendSlideStep(old(View()), slide)
    {
      slideViews := slideViews + [slide];
      offset := 0.0;
    }

    method ReplaceSlide(slide: SlideView, index: nat)
      modifies this
      ensures View() == ReplaceSlideStep(old(View()), slide, index)
    {
      if !(|slideViews| > index) {
        return;
      }
      slideViews := slideViews[index := slide];
    }

    method RemoveSlides()
      modifies this
      ensures View() == RemoveSlidesStep(old(View()))
    {
      slideViews := [];
    }

    method RemoveSlide(index: int)
      requires 0 <= index < |slideViews|
      modifies this
      ensures View() == RemoveSlideStep(old(View()), index)
    {
      slideViews := slideViews[..index] + slideViews[index + 1..];
    }

    method EnableScrolling()
      modifies this
      ensures View() == old(View()).(scrollEnabled := true)
    {
      scrollEnabled := true;
    }

    method DisableScrolling()
      modifies this
      ensures View() == old(View()).(scrollEnabled := false)
    {
      scrollEnabled := false;
    }

    method ViewDidAppear()
      modifies this
      ensures View() == ViewDidAppearStep(old(View()))
    {
      if !(viewDidDisappear && |slideViews| > 0) {
        return;
      }
      viewDidDisappear := false;
    }

    /** `viewDidLoad()`: scrolls to the starting index. */
    method ViewDidLoad(firstSlideLength: real)
      modifies this
      ensures View() == ScrollToIndexStep(config, old(View()), old(setIndex), firstSlideLength)
    {
      ScrollToIndex(setIndex, firstSlideLength);
    }

    /** `viewDidLayoutSubviews()` for a frame of `width` by `height`. */
    method ViewDidLayoutSubviews(width: real, height: real)
      modifies this
      ensures View() == LayoutStep(config, old(View()), width, height)
    {
      viewLength := if config.horizontal then width else height;
      if width == 0.0 || height == 0.0 {
        return;
      }
      ScrollToIndex(setIndex, viewLength - config.slidePadding);
    }

    /** `notify(previewOnly:)`. */
    method Notify(previewOnly: bool)
      modifies this
      ensures View() == NotifyStep(config, old(View()), previewOnly)
    {
      var portion := CurrentPagePortion();
      var sent := NotifySlides(portion, |slideViews|, previewOnly, config.hasDelegate);
      events := events + sent;
    }

    /** `scrollEnded()`. */
    method EndScroll()
      modifies this
      ensures View() == ScrollEndedStep(config, old(View()))
    {
      setIndex := CurrentIndexNow();
      if config.hasDelegate {
        events := events + [ScrollEnded];
      }
    }

    /** `scrollViewDidScroll(_:)`: a preview-only notification. */
    method ScrollViewDidScroll()
      modifies this
      ensures View() == NotifyStep(config, old(View()), true)
    {
      Notify(true);
    }

    method ScrollViewWillBeginDragging()
      modifies this
      ensures View() == old(View()).(events := old(events) + if config.hasDelegate then [ScrollStarted] else [])
    {
      if config.hasDelegate {
        events := events + [ScrollStarted];
      }
    }

    /** `scrollViewDidEndDragging(_:willDecelerate:)`: only a drag that stops at once ends the scroll. */
    method ScrollViewDidEndDragging(decelerate: bool)
      modifies this
      ensures View() == if decelerate then old(View()) else NotifyStep(config, ScrollEndedStep(config, old(View())), false)
    {
      if !decelerate {
        EndScroll();
        Notify(false);
      }
    }

    /**
     * `scrollViewDidEndScrollingAnimation(_:)`,
     * `scrollViewDidEndDecelerating(_:)` and `scrollViewDidScrollToTop(_:)`.
     */
    method ScrollViewDidEndScrolling()
      modifies this
      ensures View() == NotifyStep(config, ScrollEndedStep(config, old(View())), false)
    {
      EndScroll();
      Notify(false);
    }

    method DidTapView()
      modifies this
      ensures View() == old(View()).(events := old(events) + if config.hasDelegate then [ViewTapped] else [])
    {
      if config.hasDelegate {
        events := events + [ViewTapped];
      }
    }
  }
}
