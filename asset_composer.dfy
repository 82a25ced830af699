/**
 * Time ranges of a recorded asset: the range its audio and video tracks have
 * in common, and the check that a proposed interval lies inside a range
 * (OpenCollab/Sources/RecordingSupport/AssetComposer.swift).
 */
module AssetComposerModel {
  import opened Wrappers
  import opened Extensions

  /** A `CMTimeRange`: a start and a duration. */
  datatype TimeRange = TimeRange(start: Time, duration: Time)
  {
    function End(): Time { start + duration }
  }

  /** `CMTimeRange(start:end:)`. */
  function RangeFromTo(start: Time, end: Time): (r: TimeRange)
    ensures r.start == start && r.End() == end
  {
    TimeRange(start, end - start)
  }

  /** Whether `inner` lies within `outer`. */
  predicate Contains(outer: TimeRange, inner: TimeRange)
  {
    outer.start <= inner.start && inner.End() <= outer.End()
  }

  /** `rangeIsValid`: the start is not before the range and the end not after it; their order is never checked. */
  predicate RangeIsValid(range: TimeRange, startTime: Time, endTime: Time)
  {
    startTime >= range.start && range.End() >= endTime
  }

  /** The check is containment of the interval from the start to the end, whatever their order. */
  lemma RangeIsValidIsContainment(range: TimeRange, startTime: Time, endTime: Time)
    ensures RangeIsValid(range, startTime, endTime) <==> Contains(range, RangeFromTo(startTime, endTime))
  {
  }

  /** A reversed pair passes the check as long as both ends are inside. */
  lemma RangeIsValidAcceptsReversedPair()
    ensures RangeIsValid(TimeRange(0, 600), 400, 200)
  {
  }

  /** `CMTimeRangeGetIntersection`: the overlap, or the empty range at zero when there is none. */
  function Intersection(a: TimeRange, b: TimeRange): (r: TimeRange)
    ensures r.duration >= 0
    ensures r.duration > 0 ==> Contains(a, r) && Contains(b, r)
  {
    var start := Max(a.start, b.start);
    var end := Min(a.End(), b.End());
    if start < end then TimeRange(start, end - start) else TimeRange(0, 0)
  }

  /** The intersection is the largest range inside both. */
  lemma IntersectionIsGreatest(a: TimeRange, b: TimeRange, c: TimeRange)
    requires c.duration > 0 && Contains(a, c) && Contains(b, c)
    ensures Contains(Intersection(a, b), c)
  {
  }

  /** A non-empty range intersected with itself is itself. */
  lemma IntersectionIdempotent(a: TimeRange)
    requires a.duration > 0
    ensures Intersection(a, a) == a
  {
  }

  /** The `for` loop's fold: start from the first range, intersect with each range in turn. */
  function CommonRange(first: TimeRange, tracks: seq<TimeRange>): (r: TimeRange)
    decreases |tracks|
  {
    if |tracks| == 0 then first else Intersection(CommonRange(first, tracks[..|tracks| - 1]), tracks[|tracks| - 1])
  }

  /** Unfolds the fold over two ranges. */
  lemma CommonRangeOfPair(first: TimeRange, x: TimeRange, y: TimeRange)
    ensures CommonRange(first, [x, y]) == Intersection(Intersection(first, x), y)
  {
    var tracks := [x, y];
    assert tracks[..|tracks| - 1] == [x];
    assert [x][..0] == [];
    assert CommonRange(first, [x]) == Intersection(CommonRange(first, []), x);
  }

  /** For the tracks `[audio, video]` of a non-empty audio range the fold is their intersection. */
  lemma CommonRangeOfAudioAndVideo(audio: TimeRange, video: TimeRange)
    requires audio.duration > 0
    ensures CommonRange(audio, [audio, video]) == Intersection(audio, video)
  {
    CommonRangeOfPair(audio, audio, video);
    IntersectionIdempotent(audio);
  }

  /**
   * `getAccurateAssetTimeRange`: for an asset whose first video and audio
   * tracks have the given ranges (`None` for a missing track), the range the
   * two have in common, or `None` when either track is missing.
   */
  method GetAccurateAssetTimeRange(videoTrack: Option<TimeRange>, audioTrack: Option<TimeRange>)
    returns (common: Option<TimeRange>)
    ensures common.None? <==> videoTrack.None? || audioTrack.None?
    ensures common.Some? ==> common.value == CommonRange(audioTrack.value, [audioTrack.value, videoTrack.value])
    ensures common.Some? && audioTrack.value.duration > 0 ==> common.value == Intersection(audioTrack.value, videoTrack.value)
    ensures common.Some? && common.value.duration > 0 ==> Contains(audioTrack.value, common.value) && Contains(videoTrack.value, common.value)
  {
    if videoTrack.None? || audioTrack.None? {
      return None;
    }
    var tracks := [audioTrack.value, videoTrack.value];
    var commonAssetTimeRange := tracks[0];
    var i := 0;
    while i < |tracks|
      invariant 0 <= i <= |tracks|
      invariant commonAssetTimeRange == CommonRange(tracks[0], tracks[..i])
    {
      assert tracks[..i + 1][..i] == tracks[..i];
      commonAssetTimeRange := Intersection(commonAssetTimeRange, tracks[i]);
      i := i + 1;
    }
    assert tracks[..i] == tracks;
    if audioTrack.value.duration > 0 {
      CommonRangeOfAudioAndVideo(audioTrack.value, videoTrack.value);
    }
    if commonAssetTimeRange.duration > 0 {
      CommonRangeContained(audioTrack.value, videoTrack.value);
    }
    common := Some(commonAssetTimeRange);
  }

  /** A non-empty common range of `[audio, video]` lies inside both tracks. */
  lemma CommonRangeContained(audio: TimeRange, video: TimeRange)
    requires CommonRange(audio, [audio, video]).duration > 0
    ensures Contains(audio, CommonRange(audio, [audio, video]))
    ensures Contains(video, CommonRange(audio, [audio, video]))
  {
    CommonRangeOfPair(audio, audio, video);
    var once := Intersection(audio, audio);
    var r := Intersection(once, video);
    assert Contains(once, r) && Contains(video, r);
    assert once.duration > 0;
    assert Contains(audio, once);
  }
}
