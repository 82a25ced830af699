/**
 * A fragment: one clip and its trim window
 * (OpenCollab/Sources/VideoPlayback/FragmentHost.swift).
 *
 * `FragmentHost` is a Swift struct, so it is a value here too: the mutating
 * `setPlaybackTimes` becomes a function from the old value to the new one.
 * The window `[playbackStartTime, playbackEndTime]` is kept inside
 * `[0, assetDuration]` and at least `minPlaybackDuration` long.
 */
module FragmentHostModel {
  import opened Wrappers
  import opened Extensions
  import opened AssetInfoModel

  /** `FragmentHost.minFragmentDuration`: 3 s at timescale 600. */
  const MinFragmentDuration: Time := 3 * Timescale
  /** `FragmentHost.maxFragmentDuration`: 25 s at timescale 600. */
  const MaxFragmentDuration: Time := 25 * Timescale

  /** A thumbnail taken while recording; only its identity matters here. */
  datatype Image = Image(id: nat)

  datatype FragmentHost = FragmentHost(
    assetInfo: AssetInfo,
    volume: real,
    isRecordPlaceholder: bool,
    localThumbnailImage: Option<Image>,
    playbackStartTime: Time,
    playbackEndTime: Time,
    assetDuration: Time,
    minPlaybackDuration: Time,
    maxPlaybackDuration: Limit)

  /** The well-formed trim window that the editing operations keep. */
  predicate WindowInvariant(f: FragmentHost)
  {
    0 <= f.playbackStartTime <= f.playbackEndTime <= f.assetDuration
    && f.playbackEndTime - f.playbackStartTime >= f.minPlaybackDuration
  }

  /** The memberwise `init` with every argument given. */
  function Init(assetInfo: AssetInfo, volume: real, assetDuration: Time,
                playbackEndTime: Option<Time>, playbackStartTime: Option<Time>,
                minPlaybackDuration: Time, maxPlaybackDuration: Limit): (r: FragmentHost)
    ensures r.playbackStartTime == (if playbackStartTime.Some? then playbackStartTime.value else 0)
    ensures r.playbackEndTime == (if playbackEndTime.Some? then playbackEndTime.value else assetDuration)
    ensures !r.isRecordPlaceholder && r.localThumbnailImage.None?
    ensures r.assetInfo == assetInfo && r.volume == volume && r.assetDuration == assetDuration
    ensures r.minPlaybackDuration == minPlaybackDuration && r.maxPlaybackDuration == maxPlaybackDuration
  {
    FragmentHost(assetInfo, volume, false, None,
                 playbackStartTime.GetOr(Zero), playbackEndTime.GetOr(assetDuration),
                 assetDuration, minPlaybackDuration, maxPlaybackDuration)
  }

  /** `init` with only the asset and its duration: every default taken. */
  function InitWithDefaults(assetInfo: AssetInfo, assetDuration: Time): (r: FragmentHost)
    ensures r.volume == 1.0
    ensures r.playbackStartTime == 0 && r.playbackEndTime == assetDuration
    ensures r.minPlaybackDuration == 0 && r.maxPlaybackDuration == PositiveInfinity
    ensures PlaybackDuration(r) == assetDuration
    ensures WindowInvariant(r) <==> assetDuration >= 0
  {
    Init(assetInfo, 1.0, assetDuration, None, None, Zero, PositiveInfinity)
  }

  /** `init(fragment:)`: a copy that keeps every field, thumbnail and placeholder flag included. */
  function Copy(fragment: FragmentHost): (r: FragmentHost)
    ensures r.assetInfo == fragment.assetInfo && r.volume == fragment.volume
    ensures r.playbackStartTime == fragment.playbackStartTime && r.playbackEndTime == fragment.playbackEndTime
    ensures r.assetDuration == fragment.assetDuration
    ensures r.minPlaybackDuration == fragment.minPlaybackDuration
    ensures r.maxPlaybackDuration == fragment.maxPlaybackDuration
    ensures r.localThumbnailImage == fragment.localThumbnailImage
    ensures r.isRecordPlaceholder == fragment.isRecordPlaceholder
  {
    FragmentHost(fragment.assetInfo, fragment.volume, fragment.isRecordPlaceholder,
                 fragment.localThumbnailImage, fragment.playbackStartTime, fragment.playbackEndTime,
                 fragment.assetDuration, fragment.minPlaybackDuration, fragment.maxPlaybackDuration)
  }

  /** `init(croppedURL:originalFragment:)`: a user recording at the cropped file. */
  function Cropped(croppedURL: Url, originalFragment: FragmentHost): (r: FragmentHost)
    ensures r.assetInfo == UserRecorded(croppedURL)
    ensures r.volume == originalFragment.volume
    ensures r.playbackStartTime == originalFragment.playbackStartTime
    ensures r.playbackEndTime == originalFragment.playbackEndTime
    ensures r.assetDuration == originalFragment.assetDuration
    ensures r.minPlaybackDuration == originalFragment.minPlaybackDuration
    ensures r.maxPlaybackDuration == originalFragment.maxPlaybackDuration
    ensures r.localThumbnailImage.None? && !r.isRecordPlaceholder
    ensures WindowInvariant(r) <==> WindowInvariant(originalFragment)
  {
    FragmentHost(UserRecorded(croppedURL), originalFragment.volume, false, None,
                 originalFragment.playbackStartTime, originalFragment.playbackEndTime,
                 originalFragment.assetDuration, originalFragment.minPlaybackDuration,
                 originalFragment.maxPlaybackDuration)
  }

  function PlaybackDuration(f: FragmentHost): (d: Time)
    ensures f.playbackStartTime + d == f.playbackEndTime
  {
    f.playbackEndTime - f.playbackStartTime
  }

  /** `startTimeIsValid(time:)`: `time` could start the window that ends at the current end. */
  predicate StartTimeIsValid(f: FragmentHost, time: Time)
  {
    time >= 0 && f.assetDuration >= time && f.playbackEndTime >= time
    && f.playbackEndTime - time >= f.minPlaybackDuration
  }

  /** `endTimeIsValid(time:)`: `time` could end the window that starts at the current start. */
  predicate EndTimeIsValid(f: FragmentHost, time: Time)
  {
    time >= 0 && f.assetDuration >= time && time >= f.playbackStartTime
    && time - f.playbackStartTime >= f.minPlaybackDuration
  }

  /** `startEndTimePairIsValid(startTime:endTime:)`. */
  predicate StartEndTimePairIsValid(f: FragmentHost, startTime: Time, endTime: Time)
  {
    startTime >= 0 && f.assetDuration >= endTime && endTime >= startTime
    && endTime - startTime >= f.minPlaybackDuration
  }

  /** A pair is valid exactly when it would satisfy the window invariant. */
  lemma PairValidIffWindow(f: FragmentHost, s: Time, e: Time)
    ensures StartEndTimePairIsValid(f, s, e)
        <==> WindowInvariant(f.(playbackStartTime := s, playbackEndTime := e))
  {
  }

  /** The pair check never looks at `maxPlaybackDuration`. */
  lemma PairValidIgnoresMax(f: FragmentHost, s: Time, e: Time, m: Limit)
    ensures StartEndTimePairIsValid(f.(maxPlaybackDuration := m), s, e) == StartEndTimePairIsValid(f, s, e)
  {
  }

  /** The single-end checks agree with the pair check against the other, current end. */
  lemma SingleEndChecksAgreeWithPair(f: FragmentHost, t: Time)
    requires 0 <= f.playbackStartTime <= f.playbackEndTime <= f.assetDuration
    ensures StartTimeIsValid(f, t) == StartEndTimePairIsValid(f, t, f.playbackEndTime)
    ensures EndTimeIsValid(f, t) == StartEndTimePairIsValid(f, f.playbackStartTime, t)
  {
  }

  /** Within the asset, a start passes its check exactly when moving the start there leaves a well-formed window. */
  lemma StartValidIffWindow(f: FragmentHost, t: Time)
    requires f.playbackEndTime <= f.assetDuration
    ensures StartTimeIsValid(f, t) <==> WindowInvariant(f.(playbackStartTime := t))
  {
  }

  /** From a start at or after zero, an end passes its check exactly when moving the end there leaves a well-formed window. */
  lemma EndValidIffWindow(f: FragmentHost, t: Time)
    requires 0 <= f.playbackStartTime
    ensures EndTimeIsValid(f, t) <==> WindowInvariant(f.(playbackEndTime := t))
  {
  }

  /**
   * `setPlaybackTimes(startTime:endTime:)`: a nil argument keeps the current
   * value; the resulting pair is applied only when it is valid. The change
   * announcement that follows in either case is not modelled.
   */
  function SetPlaybackTimes(f: FragmentHost, startTime: Option<Time>, endTime: Option<Time>): (r: FragmentHost)
    ensures var s := if startTime.Some? then startTime.value else f.playbackStartTime;
            var e := if endTime.Some? then endTime.value else f.playbackEndTime;
            (StartEndTimePairIsValid(f, s, e) ==> r.playbackStartTime == s && r.playbackEndTime == e)
            && (!StartEndTimePairIsValid(f, s, e) ==> r == f)
    ensures r == f.(playbackStartTime := r.playbackStartTime, playbackEndTime := r.playbackEndTime)
  {
    var s := startTime.GetOr(f.playbackStartTime);
    var e := endTime.GetOr(f.playbackEndTime);
    if StartEndTimePairIsValid(f, s, e) then
      f.(playbackStartTime := s, playbackEndTime := e)
    else
      f
  }

  /** Once the window invariant holds, every later edit keeps it. */
  lemma SetPlaybackTimesPreservesWindow(f: FragmentHost, startTime: Option<Time>, endTime: Option<Time>)
    requires WindowInvariant(f)
    ensures WindowInvariant(SetPlaybackTimes(f, startTime, endTime))
  {
  }

  /** A valid pair is always accepted, whatever state the fragment was in. */
  lemma SetPlaybackTimesAcceptsValidPair(f: FragmentHost, s: Time, e: Time)
    requires StartEndTimePairIsValid(f, s, e)
    ensures var r := SetPlaybackTimes(f, Some(s), Some(e));
            r.playbackStartTime == s && r.playbackEndTime == e && WindowInvariant(r)
  {
  }

  /** Asset time to time since the start of the window. */
  function TranslateToPlaybackTime(f: FragmentHost, assetTime: Time): (p: Time)
    ensures f.playbackStartTime + p == assetTime
  {
    assetTime - f.playbackStartTime
  }

  /** Time since the start of the window to asset time. */
  function TranslateToAssetTime(f: FragmentHost, playbackTime: Time): (a: Time)
    ensures a - f.playbackStartTime == playbackTime
  {
    f.playbackStartTime + playbackTime
  }

  lemma TranslationsAreInverse(f: FragmentHost, t: Time)
    ensures TranslateToAssetTime(f, TranslateToPlaybackTime(f, t)) == t
    ensures TranslateToPlaybackTime(f, TranslateToAssetTime(f, t)) == t
  {
  }
}
