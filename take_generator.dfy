/**
 * Cuts one continuous recording into takes: one export interval per loop
 * start time, padded where the recording allows, then copied out
 * (OpenCollab/Sources/RecordingSupport/TakeGenerator.swift).
 */
module TakeGeneratorModel {
  import opened Wrappers
  import opened Extensions
  import opened AssetInfoModel
  import opened FragmentHostModel
  import opened AssetComposerModel
  import opened AssetCopierModel

  /** `recordingFrameErrorPadding`: 60/600 s of slack for frame rounding. */
  const RecordingFrameErrorPadding: Time := 60

  /** The inputs every iteration of `calculateExportInfos` shares. */
  datatype ExportRule = ExportRule(url: Url, recordStartTime: Time, durationPadding: Time,
                                   takeDuration: Time, recordedTimeRange: TimeRange)

  /** Where in the recording an export's take begins. */
  function TakeStart(e: ExportInfo): Time
  {
    e.exportStartTime + e.fragment.playbackStartTime
  }

  /** What an emitted export promises about the recording it is cut from. */
  predicate ExportIsSound(rule: ExportRule, startTime: Time, e: ExportInfo)
  {
    && startTime >= rule.recordStartTime
    && rule.recordedTimeRange.start <= e.exportStartTime
    && e.exportEndTime <= rule.recordedTimeRange.End()
    && TakeStart(e) == startTime - rule.recordStartTime
    && e.exportStartTime <= TakeStart(e)
    && TakeStart(e) + rule.takeDuration <= e.exportEndTime
    && 0 <= e.fragment.playbackStartTime
    && e.fragment.playbackEndTime - e.fragment.playbackStartTime == rule.takeDuration
    && e.fragment.playbackEndTime <= e.exportEndTime - e.exportStartTime
    && e.fragment.assetInfo == UserRecorded(rule.url)
    && e.fragment.assetDuration == rule.takeDuration
  }

  /**
   * One iteration of the loop in `calculateExportInfos` for the loop time
   * `startTime`: `None` where the loop `continue`s.
   */
  function ExportFor(rule: ExportRule, startTime: Time): (r: Option<ExportInfo>)
    ensures r.Some? ==> ExportIsSound(rule, startTime, r.value)
  {
    var range := rule.recordedTimeRange;
    if startTime < rule.recordStartTime then None
    else
      var takeStartTime := startTime - rule.recordStartTime;
      var takeEndTime := takeStartTime + rule.takeDuration;
      if takeStartTime < range.start || range.End() < takeEndTime then None
      else
        // The frame padding first, then the editing padding, each on a side only where it still fits.
        var roundedStart := if takeStartTime - RecordingFrameErrorPadding >= range.start
                            then takeStartTime - RecordingFrameErrorPadding else takeStartTime;
        var roundedEnd := if range.End() >= takeEndTime + RecordingFrameErrorPadding
                          then takeEndTime + RecordingFrameErrorPadding else takeEndTime;
        var exportStartTime := if roundedStart - rule.durationPadding >= range.start
                               then roundedStart - rule.durationPadding else roundedStart;
        var exportEndTime := if range.End() >= roundedEnd + rule.durationPadding
                             then roundedEnd + rule.durationPadding else roundedEnd;
        var playbackStartTime := takeStartTime - exportStartTime;
        var playbackEndTime := playbackStartTime + rule.takeDuration;
        var fragment := Init(UserRecorded(rule.url), 1.0, rule.takeDuration, Some(playbackEndTime),
                             Some(playbackStartTime), Zero, PositiveInfinity);
        if !RangeIsValid(TimeRange(0, exportEndTime - exportStartTime), playbackStartTime, playbackEndTime) then None
        else if !RangeIsValid(range, exportStartTime, exportEndTime) then None
        else Some(ExportInfo(fragment, exportStartTime, exportEndTime))
  }

  /**
   * With a non-negative take length and padding the two closing range checks
   * never reject: a take is emitted exactly when its loop time is not before
   * the recording start and the unpadded take lies inside the recorded range.
   */
  lemma ExportForAcceptsEveryTakeInsideRecording(rule: ExportRule, startTime: Time)
    requires rule.takeDuration >= 0 && rule.durationPadding >= 0
    ensures ExportFor(rule, startTime).Some? <==>
              && startTime >= rule.recordStartTime
              && rule.recordedTimeRange.start <= startTime - rule.recordStartTime
              && startTime - rule.recordStartTime + rule.takeDuration <= rule.recordedTimeRange.End()
  {
  }

  /** With room on both sides, the export is the take widened by the frame padding and the editing padding. */
  lemma ExportForPadsBothSidesWhenThereIsRoom(rule: ExportRule, startTime: Time)
    requires rule.takeDuration >= 0 && rule.durationPadding >= 0
    requires startTime >= rule.recordStartTime
    requires rule.recordedTimeRange.start
               <= startTime - rule.recordStartTime - RecordingFrameErrorPadding - rule.durationPadding
    requires startTime - rule.recordStartTime + rule.takeDuration + RecordingFrameErrorPadding + rule.durationPadding
               <= rule.recordedTimeRange.End()
    ensures ExportFor(rule, startTime).Some?
    ensures ExportFor(rule, startTime).value.exportStartTime
              == startTime - rule.recordStartTime - RecordingFrameErrorPadding - rule.durationPadding
    ensures ExportFor(rule, startTime).value.exportEndTime
              == startTime - rule.recordStartTime + rule.takeDuration + RecordingFrameErrorPadding + rule.durationPadding
    ensures ExportFor(rule, startTime).value.fragment.playbackStartTime == RecordingFrameErrorPadding + rule.durationPadding
  {
  }

  function OptionToSeq<T>(o: Option<T>): (s: seq<T>)
    ensures |s| <= 1
  {
    if o.Some? then [o.value] else []
  }

  /** The exports for the loop times `times`, in their order. */
  function Exports(rule: ExportRule, times: seq<Time>): (r: seq<ExportInfo>)
    decreases |times|
  {
    if |times| == 0 then []
    else Exports(rule, times[..|times| - 1]) + OptionToSeq(ExportFor(rule, times[|times| - 1]))
  }

  /** Every loop time but the last starts a take (the last one only ends the take before it). */
  function Candidates(startTimes: seq<Time>): (c: seq<Time>)
    ensures |startTimes| > 0 ==> |c| == |startTimes| - 1
    ensures |c| <= |startTimes|
    ensures forall i :: 0 <= i < |c| ==> c[i] == startTimes[i]
  {
    if |startTimes| == 0 then [] else startTimes[..|startTimes| - 1]
  }

  /** At most one export per loop time. */
  lemma {:induction false} ExportsAtMostOnePerTime(rule: ExportRule, times: seq<Time>)
    ensures |Exports(rule, times)| <= |times|
    decreases |times|
  {
    if |times| > 0 {
      ExportsAtMostOnePerTime(rule, times[..|times| - 1]);
    }
  }

  predicate Sorted(s: seq<Time>)
  {
    forall i, j :: 0 <= i < j < |s| ==> s[i] <= s[j]
  }

  /**
   * Each export comes from one of the loop times, and for ascending loop
   * times the takes come out in ascending order.
   */
  lemma {:induction false} ExportsFollowTimes(rule: ExportRule, times: seq<Time>)
    ensures forall k :: 0 <= k < |Exports(rule, times)| ==>
              exists j :: 0 <= j < |times| && ExportFor(rule, times[j]) == Some(Exports(rule, times)[k])
    ensures Sorted(times) ==> forall i, k :: 0 <= i < k < |Exports(rule, times)| ==>
              TakeStart(Exports(rule, times)[i]) <= TakeStart(Exports(rule, times)[k])
    decreases |times|
  {
    if |times| > 0 {
      var prefix := times[..|times| - 1];
      var last := times[|times| - 1];
      ExportsFollowTimes(rule, prefix);
      var before := Exports(rule, prefix);
      var all := Exports(rule, times);
      assert all == before + OptionToSeq(ExportFor(rule, last));
      forall k | 0 <= k < |all|
        ensures exists j :: 0 <= j < |times| && ExportFor(rule, times[j]) == Some(all[k])
      {
        if k < |before| {
          var j :| 0 <= j < |prefix| && ExportFor(rule, prefix[j]) == Some(before[k]);
          assert times[j] == prefix[j];
        } else {
          var j := |times| - 1;
          assert ExportFor(rule, times[j]) == Some(all[k]);
        }
      }
      assert forall k :: 0 <= k < |all| ==>
               exists j :: 0 <= j < |times| && ExportFor(rule, times[j]) == Some(all[k]);
      if Sorted(times) {
        assert Sorted(prefix);
      }
      if Sorted(times) && |all| > |before| {
        var e := all[|all| - 1];
        assert ExportFor(rule, last) == Some(e);
        forall i | 0 <= i < |before|
          ensures TakeStart(before[i]) <= TakeStart(e)
        {
          var j :| 0 <= j < |prefix| && ExportFor(rule, prefix[j]) == Some(before[i]);
          assert prefix[j] == times[j] && times[j] <= last;
        }
      }
    } else {
      assert Exports(rule, times) == [];
    }
  }

  /** Every export lies inside the recorded range and contains its whole take. */
  lemma ExportsAreWithinRecording(rule: ExportRule, times: seq<Time>)
    ensures forall k :: 0 <= k < |Exports(rule, times)| ==>
              exists j :: 0 <= j < |times| && ExportIsSound(rule, times[j], Exports(rule, times)[k])
  {
    ExportsFollowTimes(rule, times);
    forall k | 0 <= k < |Exports(rule, times)|
      ensures exists j :: 0 <= j < |times| && ExportIsSound(rule, times[j], Exports(rule, times)[k])
    {
      var j :| 0 <= j < |times| && ExportFor(rule, times[j]) == Some(Exports(rule, times)[k]);
      assert ExportIsSound(rule, times[j], Exports(rule, times)[k]);
    }
  }

  /**
   * The branch of `generate` without a take length: a single export from
   * the end of the countdown to just before the end of the recording.
   */
  function SingleTakeExport(url: Url, timeRange: TimeRange, countDownTime: Time): (e: ExportInfo)
    ensures e.exportStartTime == timeRange.start + countDownTime
    ensures e.exportEndTime == timeRange.End() - RecordingFrameErrorPadding
    ensures e.fragment.assetInfo == UserRecorded(url)
    ensures e.fragment.assetDuration == e.exportEndTime - e.exportStartTime
    ensures e.fragment.playbackStartTime == 0 && e.fragment.playbackEndTime == e.fragment.assetDuration
  {
    var exportStartTime := timeRange.start + countDownTime;
    var exportEndTime := timeRange.End() - RecordingFrameErrorPadding;
    ExportInfo(InitWithDefaults(UserRecorded(url), exportEndTime - exportStartTime), exportStartTime, exportEndTime)
  }

  /** What the delegate hears at the end of `generateTakes`. */
  datatype GenerationOutcome = TakeGenerationFailed | GeneratedFragments(fragments: seq<FragmentHost>)

  class TakeGenerator {
    const url: Url
    const takeDuration: Option<Time>
    const durationPadding: Time
    const recordStartTime: Time
    const startTimes: seq<Time>
    /** The countdown, already in ticks. */
    const countDownTime: Time

    constructor (url: Url, takeDuration: Option<Time>, durationPadding: Time, recordStartTime: Time,
                 startTimes: seq<Time>, countDownTime: Time)
      ensures this.url == url && this.takeDuration == takeDuration && this.durationPadding == durationPadding
      ensures this.recordStartTime == recordStartTime && this.startTimes == startTimes
      ensures this.countDownTime == countDownTime
    {
      this.url := url;
      this.takeDuration := takeDuration;
      this.durationPadding := durationPadding;
      this.recordStartTime := recordStartTime;
      this.startTimes := startTimes;
      this.countDownTime := countDownTime;
    }

    function Rule(sourceURL: Url, recordedTimeRange: TimeRange, duration: Time): ExportRule
    {
      ExportRule(sourceURL, recordStartTime, durationPadding, duration, recordedTimeRange)
    }

    /** One pass of the loop of `calculateExportInfos`: the export for the loop time `startTime`, if its take fits. */
    method ExportAt(sourceURL: Url, recordedTimeRange: TimeRange, duration: Time, startTime: Time)
      returns (r: Option<ExportInfo>)
      ensures r == ExportFor(Rule(sourceURL, recordedTimeRange, duration), startTime)
    {
      if startTime < recordStartTime {
        return None;
      }
      var takeStartTime := startTime - recordStartTime;
      var takeEndTime := takeStartTime + duration;
      var exportStartTime := takeStartTime;
      var exportEndTime := takeEndTime;
      if exportStartTime < recordedTimeRange.start {
        return None;
      }
      if recordedTimeRange.End() < exportEndTime {
        return None;
      }
      var roundedStartTime := takeStartTime - RecordingFrameErrorPadding;
      if roundedStartTime >= recordedTimeRange.start {
        exportStartTime := roundedStartTime;
      }
      var roundedEndTime := takeEndTime + RecordingFrameErrorPadding;
      if recordedTimeRange.End() >= roundedEndTime {
        exportEndTime := roundedEndTime;
      }
      var bufferedStartTime := exportStartTime - durationPadding;
      if bufferedStartTime >= recordedTimeRange.start {
        exportStartTime := bufferedStartTime;
      }
      var bufferedEndTime := exportEndTime + durationPadding;
      if recordedTimeRange.End() >= bufferedEndTime {
        exportEndTime := bufferedEndTime;
      }
      var playbackStartTime := takeStartTime - exportStartTime;
      var playbackEndTime := playbackStartTime + duration;
      var fragmentInfo := Init(UserRecorded(sourceURL), 1.0, duration, Some(playbackEndTime),
                               Some(playbackStartTime), Zero, PositiveInfinity);
      var exportInfo := ExportInfo(fragmentInfo, exportStartTime, exportEndTime);
      var exportedDuration := exportEndTime - exportStartTime;
      if !RangeIsValid(TimeRange(0, exportedDuration), playbackStartTime, playbackEndTime) {
        return None;
      }
      if !RangeIsValid(recordedTimeRange, exportStartTime, exportEndTime) {
        return None;
      }
      return Some(exportInfo);
    }

    /** `calculateExportInfos`: one export per loop time but the last, for those whose take fits the recording. */
    method CalculateExportInfos(sourceURL: Url, recordedTimeRange: TimeRange, duration: Time)
      returns (exportInfos: seq<ExportInfo>)
      ensures exportInfos == Exports(Rule(sourceURL, recordedTimeRange, duration), Candidates(startTimes))
    {
      ghost var rule := Rule(sourceURL, recordedTimeRange, duration);
      exportInfos := [];
      var index := 0;
      while index < |startTimes|
        invariant 0 <= index <= |startTimes|
        invariant |startTimes| > 0 ==> index <= |startTimes| - 1
        invariant exportInfos == Exports(rule, startTimes[..index])
      {
        var nextIndex := index + 1;
        if nextIndex >= |startTimes| {
          break;
        }
        var startTime := startTimes[index];
        assert startTimes[..index + 1][..index] == startTimes[..index];
        assert startTimes[..index + 1][index] == startTime;
        var exportInfo := ExportAt(sourceURL, recordedTimeRange, duration, startTime);
        if exportInfo.Some? {
          exportInfos := exportInfos + [exportInfo.value];
        }
        index := index + 1;
      }
      if |startTimes| > 0 {
        assert index == |startTimes| - 1;
      }
    }

    /** The export list `generate` hands to the copier for the common range of the recording. */
    method ExportInfosFor(timeRange: TimeRange) returns (exportInfos: seq<ExportInfo>)
      ensures exportInfos == ExportsFor(timeRange)
    {
      if takeDuration.None? {
        exportInfos := [SingleTakeExport(url, timeRange, countDownTime)];
      } else {
        exportInfos := CalculateExportInfos(url, timeRange, takeDuration.value);
      }
    }

    /** The take exports for the recording's common range `timeRange`. */
    function ExportsFor(timeRange: TimeRange): seq<ExportInfo>
    {
      if takeDuration.None? then [SingleTakeExport(url, timeRange, countDownTime)]
      else Exports(Rule(url, timeRange, takeDuration.value), Candidates(startTimes))
    }

    /**
     * What `generateTakes` reports: failure without both tracks or when any
     * copy fails, otherwise every copied take in export order.
     */
    function ExpectedOutcome(videoTrack: Option<TimeRange>, audioTrack: Option<TimeRange>,
                             copies: CopyKey -> Option<Url>): GenerationOutcome
    {
      if videoTrack.None? || audioTrack.None? then TakeGenerationFailed
      else
        var exports := ExportsFor(CommonRange(audioTrack.value, [audioTrack.value, videoTrack.value]));
        if AllSucceed(exports, copies) then GeneratedFragments(Outcomes(exports, copies))
        else TakeGenerationFailed
    }

    /**
     * `generateTakes`: finds the common range of the recording's tracks,
     * builds the exports and copies them. `copies` stands for the outcome of
     * each copy.
     */
    method GenerateTakes(videoTrack: Option<TimeRange>, audioTrack: Option<TimeRange>,
                         copies: CopyKey -> Option<Url>) returns (outcome: GenerationOutcome)
      ensures outcome == ExpectedOutcome(videoTrack, audioTrack, copies)
      ensures outcome.GeneratedFragments? ==>
                |outcome.fragments| == |ExportsFor(CommonRange(audioTrack.value, [audioTrack.value, videoTrack.value]))|
    {
      var timeRange := GetAccurateAssetTimeRange(videoTrack, audioTrack);
      if timeRange.None? {
        return TakeGenerationFailed;
      }
      var exportInfos := ExportInfosFor(timeRange.value);
      var copier := new AssetCopier(exportInfos);
      var fragments := copier.StartCopy(copies);
      if fragments.None? {
        return TakeGenerationFailed;
      }
      outcome := GeneratedFragments(CompactMap(fragments.value));
    }
  }
}
