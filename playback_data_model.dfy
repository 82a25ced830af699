/**
 * The fragments a creation session can choose from and the ones chosen
 * (OpenCollab/Sources/Models/PlaybackDataModel.swift).
 */
module PlaybackData {
  import opened Wrappers
  import opened Extensions
  import opened AssetInfoModel
  import opened FragmentHostModel

  /** The delegate callbacks, in the order they were made. */
  datatype Notification = AvailableFragmentsChanged | SelectedFragmentsChanged

  /**
   * `combinedFragments`: the order fragments are served to the UI, the
   * record placeholder first, then the takes newest first, then the pool.
   */
  function CombinedFragments(recordFragment: Option<FragmentHost>, takeFragments: seq<FragmentHost>,
                             poolFragments: seq<FragmentHost>): (r: seq<FragmentHost>)
    ensures var k := if recordFragment.Some? then 1 else 0;
            |r| == k + |takeFragments| + |poolFragments|
            && (recordFragment.Some? ==> r[0] == recordFragment.value)
            && r[k..k + |takeFragments|] == Reversed(takeFragments)
            && r[k + |takeFragments|..] == poolFragments
  {
    (if recordFragment.Some? then [recordFragment.value] else []) + Reversed(takeFragments) + poolFragments
  }

  function Reversed<T>(s: seq<T>): (r: seq<T>)
    ensures |r| == |s|
    ensures forall i :: 0 <= i < |s| ==> r[i] == s[|s| - 1 - i]
  {
    if s == [] then [] else Reversed(s[1..]) + [s[0]]
  }

  /**
   * The match `getSelectedIndex` looks for: the placeholder by its flag, a
   * user recording by its URL, a downloaded fragment by its id, anything
   * else never.
   */
  predicate SameClip(selected: FragmentHost, candidate: FragmentHost)
  {
    if selected.isRecordPlaceholder then candidate.isRecordPlaceholder
    else if IsUserRecorded(selected.assetInfo) then
      UserRecordedURL(selected.assetInfo) == UserRecordedURL(candidate.assetInfo)
    else if DownloadedFragmentOf(selected.assetInfo).Some? then
      DownloadedFragmentOf(candidate.assetInfo).Some?
      && DownloadedFragmentOf(candidate.assetInfo).value.id == selected.assetInfo.fragment.id
    else false
  }

  /** `firstIndex(where:)` with `SameClip(selected, _)`. */
  function FirstMatch(selected: FragmentHost, fragments: seq<FragmentHost>): (r: Option<nat>)
    ensures r.Some? ==> r.value < |fragments| && SameClip(selected, fragments[r.value])
                        && forall j :: 0 <= j < r.value ==> !SameClip(selected, fragments[j])
    ensures r.None? ==> forall j :: 0 <= j < |fragments| ==> !SameClip(selected, fragments[j])
  {
    if fragments == [] then None
    else if SameClip(selected, fragments[0]) then Some(0)
    else
      match FirstMatch(selected, fragments[1..])
      case None => None
      case Some(i) => Some(i + 1)
  }

  /** A fragment that is neither placeholder, recording nor download is found nowhere. */
  lemma EmptyClipNeverMatches(selected: FragmentHost, fragments: seq<FragmentHost>)
    requires !selected.isRecordPlaceholder && selected.assetInfo == Empty
    ensures FirstMatch(selected, fragments) == None
  {
  }

  class PlaybackDataModel {
    var recordFragment: Option<FragmentHost>
    var poolFragments: seq<FragmentHost>
    var takeFragments: seq<FragmentHost>
    var selectedFragments: seq<FragmentHost>
    var canNotify: bool
    var duration: Time
    /** Whether the session edits an existing collab (`collab != nil`); `isCFS` is its negation. */
    var hasCollab: bool
    var notifications: seq<Notification>

    /** `init(from:)`: one take, selected, trimmable over the whole recording. */
    constructor FromRecording(recordingFragment: FragmentHost)
      ensures var f := Init(recordingFragment.assetInfo, recordingFragment.volume,
                            recordingFragment.assetDuration, Some(recordingFragment.assetDuration),
                            Some(Zero), MinFragmentDuration, Finite(MaxFragmentDuration));
              selectedFragments == [f] && takeFragments == [f]
      ensures selectedFragments[0].playbackStartTime == 0
      ensures selectedFragments[0].playbackEndTime == recordingFragment.assetDuration
      ensures duration == recordingFragment.assetDuration
      ensures recordFragment == None && poolFragments == [] && canNotify && !hasCollab
      ensures notifications == []
    {
      var f := Init(recordingFragment.assetInfo, recordingFragment.volume,
                    recordingFragment.assetDuration, Some(recordingFragment.assetDuration),
                    Some(Zero), MinFragmentDuration, Finite(MaxFragmentDuration));
      recordFragment := None;
      poolFragments := [];
      selectedFragments := [f];
      takeFragments := [f];
      canNotify := true;
      duration := recordingFragment.assetDuration;
      hasCollab := false;
      notifications := [];
    }

    /** `init(from: cameraRollVideo)`: the asset's duration is read from the file, here a parameter. */
    constructor FromCameraRollVideo(cameraRollVideo: Url, assetDuration: Time)
      ensures var f := Init(UserRecorded(cameraRollVideo), 1.0, assetDuration, Some(assetDuration),
                            Some(Zero), MinFragmentDuration, Finite(MaxFragmentDuration));
              selectedFragments == [f] && takeFragments == [f]
      ensures duration == assetDuration
      ensures recordFragment == None && poolFragments == [] && canNotify && !hasCollab
      ensures notifications == []
    {
      var f := Init(UserRecorded(cameraRollVideo), 1.0, assetDuration, Some(assetDuration),
                    Some(Zero), MinFragmentDuration, Finite(MaxFragmentDuration));
      recordFragment := None;
      poolFragments := [];
      selectedFragments := [f];
      takeFragments := [f];
      canNotify := true;
      duration := assetDuration;
      hasCollab := false;
      notifications := [];
    }

    /** `init(trimmerModel:)`: `minClipsPerCollab` copies of the trimmed take. */
    constructor FromTrimmerModel(trimmerModel: PlaybackDataModel)
      requires |trimmerModel.selectedFragments| > 0
      ensures |selectedFragments| == MinClipsPerCollab
      ensures forall i :: 0 <= i < |selectedFragments| ==>
                selectedFragments[i] == Copy(trimmerModel.selectedFragments[0])
      ensures takeFragments == [selectedFragments[0]]
      ensures duration == trimmerModel.duration
      ensures recordFragment == None && poolFragments == [] && canNotify && !hasCollab
      ensures notifications == []
    {
      var recordedFragment := trimmerModel.selectedFragments[0];
      var selected: seq<FragmentHost> := [];
      var n := 1;
      while n <= MinClipsPerCollab
        invariant 1 <= n <= MinClipsPerCollab + 1
        invariant |selected| == n - 1
        invariant forall i :: 0 <= i < |selected| ==> selected[i] == Copy(recordedFragment)
      {
        selected := selected + [Copy(recordedFragment)];
        n := n + 1;
      }
      recordFragment := None;
      poolFragments := [];
      selectedFragments := selected;
      takeFragments := [selected[0]];
      canNotify := true;
      duration := trimmerModel.duration;
      hasCollab := false;
      notifications := [];
    }

    function IsCFS(): bool
      reads this
    {
      !hasCollab
    }

    /** Assigning `selectedFragments` notifies only while `canNotify` is set. */
    method SetSelectedFragments(fragments: seq<FragmentHost>)
      modifies this`selectedFragments, this`notifications
      ensures selectedFragments == fragments
      ensures notifications == old(notifications) + (if canNotify then [SelectedFragmentsChanged] else [])
    {
      selectedFragments := fragments;
      if canNotify {
        notifications := notifications + [SelectedFragmentsChanged];
      }
    }

    method SetCanNotify(enabled: bool)
      modifies this`canNotify
      ensures canNotify == enabled
    {
      canNotify := enabled;
    }

    method SetRecordFragment(fragment: Option<FragmentHost>)
      modifies this`recordFragment
      ensures recordFragment == fragment
    {
      recordFragment := fragment;
    }

    /** `addTakeFragments(fragments:)`: appended in order, then one availability notification. */
    method AddTakeFragments(fragments: seq<FragmentHost>)
      modifies this`takeFragments, this`notifications
      ensures takeFragments == old(takeFragments) + fragments
      ensures notifications == old(notifications) + [AvailableFragmentsChanged]
    {
      takeFragments := takeFragments + fragments;
      notifications := notifications + [AvailableFragmentsChanged];
    }

    method BuildCombinedFragments() returns (combined: seq<FragmentHost>)
      ensures combined == CombinedFragments(recordFragment, takeFragments, poolFragments)
      ensures |combined| == (if recordFragment.Some? then 1 else 0) + |takeFragments| + |poolFragments|
    {
      combined := CombinedFragments(recordFragment, takeFragments, poolFragments);
    }

    /**
     * `getSelectedIndex(rank:)`: the first position in the combined order
     * holding the clip selected at `rank`, nil for an unknown rank or clip.
     */
    method GetSelectedIndex(rank: nat) returns (index: Option<nat>)
      ensures rank >= |selectedFragments| ==> index == None
      ensures index.Some? ==>
                rank < |selectedFragments|
                && index.value < |CombinedFragments(recordFragment, takeFragments, poolFragments)|
                && SameClip(selectedFragments[rank], CombinedFragments(recordFragment, takeFragments, poolFragments)[index.value])
                && forall j :: 0 <= j < index.value ==>
                     !SameClip(selectedFragments[rank], CombinedFragments(recordFragment, takeFragments, poolFragments)[j])
      ensures rank < |selectedFragments| && index == None ==>
                forall j :: 0 <= j < |CombinedFragments(recordFragment, takeFragments, poolFragments)| ==>
                  !SameClip(selectedFragments[rank], CombinedFragments(recordFragment, takeFragments, poolFragments)[j])
    {
      if rank >= |selectedFragments| {
        return None;
      }
      var combined := BuildCombinedFragments();
      index := FirstMatch(selectedFragments[rank], combined);
    }

    /** What `randomClip()` can answer: nothing exactly when there are no takes and no pool, otherwise one of them. */
    predicate IsRandomClip(clip: Option<FragmentHost>)
      reads this`takeFragments, this`poolFragments
    {
      && (clip.None? <==> takeFragments == [] && poolFragments == [])
      && (clip.Some? ==> clip.value in takeFragments + poolFragments)
    }

    /**
     * `randomClip()`: a clip drawn from the takes and the pool. The random
     * draw is the parameter `draw`.
     */
    method RandomClip(draw: nat) returns (clip: Option<FragmentHost>)
      ensures IsRandomClip(clip)
    {
      var candidates := takeFragments + poolFragments;
      if |candidates| == 0 {
        return None;
      }
      clip := Some(candidates[draw % |candidates|]);
    }

    /**
     * `adjustTrimTimes(trimRange:of:)`: the selected fragment takes the range
     * if it is valid for it, and `duration` becomes the range's length in
     * either case.
     */
    method AdjustTrimTimes(lowerBound: Time, upperBound: Time, fragmentIndex: nat)
      requires lowerBound <= upperBound
      requires fragmentIndex < |selectedFragments|
      modifies this`selectedFragments, this`notifications, this`duration
      ensures selectedFragments == old(selectedFragments)[fragmentIndex :=
                SetPlaybackTimes(old(selectedFragments)[fragmentIndex], Some(lowerBound), Some(upperBound))]
      ensures duration == upperBound - lowerBound
      ensures notifications == old(notifications) + (if canNotify then [SelectedFragmentsChanged] else [])
    {
      var fragment := selectedFragments[fragmentIndex];
      fragment := SetPlaybackTimes(fragment, Some(lowerBound), Some(upperBound));
      SetSelectedFragments(selectedFragments[fragmentIndex := fragment]);
      duration := upperBound - lowerBound;
    }
  }
}
