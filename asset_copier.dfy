/**
 * Copies the recorded intervals of one take recording into their own files,
 * one export after another, reusing a copy already under way for the same
 * interval (OpenCollab/Sources/RecordingSupport/AssetCopier.swift).
 */
module AssetCopierModel {
  import opened Wrappers
  import opened Extensions
  import opened AssetInfoModel
  import opened FragmentHostModel

  /** `ExportInfo`: the fragment to produce and the interval of the source to copy for it. */
  datatype ExportInfo = ExportInfo(fragment: FragmentHost, exportStartTime: Time, exportEndTime: Time)

  /** `cacheKey`: an in-flight copy is identified by its interval and source URL. */
  datatype CopyKey = CopyKey(startTime: Time, endTime: Time, url: Url)

  /** The copy an export needs, or `None` when its asset is not a user recording. */
  function KeyOf(e: ExportInfo): (k: Option<CopyKey>)
    ensures k.Some? <==> e.fragment.assetInfo.UserRecorded?
    ensures k.Some? ==> k.value == CopyKey(e.exportStartTime, e.exportEndTime, e.fragment.assetInfo.url)
  {
    match e.fragment.assetInfo
    case UserRecorded(url) => Some(CopyKey(e.exportStartTime, e.exportEndTime, url))
    case _ => None
  }

  /** The fragment built once export `e` has been copied to `copiedURL`. */
  function CopiedFragment(e: ExportInfo, copiedURL: Url): (f: FragmentHost)
    ensures f.assetInfo == UserRecorded(copiedURL)
    ensures f.assetDuration == e.exportEndTime - e.exportStartTime
    ensures f.volume == e.fragment.volume
    ensures f.playbackStartTime == e.fragment.playbackStartTime
    ensures f.playbackEndTime == e.fragment.playbackEndTime
  {
    Init(UserRecorded(copiedURL), e.fragment.volume, e.exportEndTime - e.exportStartTime,
         Some(e.fragment.playbackEndTime), Some(e.fragment.playbackStartTime), Zero, PositiveInfinity)
  }

  /**
   * What one export yields. `copies` gives the outcome of copying an interval
   * (`None` for a failed copy); a reused copy has the same outcome as the first.
   */
  function Outcome(e: ExportInfo, copies: CopyKey -> Option<Url>): (r: Option<FragmentHost>)
    ensures !e.fragment.assetInfo.UserRecorded? ==> r == Some(e.fragment)
    ensures e.fragment.assetInfo.UserRecorded? ==>
              match copies(KeyOf(e).value)
              case None => r.None?
              case Some(url) => r == Some(CopiedFragment(e, url))
  {
    match KeyOf(e)
    case None => Some(e.fragment)
    case Some(key) =>
      match copies(key)
      case None => None
      case Some(url) => Some(CopiedFragment(e, url))
  }

  predicate AllSucceed(exports: seq<ExportInfo>, copies: CopyKey -> Option<Url>)
  {
    forall i :: 0 <= i < |exports| ==> Outcome(exports[i], copies).Some?
  }

  /** The fragments of a run in which every copy succeeds, in export order. */
  function Outcomes(exports: seq<ExportInfo>, copies: CopyKey -> Option<Url>): (r: seq<FragmentHost>)
    requires AllSucceed(exports, copies)
    ensures |r| == |exports|
    ensures forall i :: 0 <= i < |exports| ==> Some(r[i]) == Outcome(exports[i], copies)
    decreases |exports|
  {
    if |exports| == 0 then []
    else Outcomes(exports[..|exports| - 1], copies) + [Outcome(exports[|exports| - 1], copies).value]
  }

  /** How many exports are inserted rather than copied: those whose asset is not a user recording. */
  function InsertedCount(exports: seq<ExportInfo>): (n: nat)
    ensures n <= |exports|
    decreases |exports|
  {
    if |exports| == 0 then 0
    else InsertedCount(exports[..|exports| - 1]) + (if KeyOf(exports[|exports| - 1]).None? then 1 else 0)
  }

  function Filled(s: seq<FragmentHost>): (r: seq<Option<FragmentHost>>)
    ensures |r| == |s|
    ensures forall i :: 0 <= i < |s| ==> r[i] == Some(s[i])
  {
    seq(|s|, i requires 0 <= i < |s| => Some(s[i]))
  }

  function Empties(n: nat): (r: seq<Option<FragmentHost>>)
    ensures |r| == n
    ensures forall i :: 0 <= i < n ==> r[i].None?
  {
    seq(n, i => None)
  }

  /** `compactMap { $0 }`: the present values, in order. */
  function CompactMap<T>(s: seq<Option<T>>): (r: seq<T>)
    ensures |r| <= |s|
    decreases |s|
  {
    if |s| == 0 then [] else (if s[0].Some? then [s[0].value] else []) + CompactMap(s[1..])
  }

  lemma CompactMapOfEmpties(n: nat)
    ensures CompactMap(Empties(n)) == []
  {
    if n > 0 {
      assert Empties(n)[1..] == Empties(n - 1);
      CompactMapOfEmpties(n - 1);
    }
  }

  /** Dropping the empty slots from filled slots followed by empty ones gives back the fragments. */
  lemma {:induction false} CompactMapOfSlots(s: seq<FragmentHost>, n: nat)
    ensures CompactMap(Filled(s) + Empties(n)) == s
    decreases |s|
  {
    if |s| == 0 {
      assert Filled(s) + Empties(n) == Empties(n);
      CompactMapOfEmpties(n);
    } else {
      assert (Filled(s) + Empties(n))[1..] == Filled(s[1..]) + Empties(n);
      CompactMapOfSlots(s[1..], n);
    }
  }

  predicate NoDuplicates<T(==)>(s: seq<T>)
  {
    forall i, j :: 0 <= i < j < |s| ==> s[i] != s[j]
  }

  /**
   * The index of the first export, from `from` on, whose copy fails, or
   * `None` when they all succeed.
   */
  function FirstFailure(exports: seq<ExportInfo>, copies: CopyKey -> Option<Url>, from: nat): (r: Option<nat>)
    requires from <= |exports|
    ensures r.None? <==> forall j :: from <= j < |exports| ==> Outcome(exports[j], copies).Some?
    ensures r.Some? ==> from <= r.value < |exports| && Outcome(exports[r.value], copies).None?
    ensures r.Some? ==> forall j :: from <= j < r.value ==> Outcome(exports[j], copies).Some?
    decreases |exports| - from
  {
    if from == |exports| then None
    else if Outcome(exports[from], copies).None? then Some(from)
    else FirstFailure(exports, copies, from + 1)
  }

  class AssetCopier {
    const exportInfos: seq<ExportInfo>
    /** One slot per export; an inserted export grows the array instead of filling its slot. */
    var fragments: seq<Option<FragmentHost>>
    /** The keys of `activeCopyAssetFutures`. */
    var activeCopyKeys: set<CopyKey>
    /** Every copy actually started, in order. */
    var startedCopies: seq<CopyKey>

    constructor (exportInfos: seq<ExportInfo>)
      ensures this.exportInfos == exportInfos
      ensures fragments == Empties(|exportInfos|)
      ensures activeCopyKeys == {} && startedCopies == []
    {
      this.exportInfos := exportInfos;
      fragments := Empties(|exportInfos|);
      activeCopyKeys := {};
      startedCopies := [];
    }

    /**
     * The state after exports `0..i` have been handled and succeeded: their
     * fragments fill the first `i` slots, and every other slot is still empty.
     */
    predicate CopiedUpTo(i: nat, copies: CopyKey -> Option<Url>)
      reads this`fragments
    {
      && i <= |exportInfos|
      && AllSucceed(exportInfos[..i], copies)
      && fragments == Filled(Outcomes(exportInfos[..i], copies))
                      + Empties(|exportInfos| - i + InsertedCount(exportInfos[..i]))
    }

    /** The copy bookkeeping: each key is started at most once and stays active. */
    predicate CopiesTracked()
      reads this`startedCopies, this`activeCopyKeys
    {
      NoDuplicates(startedCopies) && activeCopyKeys == set k | k in startedCopies
    }

    /** `getActiveFutureOrCopyAsset`: a copy starts only when none is under way for the key. */
    method GetActiveFutureOrCopyAsset(key: CopyKey)
      requires CopiesTracked()
      modifies this`activeCopyKeys, this`startedCopies
      ensures CopiesTracked()
      ensures key in activeCopyKeys
      ensures key in old(activeCopyKeys) ==> startedCopies == old(startedCopies)
      ensures key !in old(activeCopyKeys) ==> startedCopies == old(startedCopies) + [key]
    {
      if key in activeCopyKeys {
        return;
      }
      startedCopies := startedCopies + [key];
      activeCopyKeys := activeCopyKeys + {key};
    }

    /**
     * `executeCopy(exportIndex:)`: handles the exports from `exportIndex` on,
     * in order, and stops at the first failed copy.
     */
    method ExecuteCopy(exportIndex: nat, copies: CopyKey -> Option<Url>) returns (ok: bool)
      requires CopiedUpTo(exportIndex, copies)
      requires CopiesTracked()
      modifies this`fragments, this`activeCopyKeys, this`startedCopies
      ensures CopiesTracked()
      ensures ok <==> FirstFailure(exportInfos, copies, exportIndex).None?
      ensures ok ==> CopiedUpTo(|exportInfos|, copies)
      ensures !ok ==> CopiedUpTo(FirstFailure(exportInfos, copies, exportIndex).value, copies)
      ensures forall k :: k in startedCopies && k !in old(startedCopies) ==>
                exists j :: exportIndex <= j < |exportInfos| && KeyOf(exportInfos[j]) == Some(k)
      ensures old(activeCopyKeys) <= activeCopyKeys
      ensures ok ==> forall j :: exportIndex <= j < |exportInfos| && KeyOf(exportInfos[j]).Some? ==>
                       KeyOf(exportInfos[j]).value in activeCopyKeys
      ensures !ok ==>
                var stop := FirstFailure(exportInfos, copies, exportIndex).value;
                forall j :: exportIndex <= j <= stop && KeyOf(exportInfos[j]).Some? ==> KeyOf(exportInfos[j]).value in activeCopyKeys
      decreases |exportInfos| - exportIndex, 1
    {
      if exportIndex >= |exportInfos| {
        return true;
      }
      var exportInfo := exportInfos[exportIndex];
      // Empty and downloaded assets need no copy; a user recording does.
      var key := KeyOf(exportInfo);
      if key.None? {
        InsertStep(exportIndex, copies);
        assert FirstFailure(exportInfos, copies, exportIndex) == FirstFailure(exportInfos, copies, exportIndex + 1);
        ok := ExecuteCopy(exportIndex + 1, copies);
        forall k | k in startedCopies && k !in old(startedCopies)
          ensures exists j :: exportIndex <= j < |exportInfos| && KeyOf(exportInfos[j]) == Some(k)
        {
          var j :| exportIndex + 1 <= j < |exportInfos| && KeyOf(exportInfos[j]) == Some(k);
        }
      } else {
        ok := CopyAndContinue(exportIndex, copies);
      }
    }

    /** The user-recording branch of `executeCopy(exportIndex:)`: copy the export, then go on with the next. */
    method CopyAndContinue(exportIndex: nat, copies: CopyKey -> Option<Url>) returns (ok: bool)
      requires CopiedUpTo(exportIndex, copies)
      requires CopiesTracked()
      requires exportIndex < |exportInfos| && KeyOf(exportInfos[exportIndex]).Some?
      modifies this`fragments, this`activeCopyKeys, this`startedCopies
      ensures CopiesTracked()
      ensures ok <==> FirstFailure(exportInfos, copies, exportIndex).None?
      ensures ok ==> CopiedUpTo(|exportInfos|, copies)
      ensures !ok ==> CopiedUpTo(FirstFailure(exportInfos, copies, exportIndex).value, copies)
      ensures forall k :: k in startedCopies && k !in old(startedCopies) ==>
                exists j :: exportIndex <= j < |exportInfos| && KeyOf(exportInfos[j]) == Some(k)
      ensures old(activeCopyKeys) <= activeCopyKeys
      ensures ok ==> forall j :: exportIndex <= j < |exportInfos| && KeyOf(exportInfos[j]).Some? ==>
                       KeyOf(exportInfos[j]).value in activeCopyKeys
      ensures !ok ==>
                var stop := FirstFailure(exportInfos, copies, exportIndex).value;
                forall j :: exportIndex <= j <= stop && KeyOf(exportInfos[j]).Some? ==> KeyOf(exportInfos[j]).value in activeCopyKeys
      decreases |exportInfos| - exportIndex, 0
    {
      var key := KeyOf(exportInfos[exportIndex]).value;
      GetActiveFutureOrCopyAsset(key);
      var copied := copies(key);
      if copied.None? {
        assert FirstFailure(exportInfos, copies, exportIndex) == Some(exportIndex);
        return false;
      }
      FillStep(exportIndex, copies, copied.value);
      assert FirstFailure(exportInfos, copies, exportIndex) == FirstFailure(exportInfos, copies, exportIndex + 1);
      ghost var started := startedCopies;
      ghost var active := activeCopyKeys;
      ok := ExecuteCopy(exportIndex + 1, copies);
      assert key in active && active <= activeCopyKeys;
      forall k | k in startedCopies && k !in old(startedCopies)
        ensures exists j :: exportIndex <= j < |exportInfos| && KeyOf(exportInfos[j]) == Some(k)
      {
        if k in started {
          assert KeyOf(exportInfos[exportIndex]) == Some(k);
        }
      }
      if ok {
        forall j | exportIndex <= j < |exportInfos| && KeyOf(exportInfos[j]).Some?
          ensures KeyOf(exportInfos[j]).value in activeCopyKeys
        {
          if j == exportIndex {
            assert KeyOf(exportInfos[j]).value == key;
          }
        }
      } else {
        ghost var stop := FirstFailure(exportInfos, copies, exportIndex + 1).value;
        forall j | exportIndex <= j <= stop && KeyOf(exportInfos[j]).Some?
          ensures KeyOf(exportInfos[j]).value in activeCopyKeys
        {
          if j == exportIndex {
            assert KeyOf(exportInfos[j]).value == key;
          }
        }
      }
    }

    /** The copied branch: the new fragment fills the export's own slot. */
    method FillStep(exportIndex: nat, copies: CopyKey -> Option<Url>, copiedURL: Url)
      requires CopiedUpTo(exportIndex, copies)
      requires exportIndex < |exportInfos|
      requires KeyOf(exportInfos[exportIndex]).Some? && copies(KeyOf(exportInfos[exportIndex]).value) == Some(copiedURL)
      modifies this`fragments
      ensures CopiedUpTo(exportIndex + 1, copies)
      ensures fragments == old(fragments)[exportIndex := Some(CopiedFragment(exportInfos[exportIndex], copiedURL))]
    {
      var exportInfo := exportInfos[exportIndex];
      var prefix := exportInfos[..exportIndex];
      var next := exportInfos[..exportIndex + 1];
      assert next[..|next| - 1] == prefix;
      var n := |exportInfos|;
      var k := InsertedCount(prefix);
      var newFragment := CopiedFragment(exportInfo, copiedURL);
      assert Outcome(exportInfo, copies) == Some(newFragment);
      var done := Outcomes(prefix, copies);
      assert AllSucceed(next, copies);
      assert Outcomes(next, copies) == done + [newFragment];
      assert InsertedCount(next) == k;
      assert Filled(done + [newFragment]) == Filled(done) + [Some(newFragment)];
      assert Empties(n - exportIndex + k) == [None] + Empties(n - (exportIndex + 1) + k);
      fragments := fragments[exportIndex := Some(newFragment)];
    }

    /** The `insert(_:at:)` branch, in place: the fragment lands at the export's index. */
    method InsertStep(exportIndex: nat, copies: CopyKey -> Option<Url>)
      requires CopiedUpTo(exportIndex, copies)
      requires exportIndex < |exportInfos|
      requires KeyOf(exportInfos[exportIndex]).None?
      modifies this`fragments
      ensures CopiedUpTo(exportIndex + 1, copies)
      ensures fragments == old(fragments)[..exportIndex] + [Some(exportInfos[exportIndex].fragment)] + old(fragments)[exportIndex..]
    {
      var exportInfo := exportInfos[exportIndex];
      var prefix := exportInfos[..exportIndex];
      var next := exportInfos[..exportIndex + 1];
      assert next[..|next| - 1] == prefix;
      var n := |exportInfos|;
      var k := InsertedCount(prefix);
      var done := Outcomes(prefix, copies);
      assert Outcome(exportInfo, copies) == Some(exportInfo.fragment);
      assert AllSucceed(next, copies);
      assert Outcomes(next, copies) == done + [exportInfo.fragment];
      assert Filled(done + [exportInfo.fragment]) == Filled(done) + [Some(exportInfo.fragment)];
      assert Empties(n - exportIndex + k) == Empties(n - (exportIndex + 1) + (k + 1));
      fragments := fragments[..exportIndex] + [Some(exportInfo.fragment)] + fragments[exportIndex..];
      assert fragments[..exportIndex] == Filled(done);
    }

    /**
     * `startCopy()`: the copied fragments when every copy succeeds, `None`
     * (the failed future) otherwise. Dropping the empty slots gives exactly
     * one fragment per export, in export order.
     */
    method StartCopy(copies: CopyKey -> Option<Url>) returns (result: Option<seq<Option<FragmentHost>>>)
      requires fragments == Empties(|exportInfos|) && activeCopyKeys == {} && startedCopies == []
      modifies this`fragments, this`activeCopyKeys, this`startedCopies
      ensures result.Some? <==> AllSucceed(exportInfos, copies)
      ensures result.Some? ==> result.value == fragments
      ensures result.Some? ==> |result.value| == |exportInfos| + InsertedCount(exportInfos)
      ensures result.Some? ==> CompactMap(result.value) == Outcomes(exportInfos, copies)
      ensures NoDuplicates(startedCopies)
    {
      assert exportInfos[..0] == [];
      assert fragments == Filled([]) + Empties(|exportInfos| - 0 + InsertedCount(exportInfos[..0]));
      var ok := ExecuteCopy(0, copies);
      if !ok {
        return None;
      }
      assert exportInfos[..|exportInfos|] == exportInfos;
      CompactMapOfSlots(Outcomes(exportInfos, copies), InsertedCount(exportInfos));
      result := Some(fragments);
    }
  }
}
