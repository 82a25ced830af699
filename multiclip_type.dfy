/**
 * The remix grid layouts by number of clips
 * (OpenCollab/Sources/RemixSupport/MulticlipType.swift).
 *
 * One to three clips stack in a single column; four to six fill two
 * columns. `lastRowIndices` are the clips of the bottom row.
 */
module MulticlipTypeModel {
  /** `LayoutEngineViewController.remixClipMargin`. */
  const RemixClipMargin: real := 8.0

  datatype MulticlipType = One | Two | Three | Four | Five | Six

  /** `typeForClipCount(clipCount:)`: `clipMapping[clipCount - 1]` traps outside 1 to 6. */
  function TypeForClipCount(clipCount: int): (t: MulticlipType)
    requires 1 <= clipCount <= 6
    ensures ClipCount(t) == clipCount
  {
    [One, Two, Three, Four, Five, Six][clipCount - 1]
  }

  /** The number of clips a layout is for: the inverse of `TypeForClipCount`. */
  function ClipCount(t: MulticlipType): int
  {
    match t
    case One => 1
    case Two => 2
    case Three => 3
    case Four => 4
    case Five => 5
    case Six => 6
  }

  /** Every layout is the one for its own clip count. */
  lemma TypeForClipCountRoundTrip(t: MulticlipType)
    ensures 1 <= ClipCount(t) <= 6 && TypeForClipCount(ClipCount(t)) == t
  {
  }

  /** `lastRowIndices`. */
  function LastRowIndices(t: MulticlipType): seq<int>
  {
    match t
    case One => [0]
    case Two => [1]
    case Three => [2]
    case Four => [2, 3]
    case Five => [3, 4]
    case Six => [4, 5]
  }

  /** `remixBottomPadding`. */
  function RemixBottomPadding(t: MulticlipType): real
  {
    match t
    case One => RemixClipMargin
    case Two => 2.0 * RemixClipMargin
    case Three => 3.0 * RemixClipMargin
    case _ => 0.0
  }

  /**
   * The bottom row is the last clip for one to three clips and the last two
   * for four to six; so every index in it names one of the clips.
   */
  lemma LastRowIsTheLastClips(n: int)
    requires 1 <= n <= 6
    ensures n <= 3 ==> LastRowIndices(TypeForClipCount(n)) == [n - 1]
    ensures n >= 4 ==> LastRowIndices(TypeForClipCount(n)) == [n - 2, n - 1]
    ensures forall i :: 0 <= i < |LastRowIndices(TypeForClipCount(n))| ==> 0 <= LastRowIndices(TypeForClipCount(n))[i] < n
  {
  }

  /** The single-column layouts pad one margin per clip below; the two-column ones none. */
  lemma BottomPaddingByColumns(n: int)
    requires 1 <= n <= 6
    ensures RemixBottomPadding(TypeForClipCount(n)) == if n <= 3 then n as real * 8.0 else 0.0
  {
  }
}
