/**
 * The rasterizer that flattens a collab's clips into one video file
 * (OpenCollab/Sources/CollabRasterizer.swift).
 *
 * Modelled here are the output file's name, the label sanitising, the two
 * offset tables of the grid, and what `rasterize` decides before handing
 * the composition to AVFoundation: whether an existing file is reused or
 * removed, the guard on present assets, the composition length, where
 * each clip's layer is placed and the render size. A clip's asset is
 * described by what the rasterizer reads of it (its duration and whether
 * its video and audio tracks can be added to the composition); the crop
 * and scale transforms, the composition itself and the export's run are
 * AVFoundation's. The file system's answers and the export session's
 * creation are parameters, and so is the freshly generated UUID.
 */
module CollabRasterizerModel {
  import opened Wrappers
  import opened Extensions
  import opened AspectRatioCalculator

  // ---------------------------------------------------------------------
  // Character classes
  // ---------------------------------------------------------------------

  /** The characters named explicitly as invalid in a file name. */
  const ExplicitlyInvalid: string := "\\/:*?\"<>|-,"

  /** `CharacterSet.newlines`: U+000A to U+000D, U+0085, U+2028 and U+2029. */
  predicate IsNewline(c: char)
  {
    '\n' <= c <= '\r' || c == '\U{85}' || c == '\U{2028}' || c == '\U{2029}'
  }

  /**
   * `CharacterSet.controlCharacters`: the C0 and C1 controls (category Cc)
   * and the format characters (category Cf) of the Basic Multilingual Plane.
   */
  predicate IsControl(c: char)
  {
    c < ' ' || '\U{7F}' <= c <= '\U{9F}'
    || c == '\U{AD}' || '\U{600}' <= c <= '\U{605}' || c == '\U{61C}' || c == '\U{6DD}' || c == '\U{70F}'
    || c == '\U{8E2}' || c == '\U{180E}' || '\U{200B}' <= c <= '\U{200F}' || '\U{202A}' <= c <= '\U{202E}'
    || '\U{2060}' <= c <= '\U{2064}' || '\U{2066}' <= c <= '\U{206F}' || c == '\U{FEFF}' || '\U{FFF9}' <= c <= '\U{FFFB}'
  }

  /** `CharacterSet.illegalCharacters`, as far as it is fixed by Unicode itself: the noncharacters of the Basic Multilingual Plane. */
  predicate IsIllegal(c: char)
  {
    '\U{FDD0}' <= c <= '\U{FDEF}' || c == '\U{FFFE}' || c == '\U{FFFF}'
  }

  /** The union `fileSafeLabel(label:)` splits on first. */
  predicate IsInvalid(c: char)
  {
    c in ExplicitlyInvalid || IsNewline(c) || IsIllegal(c) || IsControl(c)
  }

  /** `CharacterSet.whitespaces`: the space separators (category Zs) and the tab. */
  predicate IsWhitespace(c: char)
  {
    c == '\t' || c == ' ' || c == '\U{A0}' || c == '\U{1680}' || '\U{2000}' <= c <= '\U{200A}'
    || c == '\U{202F}' || c == '\U{205F}' || c == '\U{3000}'
  }

  /** The two character sets a label is split on. */
  datatype Separator = Invalid | Whitespace

  predicate Separates(k: Separator, c: char)
  {
    match k
    case Invalid => IsInvalid(c)
    case Whitespace => IsWhitespace(c)
  }

  /** No character of `s` is in the set `k`. */
  predicate Avoids(s: string, k: Separator)
  {
    forall i :: 0 <= i < |s| ==> !Separates(k, s[i])
  }

  /** The characters each round of sanitising introduces lie outside both sets. */
  lemma SeparatorsAreClean()
    ensures !IsInvalid(' ') && !IsInvalid('_') && !IsWhitespace('_')
  {
  }

  // ---------------------------------------------------------------------
  // Splitting and joining
  // ---------------------------------------------------------------------

  /**
   * `components(separatedBy:)`: the pieces between the separators, empty
   * ones included, so there is always one more piece than separators.
   */
  function Split(s: string, k: Separator): (pieces: seq<string>)
    ensures |pieces| >= 1
    decreases |s|
  {
    if s == [] then [""]
    else
      var rest := Split(s[1..], k);
      if Separates(k, s[0]) then [""] + rest else [[s[0]] + rest[0]] + rest[1..]
  }

  /** `joined(separator:)`. */
  function Join(pieces: seq<string>, sep: string): string
    decreases |pieces|
  {
    if pieces == [] then ""
    else if |pieces| == 1 then pieces[0]
    else pieces[0] + sep + Join(pieces[1..], sep)
  }

  /** `filter { !$0.isEmpty }`. */
  function NonEmpty(pieces: seq<string>): (r: seq<string>)
    ensures forall i :: 0 <= i < |r| ==> r[i] != []
    ensures forall i :: 0 <= i < |r| ==> r[i] in pieces
    ensures forall p :: p in pieces && p != [] ==> p in r
  {
    if pieces == [] then []
    else if pieces[0] == [] then NonEmpty(pieces[1..])
    else [pieces[0]] + NonEmpty(pieces[1..])
  }

  /** No piece contains a separator, and every piece keeps any set `s` avoids. */
  lemma {:induction false} SplitAvoids(s: string, k: Separator, other: Separator)
    ensures forall i :: 0 <= i < |Split(s, k)| ==> Avoids(Split(s, k)[i], k)
    ensures Avoids(s, other) ==> forall i :: 0 <= i < |Split(s, k)| ==> Avoids(Split(s, k)[i], other)
    decreases |s|
  {
    if s != [] {
      SplitAvoids(s[1..], k, other);
      var rest := Split(s[1..], k);
      if !Separates(k, s[0]) {
        var head := [s[0]] + rest[0];
        assert Avoids(head, k) by {
          assert forall j :: 1 <= j < |head| ==> head[j] == rest[0][j - 1];
        }
        if Avoids(s, other) {
          assert Avoids(s[1..], other);
          assert Avoids(head, other) by {
            assert forall j :: 1 <= j < |head| ==> head[j] == rest[0][j - 1];
          }
        }
      } else if Avoids(s, other) {
        assert Avoids(s[1..], other);
      }
    }
  }

  /** A string with no separator in it is one piece, itself. */
  lemma {:induction false} SplitClean(s: string, k: Separator)
    requires Avoids(s, k)
    ensures Split(s, k) == [s]
    decreases |s|
  {
    if s != [] {
      assert Avoids(s[1..], k);
      SplitClean(s[1..], k);
      assert [s[0]] + s[1..] == s;
    }
  }

  /** Joining pieces and a separator that avoid a set gives a string that avoids it. */
  lemma {:induction false} JoinAvoids(pieces: seq<string>, sep: string, k: Separator)
    requires forall i :: 0 <= i < |pieces| ==> Avoids(pieces[i], k)
    requires Avoids(sep, k)
    ensures Avoids(Join(pieces, sep), k)
    decreases |pieces|
  {
    if |pieces| > 1 {
      JoinAvoids(pieces[1..], sep, k);
      var j := Join(pieces, sep);
      var a, t := pieces[0], Join(pieces[1..], sep);
      assert j == a + sep + t;
      forall i | 0 <= i < |j|
        ensures !Separates(k, j[i])
      {
        if i < |a| {
          assert j[i] == a[i];
        } else if i < |a| + |sep| {
          assert j[i] == sep[i - |a|];
        } else {
          assert j[i] == t[i - |a| - |sep|];
        }
      }
    }
  }

  /** Neither end is the separator, and no two separators are adjacent. */
  predicate NoStraySeparator(s: string, c: char)
  {
    (|s| > 0 ==> s[0] != c && s[|s| - 1] != c)
    && forall i :: 0 <= i < |s| - 1 ==> !(s[i] == c && s[i + 1] == c)
  }

  /** Non-empty pieces without `c`, joined by `c`, leave no stray `c`. */
  lemma {:induction false} JoinNoStray(pieces: seq<string>, c: char)
    requires forall i :: 0 <= i < |pieces| ==> pieces[i] != [] && c !in pieces[i]
    ensures NoStraySeparator(Join(pieces, [c]), c)
    ensures pieces != [] ==> Join(pieces, [c]) != []
    decreases |pieces|
  {
    if |pieces| > 1 {
      JoinNoStray(pieces[1..], c);
      var a, t := pieces[0], Join(pieces[1..], [c]);
      var j := Join(pieces, [c]);
      assert j == a + [c] + t;
      assert a[|a| - 1] in a;
      assert t[0] != c;
      forall i | 0 <= i < |j| - 1
        ensures !(j[i] == c && j[i + 1] == c)
      {
        if i < |a| - 1 {
          assert j[i] == a[i];
          assert j[i] in a;
        } else if i == |a| - 1 {
          assert j[i] == a[|a| - 1];
        } else if i == |a| {
          assert j[i + 1] == t[0];
        } else {
          assert j[i] == t[i - |a| - 1] && j[i + 1] == t[i - |a|];
        }
      }
      assert j[0] == a[0] && a[0] in a;
      assert j[|j| - 1] == t[|t| - 1];
    } else if |pieces| == 1 {
      var a := pieces[0];
      assert Join(pieces, [c]) == a;
      assert a[0] in a && a[|a| - 1] in a;
      forall i | 0 <= i < |a| - 1
        ensures !(a[i] == c && a[i + 1] == c)
      {
        assert a[i] in a;
      }
    }
  }

  // ---------------------------------------------------------------------
  // fileSafeLabel and localFileURL
  // ---------------------------------------------------------------------

  /** The first pass: every run between invalid characters, joined by a space. */
  function Sanitized(text: string): string
  {
    Join(Split(text, Invalid), " ")
  }

  /** The second pass's pieces: the non-empty runs between whitespace. */
  function Pieces(text: string): seq<string>
  {
    NonEmpty(Split(Sanitized(text), Whitespace))
  }

  /** `fileSafeLabel(label:)`. */
  function FileSafeLabel(text: string): string
  {
    Join(Pieces(text), "_")
  }

  /**
   * The label is made of non-empty pieces joined by `_`, and neither it nor
   * any piece holds an invalid or whitespace character.
   */
  lemma FileSafeLabelIsClean(text: string)
    ensures Avoids(FileSafeLabel(text), Invalid) && Avoids(FileSafeLabel(text), Whitespace)
    ensures forall i :: 0 <= i < |Pieces(text)| ==>
              Pieces(text)[i] != [] && Avoids(Pieces(text)[i], Invalid) && Avoids(Pieces(text)[i], Whitespace)
  {
    var split1 := Split(text, Invalid);
    SplitAvoids(text, Invalid, Invalid);
    JoinAvoids(split1, " ", Invalid);
    var sanitized := Sanitized(text);
    var split2 := Split(sanitized, Whitespace);
    SplitAvoids(sanitized, Whitespace, Invalid);
    var pieces := Pieces(text);
    assert forall i :: 0 <= i < |pieces| ==> pieces[i] in split2;
    forall i | 0 <= i < |pieces|
      ensures Avoids(pieces[i], Invalid) && Avoids(pieces[i], Whitespace)
    {
      var j :| 0 <= j < |split2| && split2[j] == pieces[i];
    }
    JoinAvoids(pieces, "_", Invalid);
    JoinAvoids(pieces, "_", Whitespace);
  }

  /**
   * A label without `_` of its own comes out with no `_` at either end and
   * none doubled: the only underscores are the single joints.
   */
  lemma FileSafeLabelHasNoStrayUnderscore(text: string)
    requires '_' !in text
    ensures NoStraySeparator(FileSafeLabel(text), '_')
  {
    var pieces := Pieces(text);
    FileSafeLabelIsClean(text);
    var split1 := Split(text, Invalid);
    SplitAvoids(text, Invalid, Invalid);
    NoUnderscoreInSplit(text, Invalid);
    NoUnderscoreInJoin(split1, " ");
    var split2 := Split(Sanitized(text), Whitespace);
    NoUnderscoreInSplit(Sanitized(text), Whitespace);
    forall i | 0 <= i < |pieces|
      ensures pieces[i] != [] && '_' !in pieces[i]
    {
      assert pieces[i] in split2;
      var j :| 0 <= j < |split2| && split2[j] == pieces[i];
    }
    JoinNoStray(pieces, '_');
  }

  lemma {:induction false} NoUnderscoreInSplit(s: string, k: Separator)
    requires '_' !in s
    ensures forall i :: 0 <= i < |Split(s, k)| ==> '_' !in Split(s, k)[i]
    decreases |s|
  {
    if s != [] {
      assert s[0] in s;
      assert '_' !in s[1..] by {
        forall i | 0 <= i < |s[1..]| ensures s[1..][i] != '_' {
          assert s[1..][i] == s[i + 1];
        }
      }
      NoUnderscoreInSplit(s[1..], k);
    }
  }

  lemma {:induction false} NoUnderscoreInJoin(pieces: seq<string>, sep: string)
    requires forall i :: 0 <= i < |pieces| ==> '_' !in pieces[i]
    requires '_' !in sep
    ensures '_' !in Join(pieces, sep)
    decreases |pieces|
  {
    if |pieces| > 1 {
      NoUnderscoreInJoin(pieces[1..], sep);
      assert Join(pieces, sep) == pieces[0] + sep + Join(pieces[1..], sep);
    }
  }

  /** A non-empty label that is already clean comes back unchanged. */
  lemma CleanLabelIsFixed(text: string)
    requires text != []
    requires Avoids(text, Invalid) && Avoids(text, Whitespace)
    ensures FileSafeLabel(text) == text
  {
    SplitClean(text, Invalid);
    assert Sanitized(text) == text;
    SplitClean(text, Whitespace);
    assert NonEmpty([text]) == [text] + NonEmpty([]);
  }

  /** A label of nothing but invalid and whitespace characters sanitises to the empty string. */
  lemma BlankLabelIsEmpty(text: string)
    requires forall i :: 0 <= i < |text| ==> Separates(Invalid, text[i]) || Separates(Whitespace, text[i])
    ensures FileSafeLabel(text) == ""
  {
    var split1 := Split(text, Invalid);
    BlankSplitPieces(text);
    SpacesOnlyJoin(split1);
    var sanitized := Sanitized(text);
    var split2 := Split(sanitized, Whitespace);
    SplitAvoidsAll(sanitized);
  }

  /** The pieces of a blank text are made of whitespace only. */
  lemma {:induction false} BlankSplitPieces(text: string)
    requires forall i :: 0 <= i < |text| ==> Separates(Invalid, text[i]) || Separates(Whitespace, text[i])
    ensures forall i :: 0 <= i < |Split(text, Invalid)| ==> OnlyWhitespace(Split(text, Invalid)[i])
    decreases |text|
  {
    if text != [] {
      BlankSplitPieces(text[1..]);
      var rest := Split(text[1..], Invalid);
      if !Separates(Invalid, text[0]) {
        var head := [text[0]] + rest[0];
        assert forall j :: 1 <= j < |head| ==> head[j] == rest[0][j - 1];
      }
    }
  }

  predicate OnlyWhitespace(s: string)
  {
    forall i :: 0 <= i < |s| ==> IsWhitespace(s[i])
  }

  lemma {:induction false} SpacesOnlyJoin(pieces: seq<string>)
    requires forall i :: 0 <= i < |pieces| ==> OnlyWhitespace(pieces[i])
    ensures OnlyWhitespace(Join(pieces, " "))
    decreases |pieces|
  {
    if |pieces| > 1 {
      SpacesOnlyJoin(pieces[1..]);
      var a, t := pieces[0], Join(pieces[1..], " ");
      var j := Join(pieces, " ");
      assert j == a + " " + t;
      forall i | 0 <= i < |j| ensures IsWhitespace(j[i]) {
        if i < |a| {
          assert j[i] == a[i];
        } else if i > |a| {
          assert j[i] == t[i - |a| - 1];
        }
      }
    }
  }

  /** Splitting a whitespace-only string on whitespace leaves only empty pieces. */
  lemma {:induction false} SplitAvoidsAll(s: string)
    requires OnlyWhitespace(s)
    ensures forall i :: 0 <= i < |Split(s, Whitespace)| ==> Split(s, Whitespace)[i] == []
    decreases |s|
  {
    if s != [] {
      SplitAvoidsAll(s[1..]);
    }
  }

  /** Sanitising twice is sanitising once. */
  lemma FileSafeLabelIdempotent(text: string)
    ensures FileSafeLabel(FileSafeLabel(text)) == FileSafeLabel(text)
  {
    var once := FileSafeLabel(text);
    FileSafeLabelIsClean(text);
    if once == [] {
      assert Split(once, Invalid) == [""];
      assert Sanitized(once) == "";
      assert Split(Sanitized(once), Whitespace) == [""];
      assert Pieces(once) == [];
    } else {
      CleanLabelIsFixed(once);
    }
  }

  /** A directory or file location, as the path components of a file URL. */
  datatype FileURL = FileURL(components: seq<string>)

  /** `appendingPathComponent(_:)`. */
  function Appending(url: FileURL, component: string): FileURL
  {
    FileURL(url.components + [component])
  }

  const UserHandle: string := "unknown_user"
  const CollabLabel: string := "unknown_label"

  /** `localFileURL(directoryURL:)`, given the UUID string it generates. */
  function LocalFileURL(directory: FileURL, uuid: string): FileURL
  {
    Appending(directory, "Collab_" + UserHandle + "_" + FileSafeLabel(CollabLabel) + "_" + uuid + ".mp4")
  }

  /** The label is already file-safe, so the file is `Collab_unknown_user_unknown_label_<uuid>.mp4` in the directory. */
  lemma LocalFileName(directory: FileURL, uuid: string)
    ensures LocalFileURL(directory, uuid)
            == FileURL(directory.components + ["Collab_unknown_user_unknown_label_" + uuid + ".mp4"])
  {
    CollabLabelIsFixed();
    FileNameWith(FileSafeLabel(CollabLabel), uuid);
  }

  lemma FileNameWith(safe: string, uuid: string)
    requires safe == CollabLabel
    ensures "Collab_" + UserHandle + "_" + safe + "_" + uuid + ".mp4" == "Collab_unknown_user_unknown_label_" + uuid + ".mp4"
  {
    assert "Collab_" + UserHandle + "_" + safe + "_" == "Collab_unknown_user_unknown_label_";
  }

  lemma CollabLabelIsFixed()
    ensures FileSafeLabel(CollabLabel) == CollabLabel
  {
    forall i | 0 <= i < |CollabLabel|
      ensures !IsInvalid(CollabLabel[i]) && !IsWhitespace(CollabLabel[i])
    {
      LowercaseIsClean(CollabLabel[i]);
    }
    CleanLabelIsFixed(CollabLabel);
  }

  lemma LowercaseIsClean(c: char)
    requires 'a' <= c <= 'z' || c == '_'
    ensures !IsInvalid(c) && !IsWhitespace(c)
  {
  }

  // ---------------------------------------------------------------------
  // The grid offsets
  // ---------------------------------------------------------------------

  /** `verticalOffsetFor(clip:_:rawHeight:)`: how far down the next clip starts, for the clip numbered from 1. */
  function VerticalOffsetFor(clip: int, numberOfClips: int, rawHeight: real): real
  {
    match numberOfClips
    case 1 => rawHeight
    case 2 => rawHeight
    case 3 => rawHeight
    case 4 => if clip % 2 == 0 then rawHeight else 0.0
    case 6 => if clip % 2 == 0 then rawHeight else 0.0
    case 5 => if clip == 1 then rawHeight else if clip % 2 == 0 then 0.0 else rawHeight
    case _ => rawHeight
  }

  /** `horizontalOffsetFor(clip:_:rawWidth:)`: where the clip numbered from 1 starts across. */
  function HorizontalOffsetFor(clip: int, numberOfClips: int, rawWidth: real): real
  {
    match numberOfClips
    case 1 => 0.0
    case 2 => 0.0
    case 3 => 0.0
    case 4 => if clip % 2 == 0 then rawWidth / 2.0 else 0.0
    case 6 => if clip % 2 == 0 then rawWidth / 2.0 else 0.0
    case 5 => if clip == 1 then 0.0 else if clip % 2 == 0 then 0.0 else rawWidth / 2.0
    case _ => 0.0
  }

  /**
   * One to three clips, and any count the grid does not know, stack at the
   * left edge. With four or six, the even clips sit in the right half and
   * end a row, the odd ones start it. With five, clip 1 is a row of its
   * own, even clips start a row at the left without moving down, and odd
   * clips after the first sit in the right half and end the row.
   */
  lemma OffsetTables(clip: int, n: int, h: real, w: real)
    ensures !(4 <= n <= 6) ==> VerticalOffsetFor(clip, n, h) == h && HorizontalOffsetFor(clip, n, w) == 0.0
    ensures n == 4 || n == 6 ==>
              (clip % 2 == 0 ==> VerticalOffsetFor(clip, n, h) == h && HorizontalOffsetFor(clip, n, w) == w / 2.0)
              && (clip % 2 != 0 ==> VerticalOffsetFor(clip, n, h) == 0.0 && HorizontalOffsetFor(clip, n, w) == 0.0)
    ensures n == 5 ==>
              (clip == 1 ==> VerticalOffsetFor(clip, n, h) == h && HorizontalOffsetFor(clip, n, w) == 0.0)
              && (clip % 2 == 0 ==> VerticalOffsetFor(clip, n, h) == 0.0 && HorizontalOffsetFor(clip, n, w) == 0.0)
              && (clip > 1 && clip % 2 != 0 ==> VerticalOffsetFor(clip, n, h) == h && HorizontalOffsetFor(clip, n, w) == w / 2.0)
  {
  }

  // ---------------------------------------------------------------------
  // rasterize
  // ---------------------------------------------------------------------

  /** `Constants.exportWidth`. */
  const ExportWidth: real := 540.0

  /** `RasterizationError`; `General` records whether the error it wraps is present, as the caught removal error always is. */
  datatype RasterizationError = CantCreateExportSession | General(hasUnderlyingError: bool) | InputFileDoesNotExists

  /** What the rasterizer reads of an asset: its duration, and whether its video and audio tracks can be added. */
  datatype AssetInfo = AssetInfo(duration: Time, addsVideoTrack: bool, addsAudioTrack: bool)

  /** One entry of `assetWithVolumeTuples`. */
  datatype Clip = Clip(asset: Option<AssetInfo>, volume: real)

  /** A layer instruction's placement: the clip it shows, its origin and the size it is scaled to. */
  datatype Layer = Layer(clip: nat, x: real, y: real, width: real, height: real)

  datatype TrackKind = VideoTrack | AudioTrack

  /** An audio mix input parameter: the clip and track it is for, at the clip's volume. */
  datatype AudioParam = AudioParam(clip: nat, track: TrackKind, volume: real)

  /** What is handed to the export session. */
  datatype ExportPlan = ExportPlan(
    url: FileURL,
    removedExisting: bool,
    duration: Time,
    layers: seq<Layer>,
    audioParams: seq<AudioParam>,
    renderWidth: real,
    renderHeight: real)

  /** The future `rasterize` returns: an existing file, an immediate error, or an export about to run. */
  datatype Outcome = Existing(url: FileURL) | Failed(error: RasterizationError) | Exporting(plan: ExportPlan)

  function TargetWidth(index: int, numberOfClips: int): real
  {
    WidthForClipInCollab(index, numberOfClips, ExportWidth)
  }

  function TargetHeight(index: int, numberOfClips: int): real
  {
    Height(TargetWidth(index, numberOfClips), index, numberOfClips)
  }

  /** A clip whose asset is present and whose video track could be added gets a layer. */
  predicate Placed(c: Clip)
  {
    c.asset.Some? && c.asset.value.addsVideoTrack
  }

  /** The loop moves down after a missing asset and after a placed clip, but not after a clip whose video track failed. */
  predicate Advances(c: Clip)
  {
    c.asset.None? || c.asset.value.addsVideoTrack
  }

  /** `verticalPosition` before clip `k` of the loop. */
  function VerticalBefore(clips: seq<Clip>, k: nat): real
    requires k <= |clips|
  {
    if k == 0 then 0.0
    else VerticalBefore(clips, k - 1)
         + (if Advances(clips[k - 1]) then VerticalOffsetFor(k, |clips|, TargetHeight(k - 1, |clips|)) else 0.0)
  }

  /** The layers of the first `k` clips. */
  function Layers(clips: seq<Clip>, k: nat): seq<Layer>
    requires k <= |clips|
  {
    if k == 0 then []
    else Layers(clips, k - 1)
         + (if Placed(clips[k - 1])
            then [Layer(k - 1, HorizontalOffsetFor(k, |clips|, ExportWidth), VerticalBefore(clips, k - 1),
                        TargetWidth(k - 1, |clips|), TargetHeight(k - 1, |clips|))]
            else [])
  }

  /** The audio mix parameters of the first `k` clips: the video track's, then the audio track's if it was added. */
  function AudioParams(clips: seq<Clip>, k: nat): seq<AudioParam>
    requires k <= |clips|
  {
    if k == 0 then []
    else AudioParams(clips, k - 1)
         + (if Placed(clips[k - 1])
            then [AudioParam(k - 1, VideoTrack, clips[k - 1].volume)]
                 + (if clips[k - 1].asset.value.addsAudioTrack then [AudioParam(k - 1, AudioTrack, clips[k - 1].volume)] else [])
            else [])
  }

  /** `floor(x / 16) * 16`: the largest multiple of 16 not above `x`. */
  function RoundDownTo16(x: real): (r: real)
    ensures r <= x < r + 16.0
    ensures r.Floor as real == r && r.Floor % 16 == 0
  {
    var k := (x / 16.0).Floor;
    (k * 16) as real
  }

  /** No multiple of 16 at most `x` is above the rounded value. */
  lemma RoundDownIsLargest(x: real, m: int)
    requires m as real * 16.0 <= x
    ensures m as real * 16.0 <= RoundDownTo16(x)
  {
    var k := (x / 16.0).Floor;
    assert m as real <= x / 16.0;
    assert m <= k;
    assert m * 16 <= k * 16;
  }

  predicate HasAsset(c: Clip)
  {
    c.asset.Some?
  }

  /** No entry of `clips` has an asset. */
  predicate NoAsset(clips: seq<Clip>)
  {
    forall i :: 0 <= i < |clips| ==> !HasAsset(clips[i])
  }

  /** The smallest duration among the present assets of `clips[k..]`. */
  function MinDuration(clips: seq<Clip>, k: nat): (d: Option<Time>)
    requires k <= |clips|
    ensures d.None? <==> forall i :: k <= i < |clips| ==> !HasAsset(clips[i])
    ensures d.Some? ==> (exists i :: k <= i < |clips| && HasAsset(clips[i]) && clips[i].asset.value.duration == d.value)
                        && forall i :: k <= i < |clips| && HasAsset(clips[i]) ==> d.value <= clips[i].asset.value.duration
    decreases |clips| - k
  {
    if k == |clips| then None
    else
      var rest := MinDuration(clips, k + 1);
      if clips[k].asset.None? then rest
      else if rest.None? then Some(clips[k].asset.value.duration)
      else Some(Min(clips[k].asset.value.duration, rest.value))
  }

  /** The per-clip loop of `rasterize`, with its running positions. */
  method PlaceClips(clips: seq<Clip>) returns (layers: seq<Layer>, params: seq<AudioParam>, verticalPosition: real)
    ensures layers == Layers(clips, |clips|)
    ensures params == AudioParams(clips, |clips|)
    ensures verticalPosition == VerticalBefore(clips, |clips|)
  {
    var numberOfClips := |clips|;
    layers, params := [], [];
    verticalPosition := 0.0;
    var horizontalPosition := 0.0;
    var index := 0;
    while index < numberOfClips
      invariant 0 <= index <= numberOfClips
      invariant layers == Layers(clips, index)
      invariant params == AudioParams(clips, index)
      invariant verticalPosition == VerticalBefore(clips, index)
    {
      var targetWidth := WidthForClipInCollab(index, numberOfClips, ExportWidth);
      var targetHeight := Height(targetWidth, index, numberOfClips);
      var clip := clips[index];
      if clip.asset.None? {
        verticalPosition := verticalPosition + VerticalOffsetFor(index + 1, numberOfClips, targetHeight);
        horizontalPosition := 0.0;
      } else if clip.asset.value.addsVideoTrack {
        horizontalPosition := HorizontalOffsetFor(index + 1, numberOfClips, ExportWidth);
        layers := layers + [Layer(index, horizontalPosition, verticalPosition, targetWidth, targetHeight)];
        verticalPosition := verticalPosition + VerticalOffsetFor(index + 1, numberOfClips, targetHeight);
        params := params + [AudioParam(index, VideoTrack, clip.volume)];
        if clip.asset.value.addsAudioTrack {
          params := params + [AudioParam(index, AudioTrack, clip.volume)];
        }
      }
      index := index + 1;
    }
  }

  /**
   * `rasterize(assetWithVolumeTuples:directoryURL:replaceLocalCopy:)` up to
   * the export's start. `fileExists`, `removeSucceeds` and
   * `exportSessionCreated` are the file manager's and AVFoundation's answers.
   */
  method Rasterize(clips: seq<Clip>, directory: FileURL, uuid: string, replaceLocalCopy: bool,
                   fileExists: bool, removeSucceeds: bool, exportSessionCreated: bool)
    returns (outcome: Outcome)
    ensures fileExists && !replaceLocalCopy ==> outcome == Existing(LocalFileURL(directory, uuid))
    ensures fileExists && replaceLocalCopy && !removeSucceeds ==> outcome == Failed(General(true))
    ensures (!fileExists || (replaceLocalCopy && removeSucceeds)) && NoAsset(clips) ==> outcome == Failed(General(false))
    ensures (!fileExists || (replaceLocalCopy && removeSucceeds)) && !NoAsset(clips)
            ==> outcome == (if exportSessionCreated then Exporting(Plan(clips, directory, uuid, fileExists)) else Failed(CantCreateExportSession))
  {
    var fileURL := LocalFileURL(directory, uuid);
    if fileExists {
      if replaceLocalCopy {
        if !removeSucceeds {
          return Failed(General(true));
        }
      } else {
        return Existing(fileURL);
      }
    }
    var minDuration := MinDuration(clips, 0);
    if minDuration.None? {
      return Failed(General(false));
    }
    var layers, params, verticalPosition := PlaceClips(clips);
    var renderWidth := RoundDownTo16(ExportWidth);
    var renderHeight := RoundDownTo16(verticalPosition);
    if !exportSessionCreated {
      return Failed(CantCreateExportSession);
    }
    outcome := Exporting(ExportPlan(fileURL, fileExists, minDuration.value, layers, params, renderWidth, renderHeight));
  }

  /** The export that `rasterize` starts when at least one asset is present. */
  function Plan(clips: seq<Clip>, directory: FileURL, uuid: string, removedExisting: bool): ExportPlan
    requires !NoAsset(clips)
  {
    ExportPlan(LocalFileURL(directory, uuid), removedExisting, MinDuration(clips, 0).value,
               Layers(clips, |clips|), AudioParams(clips, |clips|),
               RoundDownTo16(ExportWidth), RoundDownTo16(VerticalBefore(clips, |clips|)))
  }

  /**
   * The export's completion: the file on success, `General` with the
   * exporter's error otherwise; `exporterError` is whether the exporter
   * reports one, since it may not.
   */
  function ExportResult(plan: ExportPlan, completed: bool, exporterError: bool): (r: Result<FileURL>)
    ensures r.Success? <==> completed
    ensures r.Success? ==> r.value == plan.url
    ensures r.Failure? ==> r.error == General(exporterError)
  {
    if completed then Success(plan.url) else Failure(General(exporterError))
  }

  datatype Result<T> = Success(value: T) | Failure(error: RasterizationError)

  /** The composition is as long as the shortest present asset, and is one of their durations. */
  lemma PlanDurationIsShortest(clips: seq<Clip>, directory: FileURL, uuid: string, removed: bool)
    requires !NoAsset(clips)
    ensures var d := Plan(clips, directory, uuid, removed).duration;
            (forall i :: 0 <= i < |clips| && HasAsset(clips[i]) ==> d <= clips[i].asset.value.duration)
            && exists i :: 0 <= i < |clips| && HasAsset(clips[i]) && clips[i].asset.value.duration == d
  {
  }

  /** The render size: 528 wide, and the stacked height rounded down to a multiple of 16. */
  lemma RenderSize(clips: seq<Clip>, directory: FileURL, uuid: string, removed: bool)
    requires !NoAsset(clips)
    ensures var p := Plan(clips, directory, uuid, removed);
            p.renderWidth == 528.0
            && p.renderHeight <= VerticalBefore(clips, |clips|) < p.renderHeight + 16.0
            && p.renderHeight.Floor % 16 == 0
  {
    assert (ExportWidth / 16.0).Floor == 33;
  }

  /** Every placed clip has exactly one layer, in clip order, and no other clip has one. */
  lemma {:induction false} LayerPerPlacedClip(clips: seq<Clip>, k: nat)
    requires k <= |clips|
    ensures forall j :: 0 <= j < |Layers(clips, k)| ==> Layers(clips, k)[j].clip < k && Placed(clips[Layers(clips, k)[j].clip])
    ensures forall j, j' :: 0 <= j < j' < |Layers(clips, k)| ==> Layers(clips, k)[j].clip < Layers(clips, k)[j'].clip
    ensures forall i :: 0 <= i < k && Placed(clips[i]) ==> exists j :: 0 <= j < |Layers(clips, k)| && Layers(clips, k)[j].clip == i
  {
    if k > 0 {
      LayerPerPlacedClip(clips, k - 1);
      var prev := Layers(clips, k - 1);
      var cur := Layers(clips, k);
      assert forall j :: 0 <= j < |prev| ==> cur[j] == prev[j];
      if Placed(clips[k - 1]) {
        assert cur[|prev|].clip == k - 1;
      }
    }
  }

  /** With every clip placed, the loop's height no longer depends on the assets. */
  function GridHeight(n: int, k: nat): real
  {
    if k == 0 then 0.0 else GridHeight(n, k - 1) + VerticalOffsetFor(k, n, TargetHeight(k - 1, n))
  }

  lemma {:induction false} AllPlacedHeight(clips: seq<Clip>, k: nat)
    requires k <= |clips|
    requires forall i :: 0 <= i < |clips| ==> Placed(clips[i])
    ensures VerticalBefore(clips, k) == GridHeight(|clips|, k)
  {
    if k > 0 {
      AllPlacedHeight(clips, k - 1);
    }
  }

  /**
   * With every clip of one to six placed, the clips stack to 960 points for
   * one, two, four and six clips, 972 for three and 964 for five, and every
   * one of them renders 528 by 960.
   */
  lemma FullCollabRendersAt528By960(clips: seq<Clip>)
    requires 1 <= |clips| <= 6
    requires forall i :: 0 <= i < |clips| ==> Placed(clips[i])
    ensures VerticalBefore(clips, |clips|) == (if |clips| == 3 then 972.0 else if |clips| == 5 then 964.0 else 960.0)
    ensures RoundDownTo16(ExportWidth) == 528.0 && RoundDownTo16(VerticalBefore(clips, |clips|)) == 960.0
  {
    AllPlacedHeight(clips, |clips|);
    GridHeights();
    assert (ExportWidth / 16.0).Floor == 33;
    assert (960.0 / 16.0).Floor == 60 && (972.0 / 16.0).Floor == 60 && (964.0 / 16.0).Floor == 60;
  }

  lemma GridHeights()
    ensures GridHeight(1, 1) == 960.0
    ensures GridHeight(2, 2) == 960.0
    ensures GridHeight(3, 3) == 972.0
    ensures GridHeight(4, 4) == 960.0
    ensures GridHeight(5, 5) == 964.0
    ensures GridHeight(6, 6) == 960.0
  {
    assert TargetHeight(0, 1) == 960.0;
    assert TargetHeight(1, 2) == 480.0 && TargetHeight(0, 2) == 480.0;
    assert TargetHeight(0, 3) == 324.0 && TargetHeight(1, 3) == 324.0 && TargetHeight(2, 3) == 324.0;
    assert forall i :: 0 <= i < 4 ==> TargetHeight(i, 4) == 480.0;
    assert TargetHeight(0, 5) == 324.0;
    assert forall i :: 1 <= i < 5 ==> TargetHeight(i, 5) == 320.0;
    assert forall i :: 0 <= i < 6 ==> TargetHeight(i, 6) == 320.0;
    assert GridHeight(4, 2) == 480.0;
    assert GridHeight(5, 3) == 644.0;
    assert GridHeight(6, 2) == 320.0 && GridHeight(6, 4) == 640.0;
  }
}
