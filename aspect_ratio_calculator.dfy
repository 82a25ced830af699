/**
 * Sizes of the collab and of its clips
 * (OpenCollab/Sources/Util/AspectRatioCalculator.swift).
 *
 * An aspect-ratio constant is height over width. Sizes are `real`s, with
 * no floating-point rounding.
 */
module AspectRatioCalculator {
  datatype Size = Size(width: real, height: real)

  /** The `Constants` table. */
  const FullbleedSingleVideoAspectRatio: real := 9.0 / 15.0
  const Multiclip2UpAspectRatio: real := (16.0 / 9.0) / 2.0
  const Multiclip4UpAspectRatio: real := 16.0 / 9.0
  const Multiclip6UpAspectRatio: real := (16.0 / 3.0) / (9.0 / 2.0)
  /** Three 9:15 clips stacked. */
  const FullbleedCollabAspectRatio: real := 27.0 / 15.0

  /** `height(for:constant:)`. */
  function HeightFor(width: real, constant: real): real
  {
    width * constant
  }

  /** `width(for:constant:)`; every constant it is called with is positive. */
  function WidthFor(height: real, constant: real): real
    requires constant != 0.0
  {
    height / constant
  }

  /** For a positive constant the two conversions undo each other. */
  lemma WidthAndHeightAreInverse(x: real, constant: real)
    requires constant > 0.0
    ensures WidthFor(HeightFor(x, constant), constant) == x
    ensures HeightFor(WidthFor(x, constant), constant) == x
  {
  }

  /**
   * `sizeThatFits(size:constant:)`: the full width when its height fits,
   * otherwise the full height.
   */
  function SizeThatFits(size: Size, constant: real): (r: Size)
    requires constant > 0.0
    ensures r.height == HeightFor(r.width, constant)
    ensures r.width <= size.width && r.height <= size.height
    ensures r.width == size.width || r.height == size.height
  {
    var heightForFullHorizontalBleed := HeightFor(size.width, constant);
    if heightForFullHorizontalBleed <= size.height then Size(size.width, heightForFullHorizontalBleed)
    else
      var widthForFullVerticalBleed := WidthFor(size.height, constant);
      assert HeightFor(widthForFullVerticalBleed, constant) == size.height by {
        WidthAndHeightAreInverse(size.height, constant);
      }
      Size(widthForFullVerticalBleed, size.height)
  }

  /** The width limits the fitted size exactly when the full-width height fits. */
  lemma SizeThatFitsChoosesLimit(size: Size, constant: real)
    requires constant > 0.0
    ensures size.width * constant <= size.height ==> SizeThatFits(size, constant) == Size(size.width, size.width * constant)
    ensures size.width * constant > size.height ==> SizeThatFits(size, constant) == Size(size.height / constant, size.height)
  {
  }

  /** `collabHeight(for:)`. */
  function CollabHeight(width: real): real
  {
    HeightFor(width, FullbleedCollabAspectRatio)
  }

  /** `collabSizeThatFits(size:)`: the largest 27:15 size inside `size`. */
  function CollabSizeThatFits(size: Size): (r: Size)
    ensures r.height == r.width * (27.0 / 15.0)
    ensures r.width <= size.width && r.height <= size.height
    ensures r.width == size.width || r.height == size.height
  {
    SizeThatFits(size, FullbleedCollabAspectRatio)
  }

  /**
   * `collabFullBleedSizeThatFits(size:)`: the smallest 27:15 size that
   * covers `size`, spilling over in one direction.
   */
  function CollabFullBleedSizeThatFits(size: Size): (r: Size)
    ensures r.height == r.width * (27.0 / 15.0)
    ensures r.width >= size.width && r.height >= size.height
    ensures r.width == size.width || r.height == size.height
  {
    var constant := FullbleedCollabAspectRatio;
    var widthForFullVerticalBleed := WidthFor(size.height, constant);
    WidthAndHeightAreInverse(size.height, constant);
    if widthForFullVerticalBleed >= size.width then Size(widthForFullVerticalBleed, size.height)
    else Size(size.width, HeightFor(size.width, constant))
  }

  /** `getSingleVideoAspectRatio()`. */
  function GetSingleVideoAspectRatio(): real
  {
    FullbleedSingleVideoAspectRatio
  }

  /** `height(for:of:numberOfClips:)`. */
  function Height(width: real, clipIndex: int, numberOfClips: int): real
  {
    match numberOfClips
    case 1 => HeightFor(width, Multiclip4UpAspectRatio)
    case 2 => HeightFor(width, Multiclip2UpAspectRatio)
    case 3 => HeightFor(width, FullbleedSingleVideoAspectRatio)
    case 4 => HeightFor(width, Multiclip4UpAspectRatio)
    case 5 => if clipIndex == 0 then HeightFor(width, FullbleedSingleVideoAspectRatio) else HeightFor(width, Multiclip6UpAspectRatio)
    case 6 => HeightFor(width, Multiclip6UpAspectRatio)
    case _ => HeightFor(width, FullbleedSingleVideoAspectRatio)
  }

  /** `widthForClipInCollab(clip:totalNumberOfClips:collabWidth:)`. */
  function WidthForClipInCollab(index: int, totalNumberOfClips: int, collabWidth: real): real
  {
    match totalNumberOfClips
    case 1 => collabWidth
    case 2 => collabWidth
    case 3 => collabWidth
    case 4 => collabWidth / 2.0
    case 6 => collabWidth / 2.0
    case 5 => if index == 0 then collabWidth else collabWidth / 2.0
    case _ => collabWidth
  }

  /**
   * The per-count ratios: 16:9 for one and four clips, 8:9 for two, 9:15
   * for three, any other count and the first of five, 32:27 for six and
   * the other clips of five.
   */
  lemma ClipHeightRatios(width: real, clipIndex: int, n: int)
    ensures n == 1 || n == 4 ==> Height(width, clipIndex, n) == width * (16.0 / 9.0)
    ensures n == 2 ==> Height(width, clipIndex, n) == width * (8.0 / 9.0)
    ensures n == 6 || (n == 5 && clipIndex != 0) ==> Height(width, clipIndex, n) == width * (32.0 / 27.0)
    ensures !(1 <= n <= 6) || n == 3 || (n == 5 && clipIndex == 0) ==> Height(width, clipIndex, n) == width * (9.0 / 15.0)
  {
  }

  /**
   * Clips take the full collab width in one column, half in two: four and
   * six clips are all half, five has a full first row and halves below.
   */
  lemma ClipWidths(index: int, n: int, collabWidth: real)
    ensures n == 4 || n == 6 || (n == 5 && index != 0) ==> 2.0 * WidthForClipInCollab(index, n, collabWidth) == collabWidth
    ensures !(4 <= n <= 6) || (n == 5 && index == 0) ==> WidthForClipInCollab(index, n, collabWidth) == collabWidth
  {
  }

  /**
   * The rows of the grid: three full-width clips of 9:15 stack to exactly
   * the 27:15 collab, and one, two, four or six clips at their widths stack
   * to 16:9.
   */
  lemma RowsStack(collabWidth: real, n: int)
    ensures n == 3 ==> 3.0 * Height(WidthForClipInCollab(n - 1, n, collabWidth), n - 1, n) == CollabHeight(collabWidth)
    ensures n == 1 || n == 2 ==> n as real * Height(WidthForClipInCollab(n - 1, n, collabWidth), n - 1, n) == collabWidth * (16.0 / 9.0)
    ensures n == 4 || n == 6 ==> (n / 2) as real * Height(WidthForClipInCollab(n - 1, n, collabWidth), n - 1, n) == collabWidth * (16.0 / 9.0)
  {
    if n == 4 {
      assert Height(collabWidth / 2.0, 3, 4) == (collabWidth / 2.0) * (16.0 / 9.0);
    } else if n == 6 {
      assert Height(collabWidth / 2.0, 5, 6) == (collabWidth / 2.0) * (32.0 / 27.0);
    }
  }
}
