/**
 * The integer geometry of the bitmap helpers: the centred square crop of
 * `toSquare` (in its general form and in its earlier landscape-only form,
 * each followed by a rescale) and the `boxMatches` scan over the pixels of a
 * box. Pixels are never stored: a bitmap is its width and height, and a
 * pixel test is a predicate.
 */
module BitmapExtensions {
  import opened Wrappers
  import opened KotlinNumbers
  import opened Detection

  /** The source rectangle passed to `Bitmap.createBitmap(source, x, y, width, height)`. */
  datatype Crop = Crop(x: int, y: int, width: int, height: int)

  /** A non-empty rectangle inside a `w` by `h` bitmap. */
  predicate Within(crop: Crop, w: int, h: int)
  {
    && 0 <= crop.x && 0 <= crop.y && 0 < crop.width && 0 < crop.height
    && crop.x + crop.width <= w && crop.y + crop.height <= h
  }

  /**
   * Android's `createBitmap(source, x, y, width, height)`, as far as sizes go:
   * the copy's dimensions, or the IllegalArgumentException its argument
   * checks raise for a rectangle that is empty or leaves the source.
   */
  function CreateBitmap(w: int, h: int, crop: Crop): Result<(int, int)>
  {
    if Within(crop, w, h) then Success((crop.width, crop.height)) else Failure(IllegalArgumentException)
  }

  /** Android's `createScaledBitmap(source, dstWidth, dstHeight, filter)`: both sizes must be positive. */
  function CreateScaledBitmap(dstWidth: int, dstHeight: int): Result<(int, int)>
  {
    if dstWidth > 0 && dstHeight > 0 then Success((dstWidth, dstHeight)) else Failure(IllegalArgumentException)
  }

  /**
   * The crop `toSquare` chooses: a square as large as the shorter side,
   * centred along the longer side (any odd pixel goes to the far margin).
   */
  function SquareCrop(w: int, h: int): (c: Crop)
    ensures c.width == c.height == if w <= h then w else h
    ensures w >= h ==> c.y == 0
    ensures w < h ==> c.x == 0
    ensures 0 <= w && 0 <= h ==> 0 <= c.x && 0 <= c.y && c.x + c.width <= w && c.y + c.height <= h
    ensures 0 <= w && 0 <= h ==>
      && 0 <= (w - c.x - c.width) - c.x <= 1
      && 0 <= (h - c.y - c.height) - c.y <= 1
  {
    if w >= h then
      var horizontalCrop := IntDiv(w - h, 2);
      Crop(horizontalCrop, 0, h, h)
    else
      var verticalCrop := IntDiv(h - w, 2);
      Crop(0, verticalCrop, w, w)
  }

  /**
   * `toSquare(side)` on a `w` by `h` bitmap: the dimensions of the result,
   * or the exception of the Android call that rejects its arguments.
   */
  function ToSquare(w: int, h: int, side: int): (r: Result<(int, int)>)
    ensures r.Success? <==> w > 0 && h > 0 && side > 0
    ensures r.Success? ==> r.value == (side, side)
    ensures r.Failure? ==> r.error == IllegalArgumentException
  {
    match CreateBitmap(w, h, SquareCrop(w, h))
    case Failure(e) => Failure(e)
    case Success(_) => CreateScaledBitmap(side, side)
  }

  /** The earlier crop, which assumes a landscape bitmap: always `(w - h) / 2` off the width. */
  function LandscapeCrop(w: int, h: int): (c: Crop)
    ensures c.y == 0 && c.width == h && c.height == h
    ensures 0 < h ==> (Within(c, w, h) <==> w >= h)
    ensures 0 <= h <= w ==> 0 <= (w - c.x - c.width) - c.x <= 1
    ensures w < h ==> c.x + c.width > w
  {
    var horizontalCrop := IntDiv(w - h, 2);
    Crop(horizontalCrop, 0, h, h)
  }

  /** The earlier `toSquare(side)`: it succeeds only on a landscape (or square) bitmap. */
  function LandscapeToSquare(w: int, h: int, side: int): (r: Result<(int, int)>)
    ensures r.Success? <==> 0 < h <= w && side > 0
    ensures r.Success? ==> r.value == (side, side)
    ensures r.Failure? ==> r.error == IllegalArgumentException
  {
    match CreateBitmap(w, h, LandscapeCrop(w, h))
    case Failure(e) => Failure(e)
    case Success(_) => CreateScaledBitmap(side, side)
  }

  /** On a landscape bitmap the two revisions choose the same crop and produce the same result. */
  lemma RevisionsAgreeOnLandscape(w: int, h: int, side: int)
    requires h <= w
    ensures LandscapeCrop(w, h) == SquareCrop(w, h)
    ensures LandscapeToSquare(w, h, side) == ToSquare(w, h, side)
  {
  }

  /**
   * The scenes of the instrumented `toSquare` tests: 200 by 100 and
   * 100 by 200 bitmaps squared to 50 and to 300 pixels. The general revision
   * produces every expected square; the landscape-only revision, which those
   * tests import, throws on both portrait scenes.
   */
  lemma InstrumentedTestScenes()
    ensures ToSquare(200, 100, 50) == Success((50, 50))
    ensures ToSquare(200, 100, 300) == Success((300, 300))
    ensures ToSquare(100, 200, 50) == Success((50, 50))
    ensures ToSquare(100, 200, 300) == Success((300, 300))
    ensures LandscapeToSquare(200, 100, 50) == Success((50, 50))
    ensures LandscapeToSquare(200, 100, 300) == Success((300, 300))
    ensures LandscapeToSquare(100, 200, 50) == Failure(IllegalArgumentException)
    ensures LandscapeToSquare(100, 200, 300) == Failure(IllegalArgumentException)
  {
    assert LandscapeCrop(100, 200) == Crop(-50, 0, 200, 200);
  }

  /** Every pixel of the inclusive column range `x0..x1` and row range `y0..y1` passes `pixelMatches`. */
  ghost predicate AllPixelsMatch(x0: int, x1: int, y0: int, y1: int, color: int, pixelMatches: (int, int, int) -> bool)
  {
    forall x, y | x0 <= x <= x1 && y0 <= y <= y1 :: pixelMatches(x, y, color)
  }

  /**
   * `boxMatches`: scans the box's columns and rows, both ranges inclusive and
   * bounded by the `toInt()` of the box's edges, and answers false at the
   * first pixel that does not match `color`.
   */
  method BoxMatches(box: BoundingBox, color: int, pixelMatches: (int, int, int) -> bool) returns (matches: bool)
    ensures matches <==>
      AllPixelsMatch(ToInt(Finite(box.left)), ToInt(Finite(box.right)),
                     ToInt(Finite(box.top)), ToInt(Finite(box.bottom)), color, pixelMatches)
  {
    var x0, x1 := ToInt(Finite(box.left)), ToInt(Finite(box.right));
    var y0, y1 := ToInt(Finite(box.top)), ToInt(Finite(box.bottom));
    var x := x0;
    while x <= x1
      invariant x0 <= x && (x == x0 || x <= x1 + 1)
      invariant forall i, j | x0 <= i < x && y0 <= j <= y1 :: pixelMatches(i, j, color)
      decreases x1 - x
    {
      var y := y0;
      while y <= y1
        invariant y0 <= y && (y == y0 || y <= y1 + 1)
        invariant forall j | y0 <= j < y :: pixelMatches(x, j, color)
        decreases y1 - y
      {
        if !pixelMatches(x, y, color) {
          return false;
        }
        y := y + 1;
      }
      x := x + 1;
    }
    return true;
  }

  /** A box whose column or row range is empty matches any colour. */
  lemma EmptyBoxMatches(box: BoundingBox, color: int, pixelMatches: (int, int, int) -> bool)
    requires ToInt(Finite(box.right)) < ToInt(Finite(box.left)) || ToInt(Finite(box.bottom)) < ToInt(Finite(box.top))
    ensures AllPixelsMatch(ToInt(Finite(box.left)), ToInt(Finite(box.right)),
                           ToInt(Finite(box.top)), ToInt(Finite(box.bottom)), color, pixelMatches)
  {
  }
}
