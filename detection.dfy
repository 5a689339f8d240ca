/**
 * The detection model's output and the app's own testable copy of it:
 * scored, axis-aligned boxes in image coordinates (y grows downwards).
 */
module Detection {

  /** The app's box. Its width and height are absolute differences, so they never go negative. */
  datatype BoundingBox = BoundingBox(top: real, left: real, bottom: real, right: real) {

    function Width(): (w: real)
      ensures w >= 0.0
      ensures w == right - left || w == left - right
    {
      if right >= left then right - left else left - right
    }

    function Height(): (h: real)
      ensures h >= 0.0
      ensures h == top - bottom || h == bottom - top
    {
      if top >= bottom then top - bottom else bottom - top
    }
  }

  /** One scored detection, as the app stores it. */
  datatype ScoreboardItem = ScoreboardItem(score: real, location: BoundingBox)

  /** The earlier name of the same record: a score and a `BoundingBox`. */
  type TestableDetectionResult = ScoreboardItem

  /**
   * Android's `RectF`, as the detection model reports a location. Unlike
   * `BoundingBox`, its width and height are signed differences.
   */
  datatype RectF = RectF(left: real, top: real, right: real, bottom: real) {
    function Width(): real { right - left }
    function Height(): real { bottom - top }
  }

  /** One result of the generated detection-model wrapper. */
  datatype DetectionResult = DetectionResult(scoreAsFloat: real, locationAsRectF: RectF)

  /** Converts one model result into the app's record. */
  function ToItem(d: DetectionResult): ScoreboardItem
  {
    var r := d.locationAsRectF;
    ScoreboardItem(d.scoreAsFloat, BoundingBox(top := r.top, left := r.left, bottom := r.bottom, right := r.right))
  }

  /** `toTestable`: maps every model result, in order, to the app's record. */
  function ToTestable(results: seq<DetectionResult>): (items: seq<ScoreboardItem>)
    ensures |items| == |results|
    ensures forall i | 0 <= i < |results| :: items[i] == ToItem(results[i])
    ensures forall i | 0 <= i < |results| ::
      && items[i].score == results[i].scoreAsFloat
      && items[i].location.top == results[i].locationAsRectF.top
      && items[i].location.left == results[i].locationAsRectF.left
      && items[i].location.bottom == results[i].locationAsRectF.bottom
      && items[i].location.right == results[i].locationAsRectF.right
  {
    if |results| == 0 then [] else [ToItem(results[0])] + ToTestable(results[1..])
  }

  /** `BoundingBox.toRectF`: back to Android's rectangle. */
  function ToRectF(box: BoundingBox): (r: RectF)
    ensures r.left == box.left && r.top == box.top && r.right == box.right && r.bottom == box.bottom
  {
    RectF(box.left, box.top, box.right, box.bottom)
  }

  /** Converting a model result and then its box back to a `RectF` gives the original rectangle. */
  lemma ToTestableRoundTrip(results: seq<DetectionResult>, i: int)
    requires 0 <= i < |results|
    ensures ToRectF(ToTestable(results)[i].location) == results[i].locationAsRectF
  {
  }

  /** The width is the absolute value of the signed `RectF` width of the same corners. */
  lemma WidthIsAbsolute(box: BoundingBox)
    ensures box.Width() == if ToRectF(box).Width() >= 0.0 then ToRectF(box).Width() else -ToRectF(box).Width()
    ensures box.Height() == if ToRectF(box).Height() >= 0.0 then ToRectF(box).Height() else -ToRectF(box).Height()
  {
  }

  /** Swapping left with right leaves the width alone; swapping top with bottom leaves the height alone. */
  lemma SwapInvariance(box: BoundingBox)
    ensures box.(left := box.right, right := box.left).Width() == box.Width()
    ensures box.(top := box.bottom, bottom := box.top).Height() == box.Height()
  {
  }

  /** A box has zero width exactly when its left and right edges coincide, and likewise for height. */
  lemma ZeroExtent(box: BoundingBox)
    ensures box.Width() == 0.0 <==> box.left == box.right
    ensures box.Height() == 0.0 <==> box.top == box.bottom
  {
  }
}
