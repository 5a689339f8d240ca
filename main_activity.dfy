/**
 * The measurement helpers of the first `MainActivity`: the same index
 * searches as the root package's analyser with `minTop` fixed at 150, and a
 * width-only size estimate from a 210 mm reference object, returned as a
 * Float. Only their call order in `onCreate` is modelled.
 */
module MainActivity {
  import opened Wrappers
  import opened KotlinNumbers
  import opened Detection
  import opened LegacyAnalyser
  import Processors
  import Sorting

  const MIN_TOP: real := 150.0
  const ACTUAL_REFERENCE_OBJECT_WIDTH_MM: real := 210.0

  /** `findReferenceObject`: the first index whose top edge lies below 150, or -1. */
  method FindReferenceObject(sortedResults: seq<DetectionResult>) returns (index: int)
    ensures index == ReferenceIndex(sortedResults, MIN_TOP)
  {
    var i := 0;
    while i < |sortedResults|
      invariant 0 <= i <= |sortedResults|
      invariant forall j | 0 <= j < i :: sortedResults[j].locationAsRectF.top <= MIN_TOP
    {
      if sortedResults[i].locationAsRectF.top > MIN_TOP {
        return i;
      }
      i := i + 1;
    }
    return -1;
  }

  /** `findTargetObject`: the reference lookup throws outside the list. */
  method FindTargetObject(sortedResults: seq<DetectionResult>, referenceObjectIndex: int) returns (r: Result<int>)
    ensures r == TargetIndex(sortedResults, referenceObjectIndex)
  {
    if !(0 <= referenceObjectIndex < |sortedResults|) {
      return Failure(IndexOutOfBoundsException);
    }
    var referenceObject := sortedResults[referenceObjectIndex];
    var i := 0;
    while i < |sortedResults|
      invariant 0 <= i <= |sortedResults|
      invariant forall j | 0 <= j < i :: sortedResults[j].locationAsRectF.bottom >= referenceObject.locationAsRectF.top
    {
      if sortedResults[i].locationAsRectF.bottom < referenceObject.locationAsRectF.top {
        return Success(i);
      }
      i := i + 1;
    }
    return Success(-1);
  }

  /**
   * `calculateTargetObjectSize`: the ratio of the two signed pixel widths
   * times 210 mm. Both lookups throw outside the list; a zero reference width
   * gives an infinity of the target width's sign, or NaN for a zero target.
   */
  function CalculateTargetObjectSize(sortedResults: seq<DetectionResult>, referenceObjectIndex: int,
                                     targetObjectIndex: int): (r: Result<Float>)
    ensures r.Failure? <==> !(0 <= referenceObjectIndex < |sortedResults| && 0 <= targetObjectIndex < |sortedResults|)
    ensures r.Failure? ==> r.error == IndexOutOfBoundsException
    ensures r.Success? ==>
      var rw := sortedResults[referenceObjectIndex].locationAsRectF.Width();
      var tw := sortedResults[targetObjectIndex].locationAsRectF.Width();
      && (rw != 0.0 ==> r.value == Finite(Processors.ExactMillimetres(tw, ACTUAL_REFERENCE_OBJECT_WIDTH_MM, rw)))
      && (rw == 0.0 ==>
            r.value == if tw > 0.0 then PositiveInfinity else if tw < 0.0 then NegativeInfinity else NaN)
  {
    if !(0 <= referenceObjectIndex < |sortedResults| && 0 <= targetObjectIndex < |sortedResults|) then
      Failure(IndexOutOfBoundsException)
    else
      var referenceObjectWidthPx := sortedResults[referenceObjectIndex].locationAsRectF.Width();
      var targetObjectWidthPx := sortedResults[targetObjectIndex].locationAsRectF.Width();
      var ratio := Divide(targetObjectWidthPx, referenceObjectWidthPx);
      RatioIsExact(targetObjectWidthPx, referenceObjectWidthPx);
      Success(Times(ACTUAL_REFERENCE_OBJECT_WIDTH_MM, ratio))
  }

  lemma RatioIsExact(tw: real, rw: real)
    ensures rw != 0.0 ==>
      Times(ACTUAL_REFERENCE_OBJECT_WIDTH_MM, Divide(tw, rw))
      == Finite(Processors.ExactMillimetres(tw, ACTUAL_REFERENCE_OBJECT_WIDTH_MM, rw))
  {
    if rw != 0.0 {
      assert ACTUAL_REFERENCE_OBJECT_WIDTH_MM * (tw / rw) == tw * ACTUAL_REFERENCE_OBJECT_WIDTH_MM / rw;
    }
  }

  /**
   * What the measurement part of `onCreate` reaches: the two indices, and the
   * width estimate when it was computed.
   */
  datatype Measurement = Measurement(referenceObjectIndex: int, targetObjectIndex: int, targetObjectWidthMm: Option<Float>)

  /**
   * The measurement part of `onCreate` on the detections of the bundled
   * image: sort, find the reference, find the target unconditionally, then
   * size only when the image was decoded and both indices are found.
   */
  function OnCreateMeasurement(detections: seq<DetectionResult>, bitmapLoaded: bool): (r: Result<Measurement>)
    ensures var sorted := Sorting.SortedByDescending(detections, ScoreAsFloat);
      && (r.Failure? <==> ReferenceIndex(sorted, MIN_TOP) == -1)
      && (r.Success? ==>
            && r.value.referenceObjectIndex == ReferenceIndex(sorted, MIN_TOP)
            && Success(r.value.targetObjectIndex) == TargetIndex(sorted, r.value.referenceObjectIndex)
            && (r.value.targetObjectWidthMm.Some? <==> bitmapLoaded && r.value.targetObjectIndex != -1)
            && (r.value.targetObjectWidthMm.Some? ==>
                  Success(r.value.targetObjectWidthMm.value)
                  == CalculateTargetObjectSize(sorted, r.value.referenceObjectIndex, r.value.targetObjectIndex)))
  {
    var resultsByScore := Sorting.SortedByDescending(detections, ScoreAsFloat);
    var referenceObjectIndex := ReferenceIndex(resultsByScore, MIN_TOP);
    match TargetIndex(resultsByScore, referenceObjectIndex)
    case Failure(e) => Failure(e)
    case Success(targetObjectIndex) =>
      if bitmapLoaded && referenceObjectIndex != -1 && targetObjectIndex != -1 then
        match CalculateTargetObjectSize(resultsByScore, referenceObjectIndex, targetObjectIndex)
        case Failure(e) => Failure(e)
        case Success(width) => Success(Measurement(referenceObjectIndex, targetObjectIndex, Some(width)))
      else
        Success(Measurement(referenceObjectIndex, targetObjectIndex, None))
  }

  /** The measurement steps of `onCreate`, in their order. */
  method OnCreate(detections: seq<DetectionResult>, bitmapLoaded: bool) returns (r: Result<Measurement>)
    ensures r == OnCreateMeasurement(detections, bitmapLoaded)
  {
    var resultsByScore := Sorting.SortedByDescending(detections, ScoreAsFloat);
    var referenceObjectIndex := FindReferenceObject(resultsByScore);
    var target := FindTargetObject(resultsByScore, referenceObjectIndex);
    if target.Failure? {
      return Failure(target.error);
    }
    var targetObjectIndex := target.value;
    if bitmapLoaded && referenceObjectIndex != -1 && targetObjectIndex != -1 {
      var width := CalculateTargetObjectSize(resultsByScore, referenceObjectIndex, targetObjectIndex);
      if width.Failure? {
        return Failure(width.error);
      }
      return Success(Measurement(referenceObjectIndex, targetObjectIndex, Some(width.value)));
    }
    return Success(Measurement(referenceObjectIndex, targetObjectIndex, None));
  }

  /**
   * `onCreate` finds the same objects as the root package's analyser run
   * with `minTop` 150 on the same detections, and fails exactly when it does.
   */
  lemma OnCreateFindsWhatAnalyserFinds(detections: seq<DetectionResult>, bitmapLoaded: bool)
    ensures var sorted := Sorting.SortedByDescending(detections, ScoreAsFloat);
      var measured := OnCreateMeasurement(detections, bitmapLoaded);
      var analysed := Analysis(sorted, MIN_TOP);
      && (measured.Failure? <==> analysed.Failure?)
      && (measured.Success? ==>
            && measured.value.referenceObjectIndex == analysed.value.referenceObjectIndex
            && measured.value.targetObjectIndex == analysed.value.targetObjectIndex)
  {
  }
}
