/**
 * The index-based `Analyser` of the domain package: it sorts the results
 * once, finds the reference and target objects as indices (-1 for "not
 * found") and sizes the target, carrying `Long` millimetres.
 */
module DomainAnalyser {
  import opened Wrappers
  import opened KotlinNumbers
  import opened Detection
  import opened Scoreboards
  import opened Processors
  import Sorting

  datatype AnalysisOptions = AnalysisOptions(minTop: real)

  datatype AnalysisResult = AnalysisResult(
    sortedResults: seq<TestableDetectionResult>,
    referenceObjectIndex: int,
    targetObjectIndex: int,
    targetObjectSizeMillimetres: (int, int))

  /**
   * What `findTargetObject` returns: the lookup of the reference object throws
   * unless its index lies in the list; otherwise the first index of an item
   * above it, or -1.
   */
  function TargetIndex(sortedResults: seq<TestableDetectionResult>, referenceObjectIndex: int): (r: Result<int>)
    ensures r.Failure? <==> !(0 <= referenceObjectIndex < |sortedResults|)
    ensures r.Failure? ==> r.error == IndexOutOfBoundsException
    ensures r.Success? ==> r.value == TargetObjectFinder(sortedResults[referenceObjectIndex]).IndexIn(sortedResults)
  {
    if 0 <= referenceObjectIndex < |sortedResults| then
      Success(TargetObjectFinder(sortedResults[referenceObjectIndex]).IndexIn(sortedResults))
    else
      Failure(IndexOutOfBoundsException)
  }

  /** What `toLong()` makes of a pixel extent scaled by an infinite number of millimetres per pixel. */
  function SaturatedLong(px: real): int
  {
    if px > 0.0 then LONG_MAX else if px < 0.0 then LONG_MIN else 0
  }

  /**
   * The scaling step of `calculateTargetObjectSize`: millimetres per pixel
   * from the reference, applied to the target's width and height and
   * converted with `toLong()`. A zero reference width makes the scale
   * infinite, so the conversions saturate (or give 0 for NaN).
   */
  function LongMillimetres(targetWidthPx: real, targetHeightPx: real, referenceObjectWidthPx: real,
                           referenceObjectWidthMm: real): (size: (int, int))
    ensures referenceObjectWidthPx != 0.0 ==>
      && size.0 == ToLong(Finite(ExactMillimetres(targetWidthPx, referenceObjectWidthMm, referenceObjectWidthPx)))
      && size.1 == ToLong(Finite(ExactMillimetres(targetHeightPx, referenceObjectWidthMm, referenceObjectWidthPx)))
    ensures referenceObjectWidthPx == 0.0 && referenceObjectWidthMm > 0.0 ==>
      size == (SaturatedLong(targetWidthPx), SaturatedLong(targetHeightPx))
  {
    var mmPerPixel := Divide(referenceObjectWidthMm, referenceObjectWidthPx);
    ScaleIsExact(targetWidthPx, referenceObjectWidthMm, referenceObjectWidthPx);
    ScaleIsExact(targetHeightPx, referenceObjectWidthMm, referenceObjectWidthPx);
    (ToLong(Times(targetWidthPx, mmPerPixel)), ToLong(Times(targetHeightPx, mmPerPixel)))
  }

  /**
   * `calculateTargetObjectSize`: (-1, -1) when either object is missing;
   * otherwise both items are looked up (an index outside the list throws) and
   * the target is scaled by the reference's millimetres per pixel.
   */
  function CalculateTargetObjectSize(sortedResults: seq<TestableDetectionResult>, referenceObjectIndex: int,
                                     targetObjectIndex: int, referenceObjectWidthMm: real): (r: Result<(int, int)>)
    ensures referenceObjectIndex == -1 || targetObjectIndex == -1 ==> r == Success((-1, -1))
    ensures r.Failure? <==>
      && referenceObjectIndex != -1 && targetObjectIndex != -1
      && !(0 <= referenceObjectIndex < |sortedResults| && 0 <= targetObjectIndex < |sortedResults|)
    ensures r.Failure? ==> r.error == IndexOutOfBoundsException
    ensures r.Success? && referenceObjectIndex != -1 && targetObjectIndex != -1 ==>
      var target := sortedResults[targetObjectIndex].location;
      r.value == LongMillimetres(target.Width(), target.Height(),
                                 sortedResults[referenceObjectIndex].location.Width(), referenceObjectWidthMm)
  {
    if referenceObjectIndex == -1 || targetObjectIndex == -1 then Success((-1, -1))
    else if !(0 <= referenceObjectIndex < |sortedResults| && 0 <= targetObjectIndex < |sortedResults|) then
      Failure(IndexOutOfBoundsException)
    else
      var referenceObjectResult := sortedResults[referenceObjectIndex];
      var targetObjectResult := sortedResults[targetObjectIndex];
      var referenceObjectWidthPx := referenceObjectResult.location.Width();
      Success(LongMillimetres(targetObjectResult.location.Width(), targetObjectResult.location.Height(),
                              referenceObjectWidthPx, referenceObjectWidthMm))
  }

  /**
   * What `analyse` returns, as written: the reference index goes straight into
   * `findTargetObject`, so a scene without a reference object throws.
   */
  function Analysis(sortedResults: seq<TestableDetectionResult>, minTop: real, referenceObjectWidthMm: real): (r: Result<AnalysisResult>)
    ensures r.Failure? <==> ReferenceObjectFinder(minTop).IndexIn(sortedResults) == -1
    ensures r.Success? ==>
      && r.value.sortedResults == sortedResults
      && r.value.referenceObjectIndex == ReferenceObjectFinder(minTop).IndexIn(sortedResults)
      && Success(r.value.targetObjectIndex) == TargetIndex(sortedResults, r.value.referenceObjectIndex)
      && Success(r.value.targetObjectSizeMillimetres)
         == CalculateTargetObjectSize(sortedResults, r.value.referenceObjectIndex, r.value.targetObjectIndex, referenceObjectWidthMm)
  {
    var referenceObjectIndex := ReferenceObjectFinder(minTop).IndexIn(sortedResults);
    match TargetIndex(sortedResults, referenceObjectIndex)
    case Failure(e) => Failure(e)
    case Success(targetObjectIndex) =>
      match CalculateTargetObjectSize(sortedResults, referenceObjectIndex, targetObjectIndex, referenceObjectWidthMm)
      case Failure(e) => Failure(e)
      case Success(size) => Success(AnalysisResult(sortedResults, referenceObjectIndex, targetObjectIndex, size))
  }

  /** `findTargetObject` as its unit test expects it: no reference object, no target object. */
  function CorrectedTargetIndex(sortedResults: seq<TestableDetectionResult>, referenceObjectIndex: int): (r: Result<int>)
    ensures referenceObjectIndex == -1 ==> r == Success(-1)
    ensures referenceObjectIndex != -1 ==> r == TargetIndex(sortedResults, referenceObjectIndex)
  {
    if referenceObjectIndex == -1 then Success(-1) else TargetIndex(sortedResults, referenceObjectIndex)
  }

  /**
   * `analyse` with the corrected target search: it never throws, reports a
   * missing reference as (-1, -1, (-1, -1)) and otherwise agrees with the
   * code as written.
   */
  function CorrectedAnalysis(sortedResults: seq<TestableDetectionResult>, minTop: real, referenceObjectWidthMm: real): (r: Result<AnalysisResult>)
    ensures r.Success?
    ensures ReferenceObjectFinder(minTop).IndexIn(sortedResults) == -1 ==>
      r.value == AnalysisResult(sortedResults, -1, -1, (-1, -1))
    ensures ReferenceObjectFinder(minTop).IndexIn(sortedResults) != -1 ==>
      r == Analysis(sortedResults, minTop, referenceObjectWidthMm)
  {
    var referenceObjectIndex := ReferenceObjectFinder(minTop).IndexIn(sortedResults);
    match CorrectedTargetIndex(sortedResults, referenceObjectIndex)
    case Failure(e) => Failure(e)
    case Success(targetObjectIndex) =>
      match CalculateTargetObjectSize(sortedResults, referenceObjectIndex, targetObjectIndex, referenceObjectWidthMm)
      case Failure(e) => Failure(e)
      case Success(size) => Success(AnalysisResult(sortedResults, referenceObjectIndex, targetObjectIndex, size))
  }

  /**
   * The scene of the unit test `find target object when reference object was
   * not found`: one box wholly above `minTop`. As written, `analyse` throws;
   * corrected, it reports no target.
   */
  lemma AnalyseThrowsWithoutReference(c: real)
    ensures var sorted := [ScoreboardItem(0.9, BoundingBox(top := 10.0, left := 10.0, bottom := 100.0, right := 200.0))];
      && Analysis(sorted, 150.0, c) == Failure(IndexOutOfBoundsException)
      && CorrectedAnalysis(sorted, 150.0, c) == Success(AnalysisResult(sorted, -1, -1, (-1, -1)))
  {
    var sorted := [ScoreboardItem(0.9, BoundingBox(top := 10.0, left := 10.0, bottom := 100.0, right := 200.0))];
    assert sorted[0].location.top <= 150.0;
    assert ReferenceObjectFinder(150.0).IndexIn(sorted) == -1;
  }

  /** The analyser of the domain package: results sorted once, at construction. */
  class Analyser {
    const sortedResults: seq<TestableDetectionResult>
    const referenceObjectWidthMm: real

    constructor (results: seq<TestableDetectionResult>, referenceObjectWidthMm: real)
      ensures sortedResults == Sorting.SortedByDescending(results, Score)
      ensures this.referenceObjectWidthMm == referenceObjectWidthMm
    {
      sortedResults := Sorting.SortedByDescending(results, Score);
      this.referenceObjectWidthMm := referenceObjectWidthMm;
    }

    /** `findReferenceObject`: the first index of an item below `minTop`, or -1. */
    method FindReferenceObject(minTop: real) returns (index: int)
      ensures index == ReferenceObjectFinder(minTop).IndexIn(sortedResults)
    {
      var i := 0;
      while i < |sortedResults|
        invariant 0 <= i <= |sortedResults|
        invariant forall j | 0 <= j < i :: sortedResults[j].location.top <= minTop
      {
        if sortedResults[i].location.top > minTop {
          return i;
        }
        i := i + 1;
      }
      return -1;
    }

    /** `findTargetObject`: the first index of an item above the reference object, or -1. */
    method FindTargetObject(referenceObjectIndex: int) returns (r: Result<int>)
      ensures r == TargetIndex(sortedResults, referenceObjectIndex)
    {
      if !(0 <= referenceObjectIndex < |sortedResults|) {
        return Failure(IndexOutOfBoundsException);
      }
      var referenceObject := sortedResults[referenceObjectIndex];
      var i := 0;
      while i < |sortedResults|
        invariant 0 <= i <= |sortedResults|
        invariant forall j | 0 <= j < i :: sortedResults[j].location.bottom >= referenceObject.location.top
      {
        if sortedResults[i].location.bottom < referenceObject.location.top {
          return Success(i);
        }
        i := i + 1;
      }
      return Success(-1);
    }

    /** `analyse`. */
    method Analyse(options: AnalysisOptions) returns (r: Result<AnalysisResult>)
      ensures r == Analysis(sortedResults, options.minTop, referenceObjectWidthMm)
    {
      var referenceObjectIndex := FindReferenceObject(options.minTop);
      var target := FindTargetObject(referenceObjectIndex);
      if target.Failure? {
        return Failure(target.error);
      }
      var targetObjectIndex := target.value;
      var size := CalculateTargetObjectSize(sortedResults, referenceObjectIndex, targetObjectIndex, referenceObjectWidthMm);
      if size.Failure? {
        return Failure(size.error);
      }
      return Success(AnalysisResult(sortedResults, referenceObjectIndex, targetObjectIndex, size.value));
    }
  }
}
