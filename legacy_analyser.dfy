/**
 * The first revision of the analyser, in the root package: the same index
 * search as the domain package's, but over the model's own `DetectionResult`
 * with Android `RectF` boxes, whose widths and heights are signed, and with
 * the reference object's width fixed at 123 mm.
 */
module LegacyAnalyser {
  import opened Wrappers
  import opened Detection
  import opened Processors
  import Scoreboards
  import Sorting
  import Search
  import DomainAnalyser

  const REFERENCE_OBJECT_WIDTH_MM: real := 123.0

  function ScoreAsFloat(result: DetectionResult): real { result.scoreAsFloat }

  /** The root package's `LoresBitmap.AnalysisOptions`. */
  datatype AnalysisOptions = AnalysisOptions(minTop: real)

  /** The index of the first result whose top edge lies below `minTop`, or -1. */
  function ReferenceIndex(sortedResults: seq<DetectionResult>, minTop: real): (i: int)
    ensures -1 <= i < |sortedResults|
    ensures i == -1 <==> forall j | 0 <= j < |sortedResults| :: sortedResults[j].locationAsRectF.top <= minTop
    ensures 0 <= i ==>
      && sortedResults[i].locationAsRectF.top > minTop
      && forall j | 0 <= j < i :: sortedResults[j].locationAsRectF.top <= minTop
  {
    Search.IndexOfFirst(sortedResults, (result: DetectionResult) => result.locationAsRectF.top > minTop)
  }

  /** The index of the first result whose bottom edge lies above `referenceTop`, or -1. */
  function IndexAbove(sortedResults: seq<DetectionResult>, referenceTop: real): (i: int)
    ensures -1 <= i < |sortedResults|
    ensures i == -1 <==> forall j | 0 <= j < |sortedResults| :: sortedResults[j].locationAsRectF.bottom >= referenceTop
    ensures 0 <= i ==>
      && sortedResults[i].locationAsRectF.bottom < referenceTop
      && forall j | 0 <= j < i :: sortedResults[j].locationAsRectF.bottom >= referenceTop
  {
    Search.IndexOfFirst(sortedResults, (result: DetectionResult) => result.locationAsRectF.bottom < referenceTop)
  }

  /** What `findTargetObject` returns: the reference lookup throws outside the list. */
  function TargetIndex(sortedResults: seq<DetectionResult>, referenceObjectIndex: int): (r: Result<int>)
    ensures r.Failure? <==> !(0 <= referenceObjectIndex < |sortedResults|)
    ensures r.Failure? ==> r.error == IndexOutOfBoundsException
    ensures r.Success? ==> r.value == IndexAbove(sortedResults, sortedResults[referenceObjectIndex].locationAsRectF.top)
  {
    if 0 <= referenceObjectIndex < |sortedResults| then
      Success(IndexAbove(sortedResults, sortedResults[referenceObjectIndex].locationAsRectF.top))
    else
      Failure(IndexOutOfBoundsException)
  }

  /**
   * `calculateTargetObjectSize` on signed `RectF` extents: (-1, -1) when an
   * object is missing, an exception for another index outside the list, and
   * otherwise the scaling step shared with the domain package, with 123 mm.
   */
  function CalculateTargetObjectSize(sortedResults: seq<DetectionResult>, referenceObjectIndex: int,
                                     targetObjectIndex: int): (r: Result<(int, int)>)
    ensures referenceObjectIndex == -1 || targetObjectIndex == -1 ==> r == Success((-1, -1))
    ensures r.Failure? <==>
      && referenceObjectIndex != -1 && targetObjectIndex != -1
      && !(0 <= referenceObjectIndex < |sortedResults| && 0 <= targetObjectIndex < |sortedResults|)
    ensures r.Failure? ==> r.error == IndexOutOfBoundsException
    ensures r.Success? && referenceObjectIndex != -1 && targetObjectIndex != -1 ==>
      var target := sortedResults[targetObjectIndex].locationAsRectF;
      r.value == DomainAnalyser.LongMillimetres(target.Width(), target.Height(),
                                                sortedResults[referenceObjectIndex].locationAsRectF.Width(),
                                                REFERENCE_OBJECT_WIDTH_MM)
  {
    if referenceObjectIndex == -1 || targetObjectIndex == -1 then Success((-1, -1))
    else if !(0 <= referenceObjectIndex < |sortedResults| && 0 <= targetObjectIndex < |sortedResults|) then
      Failure(IndexOutOfBoundsException)
    else
      var referenceObjectResult := sortedResults[referenceObjectIndex];
      var targetObjectResult := sortedResults[targetObjectIndex];
      var referenceObjectWidthPx := referenceObjectResult.locationAsRectF.Width();
      Success(DomainAnalyser.LongMillimetres(targetObjectResult.locationAsRectF.Width(),
                                             targetObjectResult.locationAsRectF.Height(),
                                             referenceObjectWidthPx, REFERENCE_OBJECT_WIDTH_MM))
  }

  /** The result of `analyse`, carrying the sorted results themselves. */
  datatype AnalysisResult = AnalysisResult(
    sortedResults: seq<DetectionResult>,
    referenceObjectIndex: int,
    targetObjectIndex: int,
    targetObjectSizeMillimetres: (int, int))

  /** What `analyse` returns; like the later revision it throws when there is no reference object. */
  function Analysis(sortedResults: seq<DetectionResult>, minTop: real): (r: Result<AnalysisResult>)
    ensures r.Failure? <==> ReferenceIndex(sortedResults, minTop) == -1
    ensures r.Success? ==>
      && r.value.sortedResults == sortedResults
      && r.value.referenceObjectIndex == ReferenceIndex(sortedResults, minTop)
      && Success(r.value.targetObjectIndex) == TargetIndex(sortedResults, r.value.referenceObjectIndex)
      && Success(r.value.targetObjectSizeMillimetres)
         == CalculateTargetObjectSize(sortedResults, r.value.referenceObjectIndex, r.value.targetObjectIndex)
  {
    var referenceObjectIndex := ReferenceIndex(sortedResults, minTop);
    match TargetIndex(sortedResults, referenceObjectIndex)
    case Failure(e) => Failure(e)
    case Success(targetObjectIndex) =>
      match CalculateTargetObjectSize(sortedResults, referenceObjectIndex, targetObjectIndex)
      case Failure(e) => Failure(e)
      case Success(size) => Success(AnalysisResult(sortedResults, referenceObjectIndex, targetObjectIndex, size))
  }

  /** The root package's analyser. */
  class Analyser {
    const sortedResults: seq<DetectionResult>

    constructor (results: seq<DetectionResult>)
      ensures sortedResults == Sorting.SortedByDescending(results, ScoreAsFloat)
    {
      sortedResults := Sorting.SortedByDescending(results, ScoreAsFloat);
    }

    /** `findReferenceObject`. */
    method FindReferenceObject(minTop: real) returns (index: int)
      ensures index == ReferenceIndex(sortedResults, minTop)
    {
      var i := 0;
      while i < |sortedResults|
        invariant 0 <= i <= |sortedResults|
        invariant forall j | 0 <= j < i :: sortedResults[j].locationAsRectF.top <= minTop
      {
        if sortedResults[i].locationAsRectF.top > minTop {
          return i;
        }
        i := i + 1;
      }
      return -1;
    }

    /** `findTargetObject`. */
    method FindTargetObject(referenceObjectIndex: int) returns (r: Result<int>)
      ensures r == TargetIndex(sortedResults, referenceObjectIndex)
    {
      if !(0 <= referenceObjectIndex < |sortedResults|) {
        return Failure(IndexOutOfBoundsException);
      }
      var referenceObject := sortedResults[referenceObjectIndex];
      var i := 0;
      while i < |sortedResults|
        invariant 0 <= i <= |sortedResults|
        invariant forall j | 0 <= j < i :: sortedResults[j].locationAsRectF.bottom >= referenceObject.locationAsRectF.top
      {
        if sortedResults[i].locationAsRectF.bottom < referenceObject.locationAsRectF.top {
          return Success(i);
        }
        i := i + 1;
      }
      return Success(-1);
    }

    /** `analyse`. */
    method Analyse(options: AnalysisOptions) returns (r: Result<AnalysisResult>)
      ensures r == Analysis(sortedResults, options.minTop)
    {
      var referenceObjectIndex := FindReferenceObject(options.minTop);
      var target := FindTargetObject(referenceObjectIndex);
      if target.Failure? {
        return Failure(target.error);
      }
      var targetObjectIndex := target.value;
      var size := CalculateTargetObjectSize(sortedResults, referenceObjectIndex, targetObjectIndex);
      if size.Failure? {
        return Failure(size.error);
      }
      return Success(AnalysisResult(sortedResults, referenceObjectIndex, targetObjectIndex, size.value));
    }
  }

  /** Converting one result and inserting it commutes with inserting and then converting. */
  lemma {:induction false} InsertCommutes(x: DetectionResult, s: seq<DetectionResult>)
    ensures ToTestable(Sorting.Insert(x, s, ScoreAsFloat)) == Sorting.Insert(ToItem(x), ToTestable(s), Scoreboards.Score)
  {
    if |s| == 0 || ScoreAsFloat(s[0]) <= ScoreAsFloat(x) {
      assert ([x] + s)[1..] == s;
    } else {
      var rest := Sorting.Insert(x, s[1..], ScoreAsFloat);
      assert ([s[0]] + rest)[1..] == rest;
      InsertCommutes(x, s[1..]);
      assert ToTestable(s)[1..] == ToTestable(s[1..]);
    }
  }

  /**
   * Both revisions sort the same detections into the same order: sorting
   * `DetectionResult`s by `scoreAsFloat` and converting them gives the
   * converted results sorted by `score`.
   */
  lemma {:induction false} SortCommutes(results: seq<DetectionResult>)
    ensures ToTestable(Sorting.SortedByDescending(results, ScoreAsFloat))
         == Sorting.SortedByDescending(ToTestable(results), Scoreboards.Score)
  {
    if |results| > 0 {
      SortCommutes(results[1..]);
      InsertCommutes(results[0], Sorting.SortedByDescending(results[1..], ScoreAsFloat));
      assert ToTestable(results)[1..] == ToTestable(results[1..]);
    }
  }

  /** Both revisions pick the same reference object from the same results. */
  lemma ReferenceIndexAgrees(sortedResults: seq<DetectionResult>, minTop: real)
    ensures ReferenceIndex(sortedResults, minTop) == ReferenceObjectFinder(minTop).IndexIn(ToTestable(sortedResults))
  {
  }

  /** Both revisions pick the same target object for the same reference index. */
  lemma TargetIndexAgrees(sortedResults: seq<DetectionResult>, referenceObjectIndex: int)
    ensures TargetIndex(sortedResults, referenceObjectIndex)
         == DomainAnalyser.TargetIndex(ToTestable(sortedResults), referenceObjectIndex)
  {
    if 0 <= referenceObjectIndex < |sortedResults| {
      TargetSearchAgrees(sortedResults, referenceObjectIndex);
    }
  }

  lemma TargetSearchAgrees(sortedResults: seq<DetectionResult>, referenceObjectIndex: int)
    requires 0 <= referenceObjectIndex < |sortedResults|
    ensures IndexAbove(sortedResults, sortedResults[referenceObjectIndex].locationAsRectF.top)
         == TargetObjectFinder(ToTestable(sortedResults)[referenceObjectIndex]).IndexIn(ToTestable(sortedResults))
  {
  }

  /** A box whose right edge is not left of its left edge, and whose bottom is not above its top. */
  predicate Upright(rect: RectF) { rect.left <= rect.right && rect.top <= rect.bottom }

  /** On upright boxes the signed extents are the absolute ones, so both revisions scale alike. */
  lemma SizeAgrees(reference: DetectionResult, target: DetectionResult)
    requires Upright(reference.locationAsRectF) && Upright(target.locationAsRectF)
    ensures DomainAnalyser.LongMillimetres(target.locationAsRectF.Width(), target.locationAsRectF.Height(),
                                           reference.locationAsRectF.Width(), REFERENCE_OBJECT_WIDTH_MM)
         == DomainAnalyser.LongMillimetres(ToItem(target).location.Width(), ToItem(target).location.Height(),
                                           ToItem(reference).location.Width(), REFERENCE_OBJECT_WIDTH_MM)
  {
  }

  /**
   * With the domain package's reference width set to 123 mm, both revisions
   * reach the same verdict and pick the same reference and target indices;
   * `SizeAgrees` covers the size of those two items.
   */
  lemma AnalysisAgrees(sortedResults: seq<DetectionResult>, minTop: real)
    ensures var legacy := Analysis(sortedResults, minTop);
      var domain := DomainAnalyser.Analysis(ToTestable(sortedResults), minTop, REFERENCE_OBJECT_WIDTH_MM);
      && (legacy.Failure? <==> domain.Failure?)
      && (legacy.Success? ==>
            && legacy.value.referenceObjectIndex == domain.value.referenceObjectIndex
            && legacy.value.targetObjectIndex == domain.value.targetObjectIndex)
  {
    ReferenceIndexAgrees(sortedResults, minTop);
    TargetIndexAgrees(sortedResults, ReferenceIndex(sortedResults, minTop));
  }
}
