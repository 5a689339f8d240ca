/**
 * The three steps of a measurement, each a processor of a `Scoreboard`:
 * find the reference object, find the target object above it, and size the
 * target from the reference's known real width. Also the earlier,
 * index-based sizer that works on a `SortedResultList`.
 */
module Processors {
  import opened Wrappers
  import opened KotlinNumbers
  import opened Detection
  import opened Scoreboards
  import Search
  import Sorting

  /** Finds the highest scoring item whose top edge lies below `minTop`. */
  datatype ReferenceObjectFinder = ReferenceObjectFinder(minTop: real) {

    predicate Accepts(item: ScoreboardItem) { item.location.top > minTop }

    /** The index of the first item the finder accepts, or -1. */
    function IndexIn(list: seq<ScoreboardItem>): (i: int)
      ensures -1 <= i < |list|
      ensures i == -1 <==> forall j | 0 <= j < |list| :: list[j].location.top <= minTop
      ensures 0 <= i ==> list[i].location.top > minTop && forall j | 0 <= j < i :: list[j].location.top <= minTop
    {
      Search.IndexOfFirst(list, (item: ScoreboardItem) => Accepts(item))
    }

    /** What `process` returns. */
    function Find(scoreboard: Scoreboard): (r: Option<ScoreboardItem>)
      ensures r.None? <==> forall j | 0 <= j < |scoreboard.list| :: scoreboard.list[j].location.top <= minTop
      ensures r.Some? ==> r.value in scoreboard.list && r.value.location.top > minTop
      ensures r.Some? ==> r.value == scoreboard.list[IndexIn(scoreboard.list)]
    {
      var i := IndexIn(scoreboard.list);
      if i == -1 then None else Some(scoreboard.list[i])
    }

    /** `process`: the scan that returns at the first item below `minTop`. */
    method Process(scoreboard: Scoreboard) returns (r: Option<ScoreboardItem>)
      ensures r == Find(scoreboard)
    {
      var i := 0;
      while i < |scoreboard.list|
        invariant 0 <= i <= |scoreboard.list|
        invariant forall j | 0 <= j < i :: scoreboard.list[j].location.top <= minTop
      {
        var result := scoreboard.list[i];
        if result.location.top > minTop {
          return Some(result);
        }
        i := i + 1;
      }
      return None;
    }
  }

  /** On a sorted scoreboard the reference object outscores every other item below `minTop`. */
  lemma ReferenceScoresHighest(finder: ReferenceObjectFinder, scoreboard: Scoreboard)
    requires Sorting.IsDescending(scoreboard.list, Score)
    requires finder.Find(scoreboard).Some?
    ensures forall item | item in scoreboard.list && item.location.top > finder.minTop ::
      item.score <= finder.Find(scoreboard).value.score
  {
    var list := scoreboard.list;
    var i := finder.IndexIn(list);
    forall item | item in list && item.location.top > finder.minTop
      ensures item.score <= finder.Find(scoreboard).value.score
    {
      var j :| 0 <= j < |list| && list[j] == item;
      assert i <= j;
    }
  }

  /** Finds the highest scoring item lying wholly above the reference object's top edge. */
  datatype TargetObjectFinder = TargetObjectFinder(referenceObject: ScoreboardItem) {

    predicate Accepts(item: ScoreboardItem) { item.location.bottom < referenceObject.location.top }

    /** The index of the first item the finder accepts, or -1. */
    function IndexIn(list: seq<ScoreboardItem>): (i: int)
      ensures -1 <= i < |list|
      ensures i == -1 <==> forall j | 0 <= j < |list| :: list[j].location.bottom >= referenceObject.location.top
      ensures 0 <= i ==>
        && list[i].location.bottom < referenceObject.location.top
        && forall j | 0 <= j < i :: list[j].location.bottom >= referenceObject.location.top
    {
      Search.IndexOfFirst(list, (item: ScoreboardItem) => Accepts(item))
    }

    /** What `process` returns. */
    function Find(scoreboard: Scoreboard): (r: Option<ScoreboardItem>)
      ensures r.None? <==> forall j | 0 <= j < |scoreboard.list| ::
        scoreboard.list[j].location.bottom >= referenceObject.location.top
      ensures r.Some? ==> r.value in scoreboard.list && r.value.location.bottom < referenceObject.location.top
      ensures r.Some? ==> r.value == scoreboard.list[IndexIn(scoreboard.list)]
    {
      var i := IndexIn(scoreboard.list);
      if i == -1 then None else Some(scoreboard.list[i])
    }

    /** `process`: the scan that returns at the first item above the reference object. */
    method Process(scoreboard: Scoreboard) returns (r: Option<ScoreboardItem>)
      ensures r == Find(scoreboard)
    {
      var i := 0;
      while i < |scoreboard.list|
        invariant 0 <= i <= |scoreboard.list|
        invariant forall j | 0 <= j < i :: scoreboard.list[j].location.bottom >= referenceObject.location.top
      {
        var item := scoreboard.list[i];
        if item.location.bottom < referenceObject.location.top {
          return Some(item);
        }
        i := i + 1;
      }
      return None;
    }
  }

  /** On a sorted scoreboard the target object outscores every other item above the reference. */
  lemma TargetScoresHighest(finder: TargetObjectFinder, scoreboard: Scoreboard)
    requires Sorting.IsDescending(scoreboard.list, Score)
    requires finder.Find(scoreboard).Some?
    ensures forall item | item in scoreboard.list && item.location.bottom < finder.referenceObject.location.top ::
      item.score <= finder.Find(scoreboard).value.score
  {
    var list := scoreboard.list;
    var i := finder.IndexIn(list);
    forall item | item in list && item.location.bottom < finder.referenceObject.location.top
      ensures item.score <= finder.Find(scoreboard).value.score
    {
      var j :| 0 <= j < |list| && list[j] == item;
      assert i <= j;
    }
  }

  /**
   * The target finder looks at the reference object only through its top
   * edge: its score, its other edges and whether it is in the list at all
   * make no difference.
   */
  lemma TargetDependsOnlyOnReferenceTop(a: ScoreboardItem, b: ScoreboardItem, scoreboard: Scoreboard)
    requires a.location.top == b.location.top
    ensures TargetObjectFinder(a).Find(scoreboard) == TargetObjectFinder(b).Find(scoreboard)
  {
  }

  /** A reference box whose top is not below its bottom is never returned as its own target. */
  lemma TargetIsNotReference(reference: ScoreboardItem, scoreboard: Scoreboard)
    requires reference.location.top <= reference.location.bottom
    ensures TargetObjectFinder(reference).Find(scoreboard) != Some(reference)
  {
  }

  /** The exact size in millimetres of `px` pixels when `referenceObjectWidthPx` pixels span `referenceObjectWidthMm`. */
  function ExactMillimetres(px: real, referenceObjectWidthMm: real, referenceObjectWidthPx: real): real
    requires referenceObjectWidthPx != 0.0
  {
    px * referenceObjectWidthMm / referenceObjectWidthPx
  }

  /** Kotlin's `px * (c / refPx)` on Floats is the exact size when the reference width is not zero. */
  lemma ScaleIsExact(px: real, c: real, refPx: real)
    ensures refPx != 0.0 ==> Times(px, Divide(c, refPx)) == Finite(ExactMillimetres(px, c, refPx))
  {
    ScaleIsFinite(px, c, refPx);
    if refPx != 0.0 {
      assert px * (c / refPx) == px * c / refPx;
    }
  }

  lemma ExactNonNegative(px: real, c: real, refPx: real)
    requires px >= 0.0 && c >= 0.0 && refPx > 0.0
    ensures ExactMillimetres(px, c, refPx) >= 0.0
  {
    assert px * c >= 0.0;
  }

  lemma ExactMonotonic(px: real, qx: real, c: real, refPx: real)
    requires px <= qx && c >= 0.0 && refPx > 0.0
    ensures ExactMillimetres(px, c, refPx) <= ExactMillimetres(qx, c, refPx)
  {
    assert px * c <= qx * c;
  }

  /**
   * Sizes the target object: millimetres per pixel come from the reference
   * object's known real width `referenceObjectWidthMm` and its pixel width.
   */
  datatype ObjectSizer = ObjectSizer(referenceObject: ScoreboardItem, targetObject: ScoreboardItem) {

    /** `process`: (width, height) in whole millimetres, or null for a reference of no width. */
    function Process(scoreboard: Scoreboard, referenceObjectWidthMm: real): (r: Option<(int, int)>)
      ensures r.None? <==> referenceObject.location.Width() <= 0.0
      ensures r.Some? ==>
        var rw := referenceObject.location.Width();
        && r.value.0 == ToInt(Finite(ExactMillimetres(targetObject.location.Width(), referenceObjectWidthMm, rw)))
        && r.value.1 == ToInt(Finite(ExactMillimetres(targetObject.location.Height(), referenceObjectWidthMm, rw)))
    {
      var referenceObjectWidthPx := referenceObject.location.Width();
      if referenceObjectWidthPx <= 0.0 then None
      else
        var mmPerPixel := Divide(referenceObjectWidthMm, referenceObjectWidthPx);
        var actualTargetObjectWidthMm := Times(targetObject.location.Width(), mmPerPixel);
        var actualTargetObjectHeightMm := Times(targetObject.location.Height(), mmPerPixel);
        ScaleIsExact(targetObject.location.Width(), referenceObjectWidthMm, referenceObjectWidthPx);
        ScaleIsExact(targetObject.location.Height(), referenceObjectWidthMm, referenceObjectWidthPx);
        Some((ToInt(actualTargetObjectWidthMm), ToInt(actualTargetObjectHeightMm)))
    }
  }

  /**
   * With a positive real reference width, both components are whole
   * millimetres that never go negative, and within Int range they are the
   * floor of the exact size.
   */
  lemma SizeIsFlooredExactSize(sizer: ObjectSizer, scoreboard: Scoreboard, c: real)
    requires c > 0.0
    requires sizer.Process(scoreboard, c).Some?
    ensures var size := sizer.Process(scoreboard, c).value;
      var rw := sizer.referenceObject.location.Width();
      var w := ExactMillimetres(sizer.targetObject.location.Width(), c, rw);
      var h := ExactMillimetres(sizer.targetObject.location.Height(), c, rw);
      && 0 <= size.0 && 0 <= size.1
      && (w < INT_MAX as real + 1.0 ==> size.0 == w.Floor)
      && (h < INT_MAX as real + 1.0 ==> size.1 == h.Floor)
  {
    var rw := sizer.referenceObject.location.Width();
    ExactNonNegative(sizer.targetObject.location.Width(), c, rw);
    ExactNonNegative(sizer.targetObject.location.Height(), c, rw);
  }

  /** For a fixed reference, a wider target never yields a smaller width. */
  lemma SizeMonotonicInTargetWidth(reference: ScoreboardItem, narrow: ScoreboardItem, wide: ScoreboardItem,
                                   scoreboard: Scoreboard, c: real)
    requires c > 0.0
    requires reference.location.Width() > 0.0
    requires narrow.location.Width() <= wide.location.Width()
    ensures ObjectSizer(reference, narrow).Process(scoreboard, c).value.0
         <= ObjectSizer(reference, wide).Process(scoreboard, c).value.0
  {
    var rw := reference.location.Width();
    ExactMonotonic(narrow.location.Width(), wide.location.Width(), c, rw);
    ToIntegralMonotonic(ExactMillimetres(narrow.location.Width(), c, rw),
                        ExactMillimetres(wide.location.Width(), c, rw), INT_MIN, INT_MAX);
  }

  /** The sizer never looks at the scoreboard it is given. */
  lemma SizerIgnoresScoreboard(sizer: ObjectSizer, a: Scoreboard, b: Scoreboard, c: real)
    ensures sizer.Process(a, c) == sizer.Process(b, c)
  {
  }

  /**
   * The earlier sizer, given the two items' positions in a `SortedResultList`.
   * It has no zero-width guard: a reference of no width makes the scale
   * infinite, and the conversion to Int then saturates.
   */
  datatype IndexedObjectSizer = IndexedObjectSizer(referenceObjectIndex: int, targetObjectIndex: int) {

    /** `process`: null unless both indices lie in the list. */
    function Process(sortedResults: SortedResultList, referenceObjectWidthMm: real): (r: Option<(int, int)>)
      ensures r.None? <==> !(sortedResults.HasIndex(referenceObjectIndex) && sortedResults.HasIndex(targetObjectIndex))
      ensures r.Some? && sortedResults.sortedResultList[referenceObjectIndex].location.Width() > 0.0 ==>
        var list := sortedResults.sortedResultList;
        r == ObjectSizer(list[referenceObjectIndex], list[targetObjectIndex]).Process(Scoreboard(list), referenceObjectWidthMm)
    {
      if sortedResults.HasIndex(referenceObjectIndex) && sortedResults.HasIndex(targetObjectIndex) then
        var referenceObjectResult := sortedResults.sortedResultList[referenceObjectIndex];
        var targetObjectResult := sortedResults.sortedResultList[targetObjectIndex];
        var referenceObjectWidthPx := referenceObjectResult.location.Width();
        var mmPerPixel := Divide(referenceObjectWidthMm, referenceObjectWidthPx);
        var actualTargetObjectWidthMm := Times(targetObjectResult.location.Width(), mmPerPixel);
        var actualTargetObjectHeightMm := Times(targetObjectResult.location.Height(), mmPerPixel);
        ScaleIsExact(targetObjectResult.location.Width(), referenceObjectWidthMm, referenceObjectWidthPx);
        ScaleIsExact(targetObjectResult.location.Height(), referenceObjectWidthMm, referenceObjectWidthPx);
        Some((ToInt(actualTargetObjectWidthMm), ToInt(actualTargetObjectHeightMm)))
      else
        None
    }
  }

  /** Only the two indexed items affect the result. */
  lemma IndexedSizerReadsOnlyItsItems(sizer: IndexedObjectSizer, a: SortedResultList, b: SortedResultList, c: real)
    requires a.HasIndex(sizer.referenceObjectIndex) && a.HasIndex(sizer.targetObjectIndex)
    requires b.HasIndex(sizer.referenceObjectIndex) && b.HasIndex(sizer.targetObjectIndex)
    requires a.sortedResultList[sizer.referenceObjectIndex] == b.sortedResultList[sizer.referenceObjectIndex]
    requires a.sortedResultList[sizer.targetObjectIndex] == b.sortedResultList[sizer.targetObjectIndex]
    ensures sizer.Process(a, c) == sizer.Process(b, c)
  {
  }

  /**
   * With a zero-width reference and a positive real width, a target of any
   * width yields Int.MAX_VALUE millimetres, and a target of no height yields 0.
   */
  lemma IndexedSizerZeroWidthSaturates(sizer: IndexedObjectSizer, sorted: SortedResultList, c: real)
    requires c > 0.0
    requires sorted.HasIndex(sizer.referenceObjectIndex) && sorted.HasIndex(sizer.targetObjectIndex)
    requires sorted.sortedResultList[sizer.referenceObjectIndex].location.Width() == 0.0
    ensures var target := sorted.sortedResultList[sizer.targetObjectIndex].location;
      && (target.Width() > 0.0 ==> sizer.Process(sorted, c).value.0 == INT_MAX)
      && (target.Width() == 0.0 ==> sizer.Process(sorted, c).value.0 == 0)
      && (target.Height() > 0.0 ==> sizer.Process(sorted, c).value.1 == INT_MAX)
      && (target.Height() == 0.0 ==> sizer.Process(sorted, c).value.1 == 0)
  {
  }
}
