/**
 * `MeasurementEngine.measure`: reference object, then target object, then
 * size, stopping with null at the first step that finds nothing.
 */
module Measurement {
  import opened Wrappers
  import opened KotlinNumbers
  import opened Detection
  import opened Scoreboards
  import opened Processors
  import Sorting

  datatype MeasurementOptions = MeasurementOptions(minTop: real)

  /** The result of a measurement together with the intermediate results that led to it. */
  datatype MeasurementTrace = MeasurementTrace(
    scoreboard: Scoreboard,
    referenceObject: ScoreboardItem,
    targetObject: ScoreboardItem,
    targetObjectSizeMm: (int, int))  // width, height in millimetres

  /** `measure`, where `referenceObjectWidthMm` is the known real width of the reference object. */
  function Measure(scoreboard: Scoreboard, options: MeasurementOptions, referenceObjectWidthMm: real): (r: Option<MeasurementTrace>)
    ensures r.Some? ==>
      && r.value.scoreboard == scoreboard
      && r.value.referenceObject in scoreboard.list
      && r.value.targetObject in scoreboard.list
      && r.value.referenceObject.location.top > options.minTop
      && r.value.targetObject.location.bottom < r.value.referenceObject.location.top
      && r.value.referenceObject.location.Width() > 0.0
  {
    match ReferenceObjectFinder(options.minTop).Find(scoreboard)
    case None => None
    case Some(referenceObject) =>
      match TargetObjectFinder(referenceObject).Find(scoreboard)
      case None => None
      case Some(targetObject) =>
        match ObjectSizer(referenceObject, targetObject).Process(scoreboard, referenceObjectWidthMm)
        case None => None
        case Some(targetSize) => Some(MeasurementTrace(scoreboard, referenceObject, targetObject, targetSize))
  }

  /** No item below `minTop` (an empty scoreboard included): no measurement. */
  lemma NoReferenceMeansNoMeasurement(scoreboard: Scoreboard, options: MeasurementOptions, c: real)
    requires forall i | 0 <= i < |scoreboard.list| :: scoreboard.list[i].location.top <= options.minTop
    ensures Measure(scoreboard, options, c) == None
  {
  }

  /** A reference object but nothing above it: no measurement. */
  lemma NoTargetMeansNoMeasurement(scoreboard: Scoreboard, options: MeasurementOptions, c: real)
    requires ReferenceObjectFinder(options.minTop).Find(scoreboard).Some?
    requires var reference := ReferenceObjectFinder(options.minTop).Find(scoreboard).value;
      forall i | 0 <= i < |scoreboard.list| :: scoreboard.list[i].location.bottom >= reference.location.top
    ensures Measure(scoreboard, options, c) == None
  {
  }

  /** A reference object of no width: no measurement. */
  lemma ZeroWidthReferenceMeansNoMeasurement(scoreboard: Scoreboard, options: MeasurementOptions, c: real)
    requires ReferenceObjectFinder(options.minTop).Find(scoreboard).Some?
    requires ReferenceObjectFinder(options.minTop).Find(scoreboard).value.location.Width() == 0.0
    ensures Measure(scoreboard, options, c) == None
  {
  }

  /**
   * A measurement exists exactly when all three steps succeed, and then the
   * trace holds the unchanged scoreboard and the three steps' results.
   */
  lemma MeasurementIsTheThreeSteps(scoreboard: Scoreboard, options: MeasurementOptions, c: real)
    ensures var reference := ReferenceObjectFinder(options.minTop).Find(scoreboard);
      var target := if reference.Some? then TargetObjectFinder(reference.value).Find(scoreboard) else None;
      var size := if target.Some? then ObjectSizer(reference.value, target.value).Process(scoreboard, c) else None;
      && (Measure(scoreboard, options, c).Some? <==> size.Some?)
      && (size.Some? ==> Measure(scoreboard, options, c) == Some(MeasurementTrace(scoreboard, reference.value, target.value, size.value)))
  {
  }

  /**
   * On a sorted scoreboard a successful measurement used the highest scoring
   * item below `minTop` and the highest scoring item above that one.
   */
  lemma MeasurementUsesHighestScoring(scoreboard: Scoreboard, options: MeasurementOptions, c: real)
    requires Sorting.IsDescending(scoreboard.list, Score)
    requires Measure(scoreboard, options, c).Some?
    ensures var trace := Measure(scoreboard, options, c).value;
      && (forall item | item in scoreboard.list && item.location.top > options.minTop ::
            item.score <= trace.referenceObject.score)
      && (forall item | item in scoreboard.list && item.location.bottom < trace.referenceObject.location.top ::
            item.score <= trace.targetObject.score)
  {
    var reference := ReferenceObjectFinder(options.minTop);
    ReferenceScoresHighest(reference, scoreboard);
    TargetScoresHighest(TargetObjectFinder(reference.Find(scoreboard).value), scoreboard);
  }

  /** The two items of the engine's unit test scene: a target above a reference, both 190 px wide. */
  const SCENE_TARGET := ScoreboardItem(0.9, BoundingBox(top := 10.0, left := 10.0, bottom := 100.0, right := 200.0))
  const SCENE_REFERENCE := ScoreboardItem(0.8, BoundingBox(top := 200.0, left := 10.0, bottom := 250.0, right := 200.0))

  /** In the test scene the finders pick the lower item as reference and the upper one as target. */
  lemma SceneFindsBothObjects()
    ensures ReferenceObjectFinder(150.0).Find(Scoreboard([SCENE_TARGET, SCENE_REFERENCE])) == Some(SCENE_REFERENCE)
    ensures TargetObjectFinder(SCENE_REFERENCE).Find(Scoreboard([SCENE_TARGET, SCENE_REFERENCE])) == Some(SCENE_TARGET)
  {
    var list := [SCENE_TARGET, SCENE_REFERENCE];
    assert list[0].location.top <= 150.0 < list[1].location.top;
    assert ReferenceObjectFinder(150.0).IndexIn(list) == 1;
    assert list[0].location.bottom < SCENE_REFERENCE.location.top;
    assert TargetObjectFinder(SCENE_REFERENCE).IndexIn(list) == 0;
  }

  /** In the test scene the target is as wide as the reference object really is. */
  lemma SceneSize(c: real)
    requires c > 0.0
    ensures ObjectSizer(SCENE_REFERENCE, SCENE_TARGET).Process(Scoreboard([SCENE_TARGET, SCENE_REFERENCE]), c)
         == Some((ToInt(Finite(c)), ToInt(Finite(ExactMillimetres(90.0, c, 190.0)))))
  {
    assert SCENE_REFERENCE.location.Width() == 190.0;
    assert SCENE_TARGET.location.Width() == 190.0 && SCENE_TARGET.location.Height() == 90.0;
    assert ExactMillimetres(190.0, c, 190.0) == c;
  }

  /**
   * The scene of the engine's unit test: a target (score 0.9) above a
   * reference (score 0.8), both 190 px wide, with `minTop` 150. The target is
   * then as wide as the reference object really is.
   */
  lemma OneReferenceOneTargetScene(c: real)
    requires c > 0.0
    ensures var scoreboard := NewScoreboard([SCENE_TARGET, SCENE_REFERENCE]);
      && scoreboard.list == [SCENE_TARGET, SCENE_REFERENCE]
      && Measure(scoreboard, MeasurementOptions(150.0), c)
         == Some(MeasurementTrace(scoreboard, SCENE_REFERENCE, SCENE_TARGET,
                                  (ToInt(Finite(c)), ToInt(Finite(ExactMillimetres(90.0, c, 190.0))))))
  {
    var list := [SCENE_TARGET, SCENE_REFERENCE];
    assert Sorting.IsDescending(list, Score);
    assert NewScoreboard(list) == Scoreboard(list);
    SceneFindsBothObjects();
    SceneSize(c);
  }
}
