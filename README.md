# SizeEstimator measurement pipeline in Dafny

SizeEstimator is an Android app that photographs a scene and runs an object
detection model over it. It takes the highest scoring box in the lower part
of the picture as a *reference object* of known width. It takes the highest
scoring box wholly above that one as the *target object*. It then scales the
target's pixel size by the reference's millimetres per pixel.

This project models that pipeline and proves its contracts:

- `Detection`: the detection records, their boxes and the `toTestable` conversion.
- `Sorting`, `Scoreboards`: the stable sort by descending score behind `Scoreboard` and `SortedResultList`.
- `Search`: the first-match scan shared by all finders.
- `Processors`: reference finder, target finder, and both object sizers (item-based with a zero-width guard, index-based without one).
- `Measurement`: `MeasurementEngine.measure`.
- `DomainAnalyser`, `LegacyAnalyser`: the two revisions of the index-based `Analyser`, with -1 sentinels, and lemmas that relate them.
- `MainActivity`: the three measurement helpers of the first activity and their call order in `onCreate`.
- `BitmapExtensions`: the crop geometry of both `toSquare` revisions and the `boxMatches` scan.
- `KotlinNumbers`: the parts of Kotlin's number semantics the code relies on.

The search loops and the pixel scan are `while` loops with invariants, proved
against specification functions. The analysers are classes whose sorted list
is fixed at construction. Coordinates are reals. Float division by a zero
width is modelled: +Infinity, -Infinity or NaN, which `toInt`/`toLong` then
saturate or map to 0. A thrown exception is a `Result.Failure`. `null` is
`Option.None`.

## Model

| member | source | states |
|---|---|---|
| Detection.BoundingBox.Width | app/src/main/java/com/example/sizeestimator/domain/ScoreboardItem.kt:21-23 | the width is never negative and is `right - left` or `left - right`, i.e. the absolute difference (the twin in domain/TestableDetectionResult.kt:18-20 is the same) |
| Detection.BoundingBox.Height | app/src/main/java/com/example/sizeestimator/domain/ScoreboardItem.kt:25-27 | the height is never negative and is `top - bottom` or `bottom - top` (the same in the domain/TestableDetectionResult.kt twin) |
| Detection.WidthIsAbsolute | app/src/main/java/com/example/sizeestimator/domain/ScoreboardItem.kt:20-28 | width and height are the absolute values of the signed `RectF` extents of the same corners |
| Detection.SwapInvariance | app/src/main/java/com/example/sizeestimator/domain/ScoreboardItem.kt:20-28 | swapping left with right keeps the width; swapping top with bottom keeps the height, for both copies of the box |
| Detection.ZeroExtent | app/src/main/java/com/example/sizeestimator/domain/ScoreboardItem.kt:21-27 | the width is zero exactly when left equals right, the height exactly when top equals bottom, for both copies of the box |
| Detection.ToTestable | app/src/main/java/com/example/sizeestimator/domain/ScoreboardItem.kt:33-45 | same length, same order, and every item carries the score and the four coordinates of the result at its index; the domain/TestableDetectionResult.kt:27-39 copy is the same mapping |
| Detection.ToRectF | app/src/main/java/com/example/sizeestimator/domain/ScoreboardItem.kt:47-54 | `toRectF` copies the four edges of the box into the rectangle unchanged |
| Detection.ToTestableRoundTrip | app/src/main/java/com/example/sizeestimator/domain/ScoreboardItem.kt:47-54 | `toRectF` of a converted box gives back the model's original rectangle |
| Sorting.SortedIsPermutation | app/src/main/java/com/example/sizeestimator/domain/Scoreboard.kt:7 | `sortedByDescending` returns the same items, each as often (multiset equality) |
| Sorting.SortedIsDescending | app/src/main/java/com/example/sizeestimator/domain/Scoreboard.kt:7 | the sorted list is non-increasing in the key |
| Sorting.SortedIsStable | app/src/main/java/com/example/sizeestimator/domain/Scoreboard.kt:7 | for every key value, the items with that key appear in their input order |
| Sorting.SortedKeepsDescendingInput | app/src/main/java/com/example/sizeestimator/domain/Scoreboard.kt:7 | an input already in descending order comes back unchanged |
| Scoreboards.NewScoreboard | app/src/main/java/com/example/sizeestimator/domain/Scoreboard.kt:6-7 | the list is a permutation of the input, descending by score, stable, and equal to an already sorted input; the later package's copy is the same sort |
| Scoreboards.NewSortedResultList | app/src/main/java/com/example/sizeestimator/domain/SortedResultList.kt:6-7 | the same four properties for the list of `TestableDetectionResult`s |
| Scoreboards.SortedInputKeepsIndices | app/src/main/java/com/example/sizeestimator/domain/scoreboard/Scoreboard.kt:7 | an already sorted input keeps its length and every item at its index (so the second item stays at index 1) |
| Search.IndexOfFirst | app/src/main/java/com/example/sizeestimator/domain/ReferenceObjectFinder.kt:15-20 | -1 exactly when no item matches; otherwise the index of a match with no match before it |
| Search.FirstMatchScoresHighest | app/src/main/java/com/example/sizeestimator/domain/ReferenceObjectFinder.kt:10-17 | on a descending list the first match has the highest key of all matches |
| Processors.ReferenceObjectFinder.IndexIn | app/src/main/java/com/example/sizeestimator/domain/ReferenceObjectFinder.kt:15-19 | -1 exactly when no item has `top > minTop` (strictly); otherwise the first such index |
| Processors.ReferenceObjectFinder.Find | app/src/main/java/com/example/sizeestimator/domain/ReferenceObjectFinder.kt:14-21 | null exactly when no item lies below `minTop`; a result is in the list, below `minTop`, and the first such item |
| Processors.ReferenceObjectFinder.Process | app/src/main/java/com/example/sizeestimator/domain/ReferenceObjectFinder.kt:14-21 | the early-return scan returns what `Find` specifies |
| Processors.ReferenceScoresHighest | app/src/main/java/com/example/sizeestimator/domain/ReferenceObjectFinder.kt:10-17 | on a sorted scoreboard the reference object outscores every item below `minTop` |
| Processors.TargetObjectFinder.IndexIn | app/src/main/java/com/example/sizeestimator/domain/TargetObjectFinder.kt:15-19 | -1 exactly when no item has `bottom < referenceObject.top`; otherwise the first such index |
| Processors.TargetObjectFinder.Find | app/src/main/java/com/example/sizeestimator/domain/scoreboard/processor/TargetObjectFinder.kt:17-24 | null exactly when nothing lies above the reference; a result is in the list, strictly above it, and the first such item |
| Processors.TargetObjectFinder.Process | app/src/main/java/com/example/sizeestimator/domain/TargetObjectFinder.kt:14-21 | the early-return scan returns what `Find` specifies; the later package's copy is the same scan |
| Processors.TargetScoresHighest | app/src/main/java/com/example/sizeestimator/domain/scoreboard/processor/TargetObjectFinder.kt:13-20 | on a sorted scoreboard the target outscores every item above the reference |
| Processors.TargetDependsOnlyOnReferenceTop | app/src/main/java/com/example/sizeestimator/domain/TargetObjectFinder.kt:6-16 | two references with the same top give the same target, whatever their score or other edges |
| Processors.TargetIsNotReference | app/src/main/java/com/example/sizeestimator/domain/TargetObjectFinder.kt:16 | a reference with `top <= bottom` is never its own target |
| Processors.ScaleIsExact | app/src/main/java/com/example/sizeestimator/domain/scoreboard/processor/ObjectSizer.kt:22-25 | for a non-zero reference width, `px * (C / refPx)` on Floats is the finite exact size `px * C / refPx` |
| Processors.ObjectSizer.Process | app/src/main/java/com/example/sizeestimator/domain/scoreboard/processor/ObjectSizer.kt:16-28 | null exactly when the reference width is `<= 0`; otherwise `toInt` of the exact width and height, both scaled by the reference's width |
| Processors.SizeIsFlooredExactSize | app/src/main/java/com/example/sizeestimator/domain/scoreboard/processor/ObjectSizer.kt:17-27 | for `C > 0` both components are non-negative and, within Int range, the floor of the exact size |
| Processors.SizeMonotonicInTargetWidth | app/src/main/java/com/example/sizeestimator/domain/scoreboard/processor/ObjectSizer.kt:22-24 | for a fixed reference a wider target never gives a smaller width |
| Processors.SizerIgnoresScoreboard | app/src/main/java/com/example/sizeestimator/domain/scoreboard/processor/ObjectSizer.kt:16-28 | the result does not depend on the scoreboard argument |
| Processors.IndexedObjectSizer.Process | app/src/main/java/com/example/sizeestimator/domain/ObjectSizer.kt:11-29 | null exactly when an index fails `hasIndex`; with a positive reference width it equals the item-based sizer on the two indexed items |
| Processors.IndexedSizerReadsOnlyItsItems | app/src/main/java/com/example/sizeestimator/domain/ObjectSizer.kt:16-17 | two lists with the same items at the two indices give the same result |
| Processors.IndexedSizerZeroWidthSaturates | app/src/main/java/com/example/sizeestimator/domain/ObjectSizer.kt:19-25 | a zero reference width gives Int.MAX_VALUE for a target of any positive width or height, and 0 for a zero extent |
| KotlinNumbers.Divide | app/src/main/java/com/example/sizeestimator/domain/scoreboard/processor/ObjectSizer.kt:22 | Float division: finite exactly for a non-zero divisor, then the exact quotient; for a zero divisor +Infinity, -Infinity or NaN by the sign of the dividend |
| KotlinNumbers.Times | app/src/main/java/com/example/sizeestimator/domain/scoreboard/processor/ObjectSizer.kt:24-25 | a finite factor gives the exact product; a non-zero value times an infinity gives the infinity of the product's sign; NaN, or zero times an infinity, gives NaN |
| KotlinNumbers.ToIntegral | app/src/main/java/com/example/sizeestimator/domain/scoreboard/processor/ObjectSizer.kt:27 | `toInt`/`toLong`: within `lo..hi`; NaN to 0; infinities to the bounds; in range, non-negative values floor and non-positive ones truncate toward zero; finite values beyond a bound saturate at it |
| KotlinNumbers.ToIntegralMonotonic | app/src/main/java/com/example/sizeestimator/domain/scoreboard/processor/ObjectSizer.kt:27 | the conversion never decreases as its argument grows |
| KotlinNumbers.IntDiv | app/src/main/java/com/example/sizeestimator/domain/bitmap/BitmapExtensions.kt:45 | Int division truncates toward zero: the remainder has the dividend's sign and is smaller than the divisor |
| Measurement.Measure | app/src/main/java/com/example/sizeestimator/domain/MeasurementEngine.kt:11-28 | a trace holds the unchanged scoreboard, a reference below `minTop`, a target strictly above it and a reference of positive width |
| Measurement.NoReferenceMeansNoMeasurement | app/src/main/java/com/example/sizeestimator/domain/MeasurementEngine.kt:12-13 | no item below `minTop` (the empty scoreboard included) gives null |
| Measurement.NoTargetMeansNoMeasurement | app/src/main/java/com/example/sizeestimator/domain/MeasurementEngine.kt:14-15 | a reference with nothing above it gives null |
| Measurement.ZeroWidthReferenceMeansNoMeasurement | app/src/main/java/com/example/sizeestimator/domain/MeasurementEngine.kt:16-17 | a reference of zero width gives null |
| Measurement.MeasurementIsTheThreeSteps | app/src/main/java/com/example/sizeestimator/domain/MeasurementEngine.kt:11-28 | a measurement exists exactly when all three steps succeed, and then it is their three results |
| Measurement.MeasurementUsesHighestScoring | app/src/main/java/com/example/sizeestimator/domain/MeasurementEngine.kt:12-16 | on a sorted scoreboard the reference and target are the highest scoring qualifying items |
| Measurement.SceneFindsBothObjects | app/src/test/java/com/example/sizeestimator/MeasurementEngineTest.kt:13-24 | in the unit test scene the lower box is the reference and the upper box the target |
| Measurement.SceneSize | app/src/test/java/com/example/sizeestimator/MeasurementEngineTest.kt:29-35 | in the unit test scene the size is `(toInt(C), toInt(90 C / 190))` |
| Measurement.OneReferenceOneTargetScene | app/src/test/java/com/example/sizeestimator/MeasurementEngineTest.kt:12-36 | the whole unit test: the sorted list keeps its order and the trace holds both items and the expected size |
| DomainAnalyser.TargetIndex | app/src/main/java/com/example/sizeestimator/domain/Analyser.kt:57-65 | the lookup throws exactly for an index outside the list; otherwise the first index above the reference, or -1 |
| DomainAnalyser.LongMillimetres | app/src/main/java/com/example/sizeestimator/domain/Analyser.kt:80-86 | for a non-zero reference width, `toLong` of the exact sizes; for a zero width, saturation by the sign of the extent |
| DomainAnalyser.CalculateTargetObjectSize | app/src/main/java/com/example/sizeestimator/domain/Analyser.kt:68-87 | (-1, -1) if either index is -1; an exception exactly when another index is outside the list; otherwise the scaled `Long` size |
| DomainAnalyser.Analysis | app/src/main/java/com/example/sizeestimator/domain/Analyser.kt:20-31 | throws exactly when there is no reference object; otherwise the sorted list and the three step results, unchanged |
| DomainAnalyser.CorrectedTargetIndex | app/src/main/java/com/example/sizeestimator/domain/Analyser.kt:57-65 | -1 for a missing reference, otherwise the lookup as written |
| DomainAnalyser.CorrectedAnalysis | app/src/main/java/com/example/sizeestimator/domain/Analyser.kt:20-31 | never throws; no reference gives (-1, -1, (-1, -1)) and any other scene the result as written |
| DomainAnalyser.AnalyseThrowsWithoutReference | app/src/main/java/com/example/sizeestimator/domain/Analyser.kt:21-22 | a single box wholly above `minTop`: as written IndexOutOfBounds, corrected (-1, -1, (-1, -1)) |
| DomainAnalyser.Analyser.constructor | app/src/main/java/com/example/sizeestimator/domain/Analyser.kt:15 | `sortedResults` is the input sorted by descending score |
| DomainAnalyser.Analyser.FindReferenceObject | app/src/main/java/com/example/sizeestimator/domain/Analyser.kt:41-48 | the scan returns the first index with `top > minTop`, or -1 |
| DomainAnalyser.Analyser.FindTargetObject | app/src/main/java/com/example/sizeestimator/domain/Analyser.kt:57-65 | the scan returns `TargetIndex`: an exception outside the list, else the first index above the reference or -1 |
| DomainAnalyser.Analyser.Analyse | app/src/main/java/com/example/sizeestimator/domain/Analyser.kt:20-31 | the three calls in order return `Analysis` |
| LegacyAnalyser.ReferenceIndex | app/src/main/java/com/example/sizeestimator/Analyser.kt:37-44 | -1 exactly when no result has `top > minTop`; otherwise the first such index |
| LegacyAnalyser.IndexAbove | app/src/main/java/com/example/sizeestimator/Analyser.kt:55-60 | -1 exactly when no result has `bottom < referenceTop`; otherwise the first such index |
| LegacyAnalyser.TargetIndex | app/src/main/java/com/example/sizeestimator/Analyser.kt:53-61 | an exception exactly for a reference index outside the list; otherwise the first index above it, or -1 |
| LegacyAnalyser.CalculateTargetObjectSize | app/src/main/java/com/example/sizeestimator/Analyser.kt:64-90 | (-1, -1) if either index is -1; an exception for another index outside the list; otherwise the signed `RectF` extents scaled with 123 mm |
| LegacyAnalyser.Analysis | app/src/main/java/com/example/sizeestimator/Analyser.kt:16-27 | throws exactly when there is no reference object; otherwise the sorted list and the three step results |
| LegacyAnalyser.Analyser.constructor | app/src/main/java/com/example/sizeestimator/Analyser.kt:11 | `sortedResults` is the input sorted by descending `scoreAsFloat` |
| LegacyAnalyser.Analyser.FindReferenceObject | app/src/main/java/com/example/sizeestimator/Analyser.kt:37-44 | the scan returns `ReferenceIndex` |
| LegacyAnalyser.Analyser.FindTargetObject | app/src/main/java/com/example/sizeestimator/Analyser.kt:53-61 | the scan returns `TargetIndex` |
| LegacyAnalyser.Analyser.Analyse | app/src/main/java/com/example/sizeestimator/Analyser.kt:16-27 | the three calls in order return `Analysis` |
| LegacyAnalyser.InsertCommutes | app/src/main/java/com/example/sizeestimator/Analyser.kt:11 | inserting a result and converting it commutes with converting and inserting by score |
| LegacyAnalyser.SortCommutes | app/src/main/java/com/example/sizeestimator/Analyser.kt:11 | both revisions sort the same detections into the same order |
| LegacyAnalyser.ReferenceIndexAgrees | app/src/main/java/com/example/sizeestimator/Analyser.kt:37-44 | the first revision's reference index equals the domain finder's on the converted results |
| LegacyAnalyser.TargetIndexAgrees | app/src/main/java/com/example/sizeestimator/Analyser.kt:53-61 | the first revision's target lookup equals the domain package's on the converted results, exceptions included |
| LegacyAnalyser.TargetSearchAgrees | app/src/main/java/com/example/sizeestimator/Analyser.kt:55-60 | for a reference inside the list, both revisions' target searches give the same index |
| LegacyAnalyser.SizeAgrees | app/src/main/java/com/example/sizeestimator/Analyser.kt:76-89 | on upright boxes the signed `RectF` extents give the same `Long` size as the absolute box extents |
| LegacyAnalyser.AnalysisAgrees | app/src/main/java/com/example/sizeestimator/Analyser.kt:16-27 | with 123 mm both revisions fail together and otherwise report the same reference and target indices |
| MainActivity.FindReferenceObject | app/src/main/java/com/example/sizeestimator/MainActivity.kt:241-249 | the scan returns the first index with `top > 150`, or -1 |
| MainActivity.FindTargetObject | app/src/main/java/com/example/sizeestimator/MainActivity.kt:255-265 | an exception for a reference index outside the list; otherwise the first index above it, or -1 |
| MainActivity.CalculateTargetObjectSize | app/src/main/java/com/example/sizeestimator/MainActivity.kt:212-235 | an exception unless both indices lie in the list; a non-zero reference width gives the finite `tw * 210 / rw`, a zero one an infinity or NaN |
| MainActivity.RatioIsExact | app/src/main/java/com/example/sizeestimator/MainActivity.kt:221-223 | `210 * (tw / rw)` on Floats is the exact `tw * 210 / rw` for a non-zero `rw` |
| MainActivity.OnCreateMeasurement | app/src/main/java/com/example/sizeestimator/MainActivity.kt:108-171 | throws exactly when there is no reference; a width is computed exactly when the image loaded and the target was found |
| MainActivity.OnCreate | app/src/main/java/com/example/sizeestimator/MainActivity.kt:108-171 | the sort, both searches and the guarded sizing, in their order, give `OnCreateMeasurement` |
| MainActivity.OnCreateFindsWhatAnalyserFinds | app/src/main/java/com/example/sizeestimator/MainActivity.kt:110-116 | `onCreate` fails exactly when the root analyser does and finds the same two indices |
| BitmapExtensions.SquareCrop | app/src/main/java/com/example/sizeestimator/domain/bitmap/BitmapExtensions.kt:44-62 | side `min(w, h)`, origin on the longer axis only, inside the bitmap, margins differing by at most 1 px |
| BitmapExtensions.ToSquare | app/src/main/java/com/example/sizeestimator/domain/bitmap/BitmapExtensions.kt:40-73 | a `side` by `side` bitmap exactly when both dimensions and `side` are positive; IllegalArgumentException otherwise |
| BitmapExtensions.LandscapeCrop | app/src/main/java/com/example/sizeestimator/data/BitmapExtensions.kt:41-50 | side `h` at `y = 0`; for `h > 0` inside the bitmap exactly when `w >= h`, centred within 1 px; portrait crops overrun the width |
| BitmapExtensions.LandscapeToSquare | app/src/main/java/com/example/sizeestimator/data/BitmapExtensions.kt:38-61 | a `side` by `side` bitmap exactly when `0 < h <= w` and `side > 0`; IllegalArgumentException otherwise |
| BitmapExtensions.RevisionsAgreeOnLandscape | app/src/main/java/com/example/sizeestimator/data/BitmapExtensions.kt:43-50 | on a landscape bitmap both revisions choose the same crop and give the same result |
| BitmapExtensions.InstrumentedTestScenes | app/src/androidTest/java/com/example/sizeestimator/ExampleInstrumentedTest.kt:28-58 | all four test scenes square under the general revision; both portrait scenes throw under the landscape one |
| BitmapExtensions.BoxMatches | app/src/main/java/com/example/sizeestimator/domain/bitmap/BitmapExtensions.kt:76-85 | true exactly when every pixel of the inclusive truncated column and row ranges matches the colour |
| BitmapExtensions.EmptyBoxMatches | app/src/main/java/com/example/sizeestimator/domain/bitmap/BitmapExtensions.kt:77-84 | an empty column or row range matches any colour |

## Left out

- Float rounding and signed zero: finite Float values are exact reals, so sizes are exact until the final `toInt`/`toLong`. NaN coordinates and scores are not modelled.
- `BuildConfig.REFERENCE_OBJECT_WIDTH_MM` is generated at build time. It is the parameter `referenceObjectWidthMm`, and the lemmas assume it positive where they need it.
- `SortedResultList.kt` shows a `list` property only. The index-based sizer in domain/ObjectSizer.kt uses `sortedResultList` and `hasIndex`, so the model gives the list that name and defines `hasIndex(i)` as `0 <= i < size`.
- The later package's `ScoreboardItem` and `BoundingBox` are not part of this model. They are taken to be the domain package's, so both `TargetObjectFinder` copies and both `Scoreboard` copies share one definition.
- The root package's `AnalysisResult` carries the model's raw outputs. Here it carries the sorted `DetectionResult`s.
- The domain package's `MeasurementEngine.kt:16` constructs `ObjectSizer` from the two items, but `domain/ObjectSizer.kt:6-9` takes two indices. `Measurement.Measure` therefore calls the item-based sizer of the later `scoreboard.processor` package.
- `MainActivity.kt:104` passes the possibly null asset bitmap to `TensorImage.fromBitmap` before the null check at line 141. That foreign call is not modelled, so the `bitmapLoaded == false` branch of `MainActivity.OnCreateMeasurement` (success without a width) is a path the source may never reach.
- The two analyser revisions take their own options types (the root package's `LoresBitmap.AnalysisOptions` and the data package's); both carry only `minTop`, so each module declares `AnalysisOptions(minTop)`.
- The detection model (TensorFlow Lite), the camera, permissions, Compose UI, view models, luma averaging and logging are left out. The drawing code is left out too, including the colour-array indexing in `MainActivity` and `LegendDrawer`.
- Bitmap I/O is left out: decoding, encoding and file access. Whether the asset bitmap decoded is the parameter `bitmapLoaded` of `MainActivity.OnCreateMeasurement`.
- `Bitmap.createBitmap` and `Bitmap.createScaledBitmap` are modelled only by their sizes and their documented argument checks (IllegalArgumentException). The pixels are not modelled.
- `Bitmap.getColor` and `Color.matches` are the abstract predicate `pixelMatches`. The bounds check `getColor` performs on coordinates outside the bitmap is not modelled.
- LegacyAnalyser.AnalysisAgrees: states that both revisions agree on the verdict and the two indices, not on the size. The size agreement is the separate item-level `SizeAgrees`, which needs upright boxes because the first revision's `RectF` extents are signed.
- Processors.ObjectSizer.Process: the reference width enters only through the exact real size. The Float rounding of `C / width` before the multiplication is not modelled.

## Findings

| source | as written | input that shows it | evidently intended | confidence | as-written member | corrected member |
|---|---|---|---|---|---|---|
| app/src/main/java/com/example/sizeestimator/domain/Analyser.kt:21-22 | `analyse` passes the reference index to `findTargetObject` unchecked, and `findTargetObject` indexes the list with it (line 58). The root `Analyser.kt` (lines 17-18, 54) and `onCreate` (`MainActivity.kt` 110-116) do the same. | one box with top 10 and bottom 100, `minTop` 150: the reference index is -1, so the lookup throws IndexOutOfBoundsException | no target and size (-1, -1) when no reference exists, as the unit test at app/src/test/java/com/example/sizeestimator/AnalysterTest.kt:159-170 expects | not executed | DomainAnalyser.AnalyseThrowsWithoutReference | DomainAnalyser.CorrectedAnalysis |
| app/src/main/java/com/example/sizeestimator/domain/ObjectSizer.kt:19-20 | the index-based sizer divides by the reference width without a guard | a reference with left = right (zero width) and a target 290 px wide: the scale is +Infinity and the width `toInt()` is Int.MAX_VALUE | null, as the later sizer returns for a width `<= 0` and as app/src/test/java/com/example/sizeestimator/ObjectSizerTest.kt:35-48 expects | not executed | Processors.IndexedSizerZeroWidthSaturates | Processors.ObjectSizer.Process |
| app/src/main/java/com/example/sizeestimator/data/BitmapExtensions.kt:42-50 | the crop always takes `(w - h) / 2` off the width, which assumes a landscape bitmap | a 100 by 200 bitmap: x = -50 and width 200 exceed the source, so `createBitmap` throws IllegalArgumentException, while app/src/androidTest/java/com/example/sizeestimator/ExampleInstrumentedTest.kt:28-58 (which imports this revision) expects 50 by 50 and 300 by 300 squares | a centred square of side `min(w, h)` on either orientation, as the later revision crops | not executed | BitmapExtensions.InstrumentedTestScenes | BitmapExtensions.ToSquare |
