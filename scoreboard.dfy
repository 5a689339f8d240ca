/**
 * `Scoreboard` and its earlier twin `SortedResultList`: the detections sorted
 * once, by descending score, and then passed around unchanged.
 */
module Scoreboards {
  import opened Detection
  import Sorting

  function Score(item: ScoreboardItem): real { item.score }

  datatype Scoreboard = Scoreboard(list: seq<ScoreboardItem>)

  /** The `Scoreboard(results)` constructor. */
  function NewScoreboard(results: seq<ScoreboardItem>): (board: Scoreboard)
    ensures multiset(board.list) == multiset(results)
    ensures Sorting.IsDescending(board.list, Score)
    ensures forall k :: Sorting.WithKey(board.list, Score, k) == Sorting.WithKey(results, Score, k)
    ensures Sorting.IsDescending(results, Score) ==> board.list == results
  {
    SortedProperties(results);
    Scoreboard(Sorting.SortedByDescending(results, Score))
  }

  /** The list of detections an index-based processor works on. */
  datatype SortedResultList = SortedResultList(sortedResultList: seq<TestableDetectionResult>) {
    predicate HasIndex(i: int) { 0 <= i < |sortedResultList| }
  }

  /** The `SortedResultList(results)` constructor. */
  function NewSortedResultList(results: seq<TestableDetectionResult>): (sorted: SortedResultList)
    ensures multiset(sorted.sortedResultList) == multiset(results)
    ensures Sorting.IsDescending(sorted.sortedResultList, Score)
    ensures forall k :: Sorting.WithKey(sorted.sortedResultList, Score, k) == Sorting.WithKey(results, Score, k)
    ensures Sorting.IsDescending(results, Score) ==> sorted.sortedResultList == results
  {
    SortedProperties(results);
    SortedResultList(Sorting.SortedByDescending(results, Score))
  }

  lemma SortedProperties(results: seq<ScoreboardItem>)
    ensures multiset(Sorting.SortedByDescending(results, Score)) == multiset(results)
    ensures Sorting.IsDescending(Sorting.SortedByDescending(results, Score), Score)
    ensures forall k :: Sorting.WithKey(Sorting.SortedByDescending(results, Score), Score, k) == Sorting.WithKey(results, Score, k)
    ensures Sorting.IsDescending(results, Score) ==> Sorting.SortedByDescending(results, Score) == results
  {
    Sorting.SortedIsPermutation(results, Score);
    Sorting.SortedIsDescending(results, Score);
    forall k ensures Sorting.WithKey(Sorting.SortedByDescending(results, Score), Score, k) == Sorting.WithKey(results, Score, k) {
      Sorting.SortedIsStable(results, Score, k);
    }
    if Sorting.IsDescending(results, Score) {
      Sorting.SortedKeepsDescendingInput(results, Score);
    }
  }

  /** An input already in order keeps every item at its index. */
  lemma SortedInputKeepsIndices(results: seq<ScoreboardItem>)
    requires Sorting.IsDescending(results, Score)
    ensures |NewScoreboard(results).list| == |results|
    ensures forall i | 0 <= i < |results| :: NewScoreboard(results).list[i] == results[i]
  {
  }
}
