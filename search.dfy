/** The first-match scan that every finder performs over a sorted list. */
module Search {
  import Sorting

  /** The index of the first item of `s` satisfying `p`, or -1 when no item does. */
  function IndexOfFirst<T>(s: seq<T>, p: T -> bool): (i: int)
    ensures -1 <= i < |s|
    ensures i == -1 <==> forall j | 0 <= j < |s| :: !p(s[j])
    ensures 0 <= i ==> p(s[i]) && forall j | 0 <= j < i :: !p(s[j])
  {
    if |s| == 0 then -1
    else if p(s[0]) then 0
    else
      var k := IndexOfFirst(s[1..], p);
      if k == -1 then -1 else k + 1
  }

  /**
   * On a list in descending order the first match has the highest key of all
   * matches: the "highest scoring" item that qualifies.
   */
  lemma FirstMatchScoresHighest<T>(s: seq<T>, p: T -> bool, key: T -> real)
    requires Sorting.IsDescending(s, key)
    requires IndexOfFirst(s, p) >= 0
    ensures forall j | 0 <= j < |s| && p(s[j]) :: key(s[j]) <= key(s[IndexOfFirst(s, p)])
  {
    var i := IndexOfFirst(s, p);
    forall j | 0 <= j < |s| && p(s[j]) ensures key(s[j]) <= key(s[i]) {
      assert i <= j;
    }
  }
}
