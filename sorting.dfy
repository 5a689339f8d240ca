/**
 * Kotlin's `sortedByDescending { key }`: a stable sort that orders a list
 * from the highest key to the lowest, keeping items with equal keys in their
 * input order. It is defined here as an insertion sort and characterised by
 * the lemmas below.
 */
module Sorting {

  /** Every item scores at least as much as every item after it. */
  predicate IsDescending<T>(s: seq<T>, key: T -> real)
  {
    forall i, j | 0 <= i < j < |s| :: key(s[i]) >= key(s[j])
  }

  /** The items of `s` whose key is `k`, in the order `s` has them. */
  function WithKey<T>(s: seq<T>, key: T -> real, k: real): (r: seq<T>)
    ensures |r| <= |s|
  {
    if |s| == 0 then [] else (if key(s[0]) == k then [s[0]] else []) + WithKey(s[1..], key, k)
  }

  /** Places `x` in front of the first item of `s` that does not score more than `x`. */
  function Insert<T>(x: T, s: seq<T>, key: T -> real): (r: seq<T>)
    ensures |r| == |s| + 1
  {
    if |s| == 0 || key(s[0]) <= key(x) then [x] + s
    else [s[0]] + Insert(x, s[1..], key)
  }

  /** `sortedByDescending`. */
  function SortedByDescending<T>(s: seq<T>, key: T -> real): (r: seq<T>)
    ensures |r| == |s|
  {
    if |s| == 0 then [] else Insert(s[0], SortedByDescending(s[1..], key), key)
  }

  lemma {:induction false} InsertPermutes<T>(x: T, s: seq<T>, key: T -> real)
    ensures multiset(Insert(x, s, key)) == multiset(s) + multiset{x}
  {
    if |s| > 0 && key(s[0]) > key(x) {
      InsertPermutes(x, s[1..], key);
      assert s == [s[0]] + s[1..];
    }
  }

  /** The sorted list holds exactly the items of the input, each as often. */
  lemma {:induction false} SortedIsPermutation<T>(s: seq<T>, key: T -> real)
    ensures multiset(SortedByDescending(s, key)) == multiset(s)
  {
    if |s| > 0 {
      SortedIsPermutation(s[1..], key);
      InsertPermutes(s[0], SortedByDescending(s[1..], key), key);
      assert s == [s[0]] + s[1..];
    }
  }

  lemma {:induction false} InsertBounded<T>(x: T, s: seq<T>, key: T -> real, b: real)
    requires key(x) <= b
    requires forall i | 0 <= i < |s| :: key(s[i]) <= b
    ensures forall i | 0 <= i < |s| + 1 :: key(Insert(x, s, key)[i]) <= b
  {
    if |s| > 0 && key(s[0]) > key(x) {
      InsertBounded(x, s[1..], key, b);
    }
  }

  lemma ConsDescending<T>(h: T, t: seq<T>, key: T -> real)
    requires IsDescending(t, key)
    requires forall i | 0 <= i < |t| :: key(t[i]) <= key(h)
    ensures IsDescending([h] + t, key)
  {
    var s := [h] + t;
    forall i, j | 0 <= i < j < |s| ensures key(s[i]) >= key(s[j]) {
      assert s[j] == t[j - 1];
      if i > 0 { assert s[i] == t[i - 1]; }
    }
  }

  lemma {:induction false} InsertDescending<T>(x: T, s: seq<T>, key: T -> real)
    requires IsDescending(s, key)
    ensures IsDescending(Insert(x, s, key), key)
  {
    if |s| == 0 || key(s[0]) <= key(x) {
      ConsDescending(x, s, key);
    } else {
      InsertDescending(x, s[1..], key);
      InsertBounded(x, s[1..], key, key(s[0]));
      ConsDescending(s[0], Insert(x, s[1..], key), key);
    }
  }

  /** The sorted list goes from the highest key to the lowest. */
  lemma {:induction false} SortedIsDescending<T>(s: seq<T>, key: T -> real)
    ensures IsDescending(SortedByDescending(s, key), key)
  {
    if |s| > 0 {
      SortedIsDescending(s[1..], key);
      InsertDescending(s[0], SortedByDescending(s[1..], key), key);
    }
  }

  lemma WithKeyCons<T>(h: T, t: seq<T>, key: T -> real, k: real)
    ensures WithKey([h] + t, key, k) == (if key(h) == k then [h] else []) + WithKey(t, key, k)
  {
    assert ([h] + t)[1..] == t;
  }

  lemma {:induction false} InsertWithKey<T>(x: T, s: seq<T>, key: T -> real, k: real)
    ensures WithKey(Insert(x, s, key), key, k) == (if key(x) == k then [x] else []) + WithKey(s, key, k)
  {
    if |s| == 0 || key(s[0]) <= key(x) {
      WithKeyCons(x, s, key, k);
    } else {
      InsertWithKey(x, s[1..], key, k);
      WithKeyCons(s[0], Insert(x, s[1..], key), key, k);
      assert s == [s[0]] + s[1..];
      WithKeyCons(s[0], s[1..], key, k);
    }
  }

  /** Stability: for every key value, the items with that key keep their input order. */
  lemma {:induction false} SortedIsStable<T>(s: seq<T>, key: T -> real, k: real)
    ensures WithKey(SortedByDescending(s, key), key, k) == WithKey(s, key, k)
  {
    if |s| > 0 {
      SortedIsStable(s[1..], key, k);
      InsertWithKey(s[0], SortedByDescending(s[1..], key), key, k);
    }
  }

  /** A list that is already in descending order comes back unchanged. */
  lemma {:induction false} SortedKeepsDescendingInput<T>(s: seq<T>, key: T -> real)
    requires IsDescending(s, key)
    ensures SortedByDescending(s, key) == s
  {
    if |s| > 0 {
      assert IsDescending(s[1..], key);
      SortedKeepsDescendingInput(s[1..], key);
      assert s == [s[0]] + s[1..];
    }
  }
}
