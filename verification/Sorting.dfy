/** Stable sorting by an integer key, as JavaScript's `sort` with a numeric comparison. */
module Sorting {

  function InsertByKey<T>(sorted: seq<T>, x: T, key: T -> int): (r: seq<T>) {
    if sorted == [] then [x]
    else if key(sorted[|sorted| - 1]) <= key(x) then sorted + [x]
    else InsertByKey(sorted[..|sorted| - 1], x, key) + [sorted[|sorted| - 1]]
  }

  function SortByKey<T>(s: seq<T>, key: T -> int): seq<T> {
    if s == [] then [] else InsertByKey(SortByKey(s[..|s| - 1], key), s[|s| - 1], key)
  }

  ghost predicate SortedBy<T>(s: seq<T>, key: T -> int) {
    forall i, j | 0 <= i < j < |s| :: key(s[i]) <= key(s[j])
  }

  lemma {:induction false} InsertedMembers<T>(sorted: seq<T>, x: T, key: T -> int)
    ensures multiset(InsertByKey(sorted, x, key)) == multiset(sorted) + multiset{x}
    ensures |InsertByKey(sorted, x, key)| == |sorted| + 1
    ensures forall y | y in InsertByKey(sorted, x, key) :: y in sorted || y == x
  {
    if sorted != [] && key(sorted[|sorted| - 1]) > key(x) {
      InsertedMembers(sorted[..|sorted| - 1], x, key);
      assert sorted == sorted[..|sorted| - 1] + [sorted[|sorted| - 1]];
    }
  }

  lemma {:induction false} InsertedSorted<T>(sorted: seq<T>, x: T, key: T -> int)
    requires SortedBy(sorted, key)
    ensures SortedBy(InsertByKey(sorted, x, key), key)
  {
    if sorted != [] && key(sorted[|sorted| - 1]) > key(x) {
      var front := sorted[..|sorted| - 1];
      InsertedSorted(front, x, key);
      InsertedMembers(front, x, key);
      var inserted := InsertByKey(front, x, key);
      forall i | 0 <= i < |inserted| ensures key(inserted[i]) <= key(sorted[|sorted| - 1]) {
        assert inserted[i] in inserted;
        if inserted[i] in front {
          var k :| 0 <= k < |front| && front[k] == inserted[i];
          assert sorted[k] == inserted[i];
        }
      }
    }
  }

  lemma {:induction false} SortedMultiset<T>(s: seq<T>, key: T -> int)
    ensures multiset(SortByKey(s, key)) == multiset(s) && |SortByKey(s, key)| == |s|
  {
    if s != [] {
      SortedMultiset(s[..|s| - 1], key);
      InsertedMembers(SortByKey(s[..|s| - 1], key), s[|s| - 1], key);
      assert s == s[..|s| - 1] + [s[|s| - 1]];
    }
  }

  lemma {:induction false} SortedOrder<T>(s: seq<T>, key: T -> int)
    ensures SortedBy(SortByKey(s, key), key)
  {
    if s != [] {
      SortedOrder(s[..|s| - 1], key);
      InsertedSorted(SortByKey(s[..|s| - 1], key), s[|s| - 1], key);
    }
  }

  /** The result is ordered and holds exactly the given elements. */
  lemma SortedByKey<T>(s: seq<T>, key: T -> int)
    ensures SortedBy(SortByKey(s, key), key) && multiset(SortByKey(s, key)) == multiset(s) && |SortByKey(s, key)| == |s|
  {
    SortedOrder(s, key);
    SortedMultiset(s, key);
  }

  lemma SortedMember<T>(s: seq<T>, key: T -> int, x: T)
    ensures x in SortByKey(s, key) <==> x in s
  {
    SortedByKey(s, key);
    assert x in SortByKey(s, key) <==> x in multiset(SortByKey(s, key));
    assert x in s <==> x in multiset(s);
  }

  /** An ordered sequence is left as it is. */
  lemma {:induction false} SortedStays<T>(s: seq<T>, key: T -> int)
    requires SortedBy(s, key)
    ensures SortByKey(s, key) == s
  {
    if s != [] {
      SortedStays(s[..|s| - 1], key);
      assert s == s[..|s| - 1] + [s[|s| - 1]];
    }
  }
}
