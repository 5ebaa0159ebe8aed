/** The ordering the document store applies to query results
    (`.sort({field: -1})`): non-increasing by an integer key.  The store is
    modelled with a stable insertion sort, so entries with equal keys keep the
    order in which they were stored. */
module Sorting {

  /** Non-increasing by `key`. */
  predicate SortedDesc<T>(s: seq<T>, key: T -> int) {
    forall i, j :: 0 <= i < j < |s| ==> key(s[i]) >= key(s[j])
  }

  /** Places `x` after every element of `t` whose key is at least key(x). */
  function Insert<T>(x: T, t: seq<T>, key: T -> int): seq<T> {
    if |t| == 0 then [x]
    else if key(t[0]) < key(x) then [x] + t
    else [t[0]] + Insert(x, t[1..], key)
  }

  /** Stable sort by non-increasing key. */
  function SortDesc<T>(s: seq<T>, key: T -> int): seq<T> {
    if |s| == 0 then [] else Insert(s[|s| - 1], SortDesc(s[..|s| - 1], key), key)
  }

  lemma {:induction false} InsertPermutes<T>(x: T, t: seq<T>, key: T -> int)
    ensures multiset(Insert(x, t, key)) == multiset(t) + multiset{x}
  {
    if |t| > 0 && key(t[0]) >= key(x) {
      InsertPermutes(x, t[1..], key);
      assert t == [t[0]] + t[1..];
    }
  }

  lemma {:induction false} InsertSorted<T>(x: T, t: seq<T>, key: T -> int)
    requires SortedDesc(t, key)
    ensures SortedDesc(Insert(x, t, key), key)
  {
    if |t| > 0 && key(t[0]) >= key(x) {
      InsertSorted(x, t[1..], key);
      var r := Insert(x, t[1..], key);
      InsertPermutes(x, t[1..], key);
      forall y | y in r
        ensures key(t[0]) >= key(y)
      {
        assert y in multiset(r);
        if y != x {
          assert y in multiset(t[1..]);
        }
      }
      assert forall j :: 0 <= j < |r| ==> r[j] in r;
    }
  }

  /** The result is ordered by non-increasing key. */
  lemma {:induction false} SortDescSorted<T>(s: seq<T>, key: T -> int)
    ensures SortedDesc(SortDesc(s, key), key)
  {
    if |s| > 0 {
      SortDescSorted(s[..|s| - 1], key);
      InsertSorted(s[|s| - 1], SortDesc(s[..|s| - 1], key), key);
    }
  }

  /** The result holds the same elements, each as often as before. */
  lemma {:induction false} SortDescPermutes<T>(s: seq<T>, key: T -> int)
    ensures multiset(SortDesc(s, key)) == multiset(s)
  {
    if |s| > 0 {
      SortDescPermutes(s[..|s| - 1], key);
      InsertPermutes(s[|s| - 1], SortDesc(s[..|s| - 1], key), key);
      assert s == s[..|s| - 1] + [s[|s| - 1]];
    }
  }

  lemma {:induction false} InsertAtEnd<T>(x: T, t: seq<T>, key: T -> int)
    requires forall j :: 0 <= j < |t| ==> key(t[j]) >= key(x)
    ensures Insert(x, t, key) == t + [x]
  {
    if |t| > 0 {
      InsertAtEnd(x, t[1..], key);
    }
  }

  /** Stability: a sequence that is already in order (in particular one whose
      keys are all equal) is left exactly as it is. */
  lemma {:induction false} SortDescOfSorted<T>(s: seq<T>, key: T -> int)
    requires SortedDesc(s, key)
    ensures SortDesc(s, key) == s
  {
    if |s| > 0 {
      var init := s[..|s| - 1];
      SortDescOfSorted(init, key);
      InsertAtEnd(s[|s| - 1], init, key);
      assert s == init + [s[|s| - 1]];
    }
  }
}
