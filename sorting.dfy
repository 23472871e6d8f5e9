/** `ORDER BY <column> DESC` and Python's `sorted(..., key=..., reverse=True)`,
    both modelled as one stable insertion sort on an integer key. The database
    leaves the order of equal keys open; keeping the scan order is the choice
    the model makes, and it is exactly what Python's stable sort does. */
module Sorting {

  /** `key` never increases along `s`. */
  ghost predicate SortedDesc<T>(s: seq<T>, key: T -> int) {
    forall i, j :: 0 <= i < j < |s| ==> key(s[i]) >= key(s[j])
  }

  /** The elements of `s` whose key is `k`, in their order in `s`. */
  function WithKey<T>(s: seq<T>, key: T -> int, k: int): seq<T> {
    if s == [] then [] else (if key(s[0]) == k then [s[0]] else []) + WithKey(s[1..], key, k)
  }

  /** Puts `x` in front of the first element whose key is not greater than its own. */
  function Insert<T>(x: T, s: seq<T>, key: T -> int): seq<T> {
    if s == [] || key(s[0]) <= key(x) then [x] + s
    else [s[0]] + Insert(x, s[1..], key)
  }

  /** Stable sort by `key`, largest first. */
  function SortDesc<T>(s: seq<T>, key: T -> int): seq<T> {
    if s == [] then [] else Insert(s[0], SortDesc(s[1..], key), key)
  }

  lemma {:induction false} InsertCount<T>(x: T, s: seq<T>, key: T -> int)
    ensures multiset(Insert(x, s, key)) == multiset(s) + multiset{x}
    ensures |Insert(x, s, key)| == |s| + 1
  {
    if s == [] || key(s[0]) <= key(x) {
    } else {
      InsertCount(x, s[1..], key);
      assert s == [s[0]] + s[1..];
    }
  }

  lemma {:induction false} InsertBound<T>(x: T, s: seq<T>, key: T -> int, b: int)
    requires forall i :: 0 <= i < |s| ==> key(s[i]) <= b
    requires key(x) <= b
    ensures forall i :: 0 <= i < |Insert(x, s, key)| ==> key(Insert(x, s, key)[i]) <= b
  {
    if s == [] || key(s[0]) <= key(x) {
    } else {
      InsertBound(x, s[1..], key, b);
    }
  }

  lemma {:induction false} InsertSorted<T>(x: T, s: seq<T>, key: T -> int)
    requires SortedDesc(s, key)
    ensures SortedDesc(Insert(x, s, key), key)
  {
    if s == [] || key(s[0]) <= key(x) {
    } else {
      InsertSorted(x, s[1..], key);
      var t := Insert(x, s[1..], key);
      InsertBound(x, s[1..], key, key(s[0]));
      var r := [s[0]] + t;
      forall i, j | 0 <= i < j < |r| ensures key(r[i]) >= key(r[j]) {
        if i == 0 {
          assert r[j] == t[j - 1];
        } else {
          assert r[i] == t[i - 1] && r[j] == t[j - 1];
        }
      }
    }
  }

  lemma {:induction false} SortDescLength<T>(s: seq<T>, key: T -> int)
    ensures |SortDesc(s, key)| == |s|
  {
    if s != [] {
      SortDescLength(s[1..], key);
      InsertCount(s[0], SortDesc(s[1..], key), key);
    }
  }

  /** The sort orders by key and only rearranges. */
  lemma {:induction false} SortDescCorrect<T>(s: seq<T>, key: T -> int)
    ensures SortedDesc(SortDesc(s, key), key)
    ensures multiset(SortDesc(s, key)) == multiset(s)
    ensures |SortDesc(s, key)| == |s|
  {
    if s != [] {
      SortDescCorrect(s[1..], key);
      InsertSorted(s[0], SortDesc(s[1..], key), key);
      InsertCount(s[0], SortDesc(s[1..], key), key);
      assert s == [s[0]] + s[1..];
    }
  }

  lemma {:induction false} WithKeyAppend<T>(a: seq<T>, b: seq<T>, key: T -> int, k: int)
    ensures WithKey(a + b, key, k) == WithKey(a, key, k) + WithKey(b, key, k)
  {
    if a == [] {
      assert a + b == b;
    } else {
      var ab := a + b;
      assert ab[0] == a[0] && ab[1..] == a[1..] + b;
      var h := if key(a[0]) == k then [a[0]] else [];
      assert WithKey(ab, key, k) == h + WithKey(a[1..] + b, key, k);
      assert WithKey(a, key, k) == h + WithKey(a[1..], key, k);
      WithKeyAppend(a[1..], b, key, k);
    }
  }

  lemma {:induction false} InsertWithKey<T>(x: T, s: seq<T>, key: T -> int, k: int)
    ensures WithKey(Insert(x, s, key), key, k) == (if key(x) == k then [x] else []) + WithKey(s, key, k)
  {
    if s == [] || key(s[0]) <= key(x) {
      WithKeyAppend([x], s, key, k);
    } else {
      InsertWithKey(x, s[1..], key, k);
      WithKeyAppend([s[0]], Insert(x, s[1..], key), key, k);
    }
  }

  /** Stability: among elements with equal keys, the sorted order is the input order. */
  lemma {:induction false} SortDescStable<T>(s: seq<T>, key: T -> int, k: int)
    ensures WithKey(SortDesc(s, key), key, k) == WithKey(s, key, k)
  {
    if s != [] {
      SortDescStable(s[1..], key, k);
      InsertWithKey(s[0], SortDesc(s[1..], key), key, k);
    }
  }

  /** In a non-empty sorted sequence the first element has the largest key. */
  lemma SortDescHeadIsMax<T>(s: seq<T>, key: T -> int)
    requires s != []
    ensures SortDesc(s, key) != []
    ensures forall x :: x in s ==> key(x) <= key(SortDesc(s, key)[0])
  {
    SortDescCorrect(s, key);
    var r := SortDesc(s, key);
    forall x | x in s ensures key(x) <= key(r[0]) {
      assert x in multiset(r);
      var j :| 0 <= j < |r| && r[j] == x;
    }
  }

  /** A prefix of a sorted sequence is sorted and takes its elements from it. */
  lemma SortedPrefix<T>(top: seq<T>, s: seq<T>, key: T -> int)
    requires top <= s && SortedDesc(s, key)
    ensures SortedDesc(top, key)
    ensures multiset(top) <= multiset(s)
  {
    assert s == top + s[|top|..];
    assert multiset(s) == multiset(top) + multiset(s[|top|..]);
  }
}
