/**
 * Python's `sorted(xs, key=k, reverse=True)`: a stable sort into
 * non-increasing key order. Python keeps equal-key elements in input order
 * even with `reverse=True`; the model is an insertion sort with the same
 * result.
 */
module Sorting {

  /** Keys never increase from left to right. */
  ghost predicate SortedDesc<T>(xs: seq<T>, key: T -> real) {
    forall i, j :: 0 <= i < j < |xs| ==> key(xs[i]) >= key(xs[j])
  }

  /** The elements of `xs` whose key is `k`, in their order in `xs`. */
  function WithKey<T>(xs: seq<T>, key: T -> real, k: real): (r: seq<T>)
    ensures |r| <= |xs|
  {
    if |xs| == 0 then []
    else if key(xs[0]) == k then [xs[0]] + WithKey(xs[1..], key, k)
    else WithKey(xs[1..], key, k)
  }

  /** Insert `x` before the first element whose key is not larger than its own. */
  function Insert<T>(x: T, ys: seq<T>, key: T -> real): seq<T> {
    if |ys| == 0 then [x]
    else if key(x) >= key(ys[0]) then [x] + ys
    else [ys[0]] + Insert(x, ys[1..], key)
  }

  /** `sorted(xs, key=key, reverse=True)` */
  function SortDesc<T>(xs: seq<T>, key: T -> real): seq<T> {
    if |xs| == 0 then [] else Insert(xs[0], SortDesc(xs[1..], key), key)
  }

  lemma {:induction false} InsertPerm<T>(x: T, ys: seq<T>, key: T -> real)
    ensures multiset(Insert(x, ys, key)) == multiset(ys) + multiset{x}
    decreases |ys|
  {
    if |ys| > 0 && key(x) < key(ys[0]) {
      InsertPerm(x, ys[1..], key);
      assert ys == [ys[0]] + ys[1..];
    }
  }

  lemma {:induction false} InsertSorted<T>(x: T, ys: seq<T>, key: T -> real)
    requires SortedDesc(ys, key)
    ensures SortedDesc(Insert(x, ys, key), key)
    decreases |ys|
  {
    if |ys| > 0 && key(x) < key(ys[0]) {
      var tail := ys[1..];
      InsertSorted(x, tail, key);
      InsertPerm(x, tail, key);
      var it := Insert(x, tail, key);
      var r := Insert(x, ys, key);
      assert r == [ys[0]] + it;
      forall j | 1 <= j < |r| ensures key(r[0]) >= key(r[j]) {
        assert r[j] == it[j - 1];
        assert r[j] in multiset(it);
        if r[j] != x {
          assert r[j] in multiset(tail);
          var m :| 0 <= m < |tail| && tail[m] == r[j];
          assert tail[m] == ys[m + 1];
        }
      }
    }
  }

  lemma {:induction false} InsertWithKey<T>(x: T, ys: seq<T>, key: T -> real, k: real)
    requires SortedDesc(ys, key)
    ensures WithKey(Insert(x, ys, key), key, k)
            == if key(x) == k then [x] + WithKey(ys, key, k) else WithKey(ys, key, k)
    decreases |ys|
  {
    var r := Insert(x, ys, key);
    if |ys| == 0 {
    } else if key(x) >= key(ys[0]) {
      assert r[1..] == ys;
    } else {
      InsertWithKey(x, ys[1..], key, k);
      assert r[1..] == Insert(x, ys[1..], key);
    }
  }

  /** The sorted list is ordered, is a permutation of the input, and is stable. */
  lemma {:induction false} SortDescCorrect<T>(xs: seq<T>, key: T -> real)
    ensures SortedDesc(SortDesc(xs, key), key)
    ensures multiset(SortDesc(xs, key)) == multiset(xs)
    ensures |SortDesc(xs, key)| == |xs|
    ensures forall k :: WithKey(SortDesc(xs, key), key, k) == WithKey(xs, key, k)
    decreases |xs|
  {
    if |xs| > 0 {
      SortDescCorrect(xs[1..], key);
      var rest := SortDesc(xs[1..], key);
      InsertSorted(xs[0], rest, key);
      InsertPerm(xs[0], rest, key);
      forall k ensures WithKey(SortDesc(xs, key), key, k) == WithKey(xs, key, k) {
        InsertWithKey(xs[0], rest, key, k);
      }
      assert xs == [xs[0]] + xs[1..];
      assert multiset(xs) == multiset{xs[0]} + multiset(xs[1..]);
      var r := SortDesc(xs, key);
      assert |r| == |multiset(r)|;
    }
  }
}
