/**
 * Counting over lists: occurrences, distinct elements in order of first
 * occurrence, and the fact that the per-value counts over the distinct
 * values add up to the length of the list (a group-by loses no row).
 */
module Seqs {
  import opened Rows

  /** The number of positions of `xs` holding `x`. */
  function Occ<T(==)>(xs: seq<T>, x: T): (n: nat)
    ensures n <= |xs|
    ensures n == 0 <==> x !in xs
    decreases |xs|
  {
    if |xs| == 0 then 0
    else
      Occ(xs[..|xs| - 1], x) + (if xs[|xs| - 1] == x then 1 else 0)
  }

  /**
   * The distinct elements of `xs` in order of first occurrence; the model of
   * `list(set(xs))`, whose iteration order Python leaves unspecified.
   */
  function Distinct<T(==, !new)>(xs: seq<T>): (ds: seq<T>)
    ensures forall x :: x in ds <==> x in xs
    ensures forall i, j :: 0 <= i < j < |ds| ==> ds[i] != ds[j]
    ensures |ds| <= |xs|
    decreases |xs|
  {
    if |xs| == 0 then []
    else
      var init := xs[..|xs| - 1];
      assert forall y :: y in xs <==> y in init || y == xs[|xs| - 1];
      var rest := Distinct(init);
      var x := xs[|xs| - 1];
      if x in rest then rest else rest + [x]
  }

  /** The count of each value of `ds` in `xs`, in the order of `ds`. */
  function Counts<T(==)>(ds: seq<T>, xs: seq<T>): (cs: seq<int>)
    ensures |cs| == |ds| && forall k :: 0 <= k < |ds| ==> cs[k] == Occ(xs, ds[k])
  {
    seq(|ds|, k requires 0 <= k < |ds| => Occ(xs, ds[k]))
  }

  ghost predicate NoDuplicates<T>(ds: seq<T>) {
    forall i, j :: 0 <= i < j < |ds| ==> ds[i] != ds[j]
  }

  /** Appending one element raises exactly the count of that element, if it is listed. */
  lemma {:induction false} CountsSnoc<T>(ds: seq<T>, xs: seq<T>, x: T)
    requires NoDuplicates(ds)
    ensures Sum(Counts(ds, xs + [x])) == Sum(Counts(ds, xs)) + (if x in ds then 1 else 0)
    decreases |ds|
  {
    if |ds| > 0 {
      var n := |ds| - 1;
      var init := ds[..n];
      CountsSnoc(init, xs, x);
      assert Counts(ds, xs + [x])[..n] == Counts(init, xs + [x]);
      assert Counts(ds, xs)[..n] == Counts(init, xs);
      assert (xs + [x])[..|xs|] == xs;
      assert x in ds <==> x in init || x == ds[n];
      assert x == ds[n] ==> x !in init;
    }
  }

  /** Counting every element under the distinct value it equals counts the whole list. */
  lemma {:induction false} CountsCover<T>(ds: seq<T>, xs: seq<T>)
    requires NoDuplicates(ds)
    requires forall k :: 0 <= k < |xs| ==> xs[k] in ds
    ensures Sum(Counts(ds, xs)) == |xs|
    decreases |xs|
  {
    if |xs| == 0 {
      SumZero(Counts(ds, xs));
    } else {
      var init := xs[..|xs| - 1];
      assert forall k :: 0 <= k < |init| ==> init[k] == xs[k];
      CountsCover(ds, init);
      CountsSnoc(ds, init, xs[|xs| - 1]);
      assert init + [xs[|xs| - 1]] == xs;
    }
  }

  /** Taking one more element appends it. */
  lemma TakeSnoc<T>(s: seq<T>, i: nat)
    requires i < |s|
    ensures s[..i + 1] == s[..i] + [s[i]]
  {
  }

  lemma {:induction false} SumZero(cs: seq<int>)
    requires forall k :: 0 <= k < |cs| ==> cs[k] == 0
    ensures Sum(cs) == 0
    decreases |cs|
  {
    if |cs| > 0 {
      SumZero(cs[..|cs| - 1]);
    }
  }

  /** Group-by over the distinct values: the group sizes add up to the length. */
  lemma DistinctCountsSum<T(!new)>(xs: seq<T>)
    ensures Sum(Counts(Distinct(xs), xs)) == |xs|
  {
    CountsCover(Distinct(xs), xs);
  }
}
