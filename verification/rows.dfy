/**
 * Database rows as the Python code reads them: a column may be absent from
 * the row dict, present with a null value, or hold a number (booleans are
 * 0 and 1). The accessors mirror the Python idioms used on row dicts.
 */
module Rows {
  import opened Wrappers

  datatype Field = Absent | Null | Num(n: int)

  /** `row.get(k, 0)`: 0 when absent, None when stored as null. */
  function GetOr0(f: Field): (r: Option<int>)
    ensures r.None? <==> f.Null?
    ensures f.Num? ==> r == Some(f.n)
    ensures f.Absent? ==> r == Some(0)
  {
    match f
    case Absent => Some(0)
    case Null => None
    case Num(n) => Some(n)
  }

  /** `row.get(k) or 0`: absent, null and 0 all read as 0. */
  function OrZero(f: Field): (r: int)
    ensures f.Num? ==> r == f.n
    ensures !f.Num? ==> r == 0
  {
    if f.Num? then f.n else 0
  }

  /** Python truthiness of `row.get(k)`. */
  predicate IsTruthy(f: Field) {
    f.Num? && f.n != 0
  }

  /** The number of truthy fields. */
  function CountTruthy(fs: seq<Field>): (c: nat)
    ensures c <= |fs|
    ensures c == 0 <==> forall k :: 0 <= k < |fs| ==> !IsTruthy(fs[k])
    ensures c == |fs| <==> forall k :: 0 <= k < |fs| ==> IsTruthy(fs[k])
    decreases |fs|
  {
    if |fs| == 0 then 0
    else
      var rest := CountTruthy(fs[..|fs| - 1]);
      assert forall k :: 0 <= k < |fs| - 1 ==> fs[..|fs| - 1][k] == fs[k];
      rest + (if IsTruthy(fs[|fs| - 1]) then 1 else 0)
  }

  /** `sum(row.get(k, 0) for row in rows)`: None when some value is null (the sum raises). */
  function SumOr0(fs: seq<Field>): (r: Option<int>)
    ensures r.None? <==> exists k :: 0 <= k < |fs| && fs[k].Null?
    decreases |fs|
  {
    if |fs| == 0 then Some(0)
    else
      var rest := SumOr0(fs[..|fs| - 1]);
      assert forall k :: 0 <= k < |fs| - 1 ==> fs[..|fs| - 1][k] == fs[k];
      var last := GetOr0(fs[|fs| - 1]);
      if rest.None? || last.None? then None else Some(rest.value + last.value)
  }

  /** Plain sum of a list of integers. */
  function Sum(xs: seq<int>): int
    decreases |xs|
  {
    if |xs| == 0 then 0 else Sum(xs[..|xs| - 1]) + xs[|xs| - 1]
  }

  /** The sum of the field values of a null-free column equals the sum of their `OrZero` readings. */
  lemma {:induction false} SumOr0NoNull(fs: seq<Field>)
    requires forall k :: 0 <= k < |fs| ==> !fs[k].Null?
    ensures SumOr0(fs) == Some(Sum(seq(|fs|, k requires 0 <= k < |fs| => OrZero(fs[k]))))
    decreases |fs|
  {
    if |fs| > 0 {
      SumOr0NoNull(fs[..|fs| - 1]);
      var all := seq(|fs|, k requires 0 <= k < |fs| => OrZero(fs[k]));
      assert all[..|fs| - 1] == seq(|fs| - 1, k requires 0 <= k < |fs| - 1 => OrZero(fs[..|fs| - 1][k]));
    }
  }

  /** Sums are monotone: pointwise smaller columns have smaller sums. */
  lemma {:induction false} SumMonotone(xs: seq<int>, ys: seq<int>)
    requires |xs| == |ys| && forall k :: 0 <= k < |xs| ==> xs[k] <= ys[k]
    ensures Sum(xs) <= Sum(ys)
    decreases |xs|
  {
    if |xs| > 0 {
      SumMonotone(xs[..|xs| - 1], ys[..|ys| - 1]);
    }
  }
}
