/** What each statistic says about the values, without reference to how it is computed. */
module PercentileLaws {
  import opened Statistics

  // Counting values.

  function AtMost(values: seq<real>, x: real): nat {
    if values == [] then 0 else (if values[0] <= x then 1 else 0) + AtMost(values[1..], x)
  }

  function Below(values: seq<real>, x: real): nat {
    if values == [] then 0 else (if values[0] < x then 1 else 0) + Below(values[1..], x)
  }

  function AtLeast(values: seq<real>, x: real): nat {
    if values == [] then 0 else (if values[0] >= x then 1 else 0) + AtLeast(values[1..], x)
  }

  function Total(values: seq<real>): real {
    if values == [] then 0.0 else values[0] + Total(values[1..])
  }

  lemma {:induction false} CountsMonotone(values: seq<real>, x: real, y: real)
    requires x <= y
    ensures AtMost(values, x) <= AtMost(values, y) && AtLeast(values, y) <= AtLeast(values, x)
    ensures Below(values, x) <= Below(values, y) && AtLeast(values, x) + Below(values, x) == |values|
    ensures x < y ==> AtMost(values, x) <= Below(values, y)
  {
    if values != [] {
      CountsMonotone(values[1..], x, y);
    }
  }

  lemma {:induction false} CountsInsert(v: real, s: seq<real>, x: real)
    ensures AtMost(Insert(v, s), x) == AtMost(s, x) + if v <= x then 1 else 0
    ensures Below(Insert(v, s), x) == Below(s, x) + if v < x then 1 else 0
    ensures Total(Insert(v, s)) == Total(s) + v
  {
    if s == [] || v <= s[0] {
      assert Insert(v, s)[1..] == s;
    } else {
      assert Insert(v, s)[1..] == Insert(v, s[1..]);
      CountsInsert(v, s[1..], x);
    }
  }

  lemma {:induction false} CountsSort(values: seq<real>, x: real)
    ensures AtMost(Sort(values), x) == AtMost(values, x) && Below(Sort(values), x) == Below(values, x)
    ensures Total(Sort(values)) == Total(values)
  {
    if values != [] {
      CountsSort(values[1..], x);
      CountsInsert(values[0], Sort(values[1..]), x);
    }
  }

  // Ranks.

  /** The value of rank k, counted from 0: at most k values are smaller, and more than k are not greater. */
  predicate IsRank(values: seq<real>, k: int, x: real) {
    Below(values, x) <= k < AtMost(values, x)
  }

  /** There is only one value of a rank. */
  lemma RankUnique(values: seq<real>, k: int, x: real, y: real)
    requires IsRank(values, k, x) && IsRank(values, k, y)
    ensures x == y
  {
    if x < y {
      CountsMonotone(values, x, y);
    } else if y < x {
      CountsMonotone(values, y, x);
    }
  }

  lemma {:induction false} SortedCounts(s: seq<real>, k: nat)
    requires Sorted(s) && k < |s|
    ensures AtMost(s, s[k]) > k && Below(s, s[k]) <= k
  {
    if k == 0 {
      forall i | 0 <= i < |s| ensures s[0] <= s[i] {
        SortedAt(s, 0, i);
      }
      NoneBelow(s, s[0]);
    } else {
      SortedAt(s, 0, k);
      SortedCounts(s[1..], k - 1);
    }
  }

  lemma {:induction false} NoneBelow(s: seq<real>, x: real)
    requires forall i :: 0 <= i < |s| ==> x <= s[i]
    ensures Below(s, x) == 0
  {
    if s != [] {
      NoneBelow(s[1..], x);
    }
  }

  /** The k-th of the sorted values is the value of rank k. */
  lemma SortedRank(values: seq<real>, k: int)
    requires 0 <= k < |values|
    ensures IsRank(values, k, Sort(values)[k])
  {
    hide Sort;
    SortSorts(values);
    SortedCounts(Sort(values), k);
    CountsSort(values, Sort(values)[k]);
  }

  // Percentiles.

  /** Linear interpolation, at a fractional rank, between the values of the neighbouring ranks. */
  predicate Interpolates(values: seq<real>, rank: real, low: real, high: real, x: real) {
    && IsRank(values, rank.Floor, low)
    && IsRank(values, -(-rank).Floor, high)
    && x == low + (rank - rank.Floor as real) * (high - low)
  }

  function RankOf(n: nat, p: real): real {
    p * (n - 1) as real
  }

  /** The value at rank p (n - 1). */
  ghost predicate IsPercentile(values: seq<real>, p: real, x: real) {
    exists low, high :: Interpolates(values, RankOf(|values|, p), low, high, x)
  }

  lemma CeilNegated(x: real)
    ensures Ceil(x) == -(-x).Floor
  {
  }

  lemma PercentileIs(values: seq<real>, p: real)
    requires values != [] && 0.0 < p < 1.0
    ensures PercentileInc(Sort(values), p).Some? && IsPercentile(values, p, PercentileInc(Sort(values), p).value)
  {
    hide IsRank, Sort;
    SortSorts(values);
    var s, rank := Sort(values), RankOf(|values|, p);
    assert rank == IndexAt(|s|, p);
    CeilNegated(rank);
    SortedRank(values, rank.Floor);
    SortedRank(values, Ceil(rank));
    assert Interpolates(values, rank, s[rank.Floor], s[Ceil(rank)], PercentileInc(s, p).value);
  }

  /** A percentile is one value, whatever the order of the input. */
  lemma PercentileUnique(values: seq<real>, p: real, x: real, y: real)
    requires IsPercentile(values, p, x) && IsPercentile(values, p, y)
    ensures x == y
  {
    hide IsRank;
    var rank := RankOf(|values|, p);
    var a, b :| Interpolates(values, rank, a, b, x);
    var c, d :| Interpolates(values, rank, c, d, y);
    RankUnique(values, rank.Floor, a, c);
    RankUnique(values, -(-rank).Floor, b, d);
  }

  /** At least floor(p (n - 1)) + 1 values are at most the percentile, and at least n - ceil(p (n - 1)) at least it. */
  lemma PercentileRank(values: seq<real>, p: real, x: real)
    requires IsPercentile(values, p, x)
    ensures
      var rank := RankOf(|values|, p);
      AtMost(values, x) >= rank.Floor + 1 && AtLeast(values, x) >= |values| + (-rank).Floor
  {
    hide Interpolates, AtMost, AtLeast;
    var rank := RankOf(|values|, p);
    var low, high :| Interpolates(values, rank, low, high, x);
    InterpolatedRank(values, rank, low, high, x);
  }

  lemma InterpolatedRank(values: seq<real>, rank: real, low: real, high: real, x: real)
    requires Interpolates(values, rank, low, high, x)
    ensures AtMost(values, x) >= rank.Floor + 1 && AtLeast(values, x) >= |values| + (-rank).Floor
  {
    hide AtMost, AtLeast, Below;
    RanksOrdered(values, rank.Floor, -(-rank).Floor, low, high);
    BlendMonotone(low, high, rank - rank.Floor as real, rank - rank.Floor as real);
    CountsMonotone(values, low, x);
    CountsMonotone(values, x, high);
    CountsMonotone(values, high, high);
  }

  lemma RanksOrdered(values: seq<real>, j: int, k: int, x: real, y: real)
    requires j <= k && IsRank(values, j, x) && IsRank(values, k, y)
    ensures x <= y
  {
    if y < x {
      CountsMonotone(values, y, x);
    }
  }

  // All statistics.

  lemma {:induction false} SumIsTotal(s: seq<real>)
    ensures Sum(s) == Total(s)
  {
    if s != [] {
      SumIsTotal(s[..|s| - 1]);
      TotalLast(s);
    }
  }

  lemma {:induction false} TotalLast(s: seq<real>)
    requires s != []
    ensures Total(s) == Total(s[..|s| - 1]) + s[|s| - 1]
  {
    if |s| == 1 {
      assert s[..0] == [] && s[1..] == [];
    } else {
      TotalLast(s[1..]);
      assert s[1..][..|s| - 2] == s[..|s| - 1][1..];
    }
  }

  lemma QuotientTimes(a: real, n: real)
    requires n > 0.0
    ensures a / n * n == a
  {
  }

  lemma MeanIs(values: seq<real>)
    requires values != []
    ensures Calculated(values).mean == Sum(Sort(values)) / |values| as real
  {
    hide PercentileInc, Sort, Sum, CountAbove, Sorted;
  }

  lemma MeanTotal(values: seq<real>)
    requires values != []
    ensures Calculated(values).mean * |values| as real == Total(values)
  {
    hide *;
    MeanIs(values);
    SumIsTotal(Sort(values));
    CountsSort(values, 0.0);
    QuotientTimes(Sum(Sort(values)), |values| as real);
  }

  /** Every statistic, in terms of the values alone. */
  lemma StatisticsMean(values: seq<real>)
    requires values != []
    ensures
      var s := Calculated(values);
      && s.count == |values|
      && IsRank(values, 0, s.minimum) && IsRank(values, |values| - 1, s.maximum)
      && IsPercentile(values, 0.25, s.q1) && IsPercentile(values, 0.50, s.p50) && IsPercentile(values, 0.75, s.q3)
      && IsPercentile(values, 0.90, s.p90) && IsPercentile(values, 0.95, s.p95)
      && IsPercentile(values, 0.99, s.p99) && IsPercentile(values, 0.999, s.p999)
      && s.mean * |values| as real == Total(values)
      && s.iqr == s.q3 - s.q1 && 2.0 * (s.outlierThreshold - s.q3) == 3.0 * s.iqr
      && s.outlierCount == |values| - AtMost(values, s.outlierThreshold)
  {
    MeanTotal(values);
    OutliersAre(values);
    hide PercentileInc, Sort, Sum, CountAbove, IsRank, IsPercentile;
    SortSorts(values);
    SortedRank(values, 0);
    SortedRank(values, |values| - 1);
    PercentileIs(values, 0.25);
    PercentileIs(values, 0.50);
    PercentileIs(values, 0.75);
    PercentileIs(values, 0.90);
    PercentileIs(values, 0.95);
    PercentileIs(values, 0.99);
    PercentileIs(values, 0.999);
  }

  lemma {:induction false} AboveOrAtMost(s: seq<real>, x: real)
    ensures CountAbove(s, x) + AtMost(s, x) == |s|
  {
    if s != [] {
      AboveOrAtMost(s[1..], x);
      CountAboveHead(s, x);
    }
  }

  lemma OutliersAre(values: seq<real>)
    requires values != []
    ensures Calculated(values).outlierCount == |values| - AtMost(values, Calculated(values).outlierThreshold)
  {
    hide PercentileInc, Sort, Sum, CountAbove, AtMost;
    var x := Calculated(values).outlierThreshold;
    AboveOrAtMost(Sort(values), x);
    CountsSort(values, x);
  }
}
