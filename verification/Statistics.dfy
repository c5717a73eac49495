/** Percentiles, outliers and run comparison (src/core.cpp, src/monitoring.cpp), with doubles as exact reals. */
module Statistics {
  import opened Common

  ghost predicate Least(x: real, s: seq<real>) {
    forall y :: y in s ==> x <= y
  }

  ghost predicate Sorted(s: seq<real>) {
    s == [] || (Least(s[0], s[1..]) && Sorted(s[1..]))
  }

  lemma {:induction false} SortedAt(s: seq<real>, i: nat, j: nat)
    requires Sorted(s) && i <= j < |s|
    ensures s[i] <= s[j]
  {
    if i > 0 {
      SortedAt(s[1..], i - 1, j - 1);
    } else if j > 0 {
      assert s[j] == s[1..][j - 1];
      assert s[j] in s[1..];
    }
  }

  function Insert(x: real, s: seq<real>): seq<real> {
    if s == [] || x <= s[0] then [x] + s else [s[0]] + Insert(x, s[1..])
  }

  /** Stands for `std::ranges::sort`. */
  function Sort(s: seq<real>): (r: seq<real>)
    ensures |r| == |s|
  {
    if s == [] then [] else
    InsertKeeps(s[0], Sort(s[1..]));
    Insert(s[0], Sort(s[1..]))
  }

  lemma SplitHead(s: seq<real>)
    requires s != []
    ensures multiset(s) == multiset{s[0]} + multiset(s[1..])
  {
    assert s == [s[0]] + s[1..];
  }

  lemma {:induction false} InsertKeeps(x: real, s: seq<real>)
    ensures multiset(Insert(x, s)) == multiset{x} + multiset(s) && |Insert(x, s)| == |s| + 1
  {
    if s != [] && x > s[0] {
      InsertKeeps(x, s[1..]);
      SplitHead(s);
    }
  }

  lemma InsertMembers(x: real, s: seq<real>, y: real)
    requires y in Insert(x, s)
    ensures y == x || y in s
  {
    InsertKeeps(x, s);
    assert y in multiset(Insert(x, s));
  }

  lemma {:induction false} InsertSorts(x: real, s: seq<real>)
    requires Sorted(s)
    ensures Sorted(Insert(x, s))
  {
    var r := Insert(x, s);
    if s == [] || x <= s[0] {
      assert r[1..] == s;
      forall y | y in s ensures x <= y {
        var i :| 0 <= i < |s| && s[i] == y;
        SortedAt(s, 0, i);
      }
    } else {
      InsertSorts(x, s[1..]);
      assert r[1..] == Insert(x, s[1..]);
      forall y | y in r[1..] ensures s[0] <= y {
        InsertMembers(x, s[1..], y);
      }
    }
  }

  lemma {:induction false} SortSorts(s: seq<real>)
    ensures Sorted(Sort(s)) && multiset(Sort(s)) == multiset(s)
  {
    if s != [] {
      SortSorts(s[1..]);
      InsertSorts(s[0], Sort(s[1..]));
      InsertKeeps(s[0], Sort(s[1..]));
      SplitHead(s);
    }
  }

  lemma SortedHeadLeast(s: seq<real>, y: real)
    requires Sorted(s) && y in multiset(s)
    ensures s != [] && s[0] <= y
  {
    var i :| 0 <= i < |s| && s[i] == y;
    SortedAt(s, 0, i);
  }

  lemma {:induction false} SortedUnique(a: seq<real>, b: seq<real>)
    requires Sorted(a) && Sorted(b) && multiset(a) == multiset(b)
    ensures a == b
  {
    if a == [] || b == [] {
      assert |multiset(a)| == |a| && |multiset(b)| == |b|;
    } else {
      SplitHead(a);
      SplitHead(b);
      SortedHeadLeast(a, b[0]);
      SortedHeadLeast(b, a[0]);
      TailsAgree(a[0], multiset(a[1..]), multiset(b[1..]));
      SortedUnique(a[1..], b[1..]);
      assert a == [a[0]] + a[1..] && b == [b[0]] + b[1..];
    }
  }

  lemma TailsAgree(x: real, a: multiset<real>, b: multiset<real>)
    requires multiset{x} + a == multiset{x} + b
    ensures a == b
  {
    assert a == multiset{x} + a - multiset{x};
    assert b == multiset{x} + b - multiset{x};
  }

  /** Sorting forgets the input order. */
  lemma SortIgnoresOrder(a: seq<real>, b: seq<real>)
    requires multiset(a) == multiset(b)
    ensures Sort(a) == Sort(b)
  {
    SortSorts(a);
    SortSorts(b);
    SortedUnique(Sort(a), Sort(b));
  }

  // Interpolated percentiles.

  function Ceil(x: real): int {
    if x == x.Floor as real then x.Floor else x.Floor + 1
  }

  function Blend(low: real, high: real, fraction: real): real {
    low + fraction * (high - low)
  }

  /** Linear interpolation between the neighbours of a fractional index. */
  function Interpolate(s: seq<real>, index: real): real
    requires s != [] && 0.0 <= index <= (|s| - 1) as real
  {
    Blend(s[index.Floor], s[Ceil(index)], index - index.Floor as real)
  }

  function IndexAt(n: nat, p: real): (index: real)
    requires n >= 1 && 0.0 <= p <= 1.0
    ensures 0.0 <= index <= (n - 1) as real
  {
    ScaleUnit(p, (n - 1) as real);
    (n - 1) as real * p
  }

  /** `PERCENTILE.INC`; there is no value for empty input, where the source returns NaN. */
  function PercentileInc(s: seq<real>, p: real): Option<real> {
    if s == [] then None
    else if p <= 0.0 then Some(s[0])
    else if p >= 1.0 then Some(s[|s| - 1])
    else Some(Interpolate(s, IndexAt(|s|, p)))
  }

  lemma ScaleMonotone(a: real, b: real, d: real)
    requires a <= b && d >= 0.0
    ensures a * d <= b * d
    ensures d * a <= d * b
  {
  }

  lemma ScaleUnit(p: real, d: real)
    requires 0.0 <= p <= 1.0 && d >= 0.0
    ensures 0.0 <= d * p <= d
  {
    ScaleMonotone(p, 1.0, d);
  }

  lemma BlendMonotone(low: real, high: real, f: real, g: real)
    requires low <= high && 0.0 <= f <= g <= 1.0
    ensures low <= Blend(low, high, f) <= Blend(low, high, g) <= high
  {
    var d := high - low;
    ScaleMonotone(0.0, f, d);
    ScaleMonotone(f, g, d);
    ScaleMonotone(g, 1.0, d);
    assert Blend(low, high, f) == low + f * d && Blend(low, high, g) == low + g * d;
  }

  lemma InterpolateMonotone(s: seq<real>, x: real, y: real)
    requires Sorted(s) && s != [] && 0.0 <= x <= y <= (|s| - 1) as real
    ensures s[x.Floor] <= Interpolate(s, x) <= Interpolate(s, y) <= s[Ceil(y)]
  {
    var i, j := x.Floor, y.Floor;
    SortedAt(s, i, Ceil(x));
    SortedAt(s, j, Ceil(y));
    BlendMonotone(s[i], s[Ceil(x)], x - i as real, x - i as real);
    BlendMonotone(s[j], s[Ceil(y)], y - j as real, y - j as real);
    if i == j && Ceil(x) == Ceil(y) {
      BlendMonotone(s[i], s[Ceil(x)], x - i as real, y - i as real);
    } else if i == j {
      assert Ceil(x) == i && x - i as real == 0.0;
    } else {
      SortedAt(s, Ceil(x), j);
    }
  }

  /** A requested percentile outside [0, 1] selects an end. */
  function Clamp(p: real): real {
    if p <= 0.0 then 0.0 else if p >= 1.0 then 1.0 else p
  }

  lemma PercentileClamped(s: seq<real>, p: real)
    requires s != []
    ensures PercentileInc(s, p) == Some(Interpolate(s, IndexAt(|s|, Clamp(p))))
  {
    assert IndexAt(|s|, 0.0) == 0.0;
    assert IndexAt(|s|, 1.0) == (|s| - 1) as real;
  }

  lemma IndexMonotone(n: nat, p: real, q: real)
    requires n >= 1 && 0.0 <= p <= q <= 1.0
    ensures IndexAt(n, p) <= IndexAt(n, q)
  {
    ScaleMonotone(p, q, (n - 1) as real);
  }

  /** Percentiles stay within the data and grow with the requested percentile. */
  lemma PercentileMonotone(s: seq<real>, p: real, q: real)
    requires Sorted(s) && s != [] && p <= q
    ensures s[0] <= PercentileInc(s, p).value <= PercentileInc(s, q).value <= s[|s| - 1]
  {
    PercentileClamped(s, p);
    PercentileClamped(s, q);
    IndexMonotone(|s|, Clamp(p), Clamp(q));
    var x, y := IndexAt(|s|, Clamp(p)), IndexAt(|s|, Clamp(q));
    InterpolateMonotone(s, x, y);
    SortedAt(s, 0, x.Floor);
    SortedAt(s, Ceil(y), |s| - 1);
  }

  // Descriptive statistics.

  datatype Statistics = Statistics(
    count: nat, minimum: real, mean: real, p50: real, p90: real, p95: real, p99: real, p999: real, maximum: real,
    q1: real, q3: real, iqr: real, outlierThreshold: real, outlierCount: nat)

  const NO_STATISTICS := Statistics(0, 0.0, 0.0, 0.0, 0.0, 0.0, 0.0, 0.0, 0.0, 0.0, 0.0, 0.0, 0.0, 0)

  function Sum(s: seq<real>): real {
    if s == [] then 0.0 else Sum(s[..|s| - 1]) + s[|s| - 1]
  }

  function CountAbove(s: seq<real>, threshold: real): nat {
    if s == [] then 0 else CountAbove(s[..|s| - 1], threshold) + if s[|s| - 1] > threshold then 1 else 0
  }

  function Describe(sorted: seq<real>): Statistics
    requires sorted != []
  {
    var q1, q3 := PercentileInc(sorted, 0.25).value, PercentileInc(sorted, 0.75).value;
    var threshold := q3 + 1.5 * (q3 - q1);
    Statistics(
      |sorted|, sorted[0], Sum(sorted) / |sorted| as real,
      PercentileInc(sorted, 0.50).value, PercentileInc(sorted, 0.90).value, PercentileInc(sorted, 0.95).value,
      PercentileInc(sorted, 0.99).value, PercentileInc(sorted, 0.999).value, sorted[|sorted| - 1],
      q1, q3, q3 - q1, threshold, CountAbove(sorted, threshold))
  }

  function Calculated(values: seq<real>): Statistics {
    SortSorts(values);
    if values == [] then NO_STATISTICS else Describe(Sort(values))
  }

  method SumOf(sorted: seq<real>) returns (sum: real)
    ensures sum == Sum(sorted)
  {
    sum := 0.0;
    for i := 0 to |sorted|
      invariant sum == Sum(sorted[..i])
    {
      assert sorted[..i + 1][..i] == sorted[..i];
      sum := sum + sorted[i];
    }
    assert sorted[..|sorted|] == sorted;
  }

  method CountOutliers(sorted: seq<real>, threshold: real) returns (outliers: nat)
    ensures outliers == CountAbove(sorted, threshold)
  {
    outliers := 0;
    for i := 0 to |sorted|
      invariant outliers == CountAbove(sorted[..i], threshold)
    {
      assert sorted[..i + 1][..i] == sorted[..i];
      if sorted[i] > threshold {
        outliers := outliers + 1;
      }
    }
    assert sorted[..|sorted|] == sorted;
  }

  method CalculateStatistics(values: seq<real>) returns (result: Statistics)
    ensures result == Calculated(values)
  {
    if values == [] {
      return NO_STATISTICS;
    }
    SortSorts(values);
    result := DescribeSorted(Sort(values));
  }

  method DescribeSorted(sorted: seq<real>) returns (result: Statistics)
    requires sorted != []
    ensures result == Describe(sorted)
  {
    var sum := SumOf(sorted);
    var q1, q3 := PercentileInc(sorted, 0.25).value, PercentileInc(sorted, 0.75).value;
    var iqr := q3 - q1;
    var threshold := q3 + 1.5 * iqr;
    var outliers := CountOutliers(sorted, threshold);
    result := Statistics(
      |sorted|, sorted[0], sum / |sorted| as real,
      PercentileInc(sorted, 0.50).value, PercentileInc(sorted, 0.90).value, PercentileInc(sorted, 0.95).value,
      PercentileInc(sorted, 0.99).value, PercentileInc(sorted, 0.999).value, sorted[|sorted| - 1],
      q1, q3, iqr, threshold, outliers);
  }

  predicate IsUpperOutlier(value: real, s: Statistics) {
    s.count > 0 && value > s.outlierThreshold
  }

  /** Statistics depend only on which values occur how often. */
  lemma StatisticsIgnoreOrder(a: seq<real>, b: seq<real>)
    requires multiset(a) == multiset(b)
    ensures Calculated(a) == Calculated(b)
  {
    SortIgnoresOrder(a, b);
  }

  lemma PercentilesOrdered(values: seq<real>)
    requires values != []
    ensures
      var s := Calculated(values);
      s.minimum <= s.q1 <= s.p50 <= s.q3 <= s.p90 <= s.p95 <= s.p99 <= s.p999 <= s.maximum
  {
    SortSorts(values);
    var sorted := Sort(values);
    PercentileMonotone(sorted, 0.25, 0.50);
    PercentileMonotone(sorted, 0.50, 0.75);
    PercentileMonotone(sorted, 0.75, 0.90);
    PercentileMonotone(sorted, 0.90, 0.95);
    PercentileMonotone(sorted, 0.95, 0.99);
    PercentileMonotone(sorted, 0.99, 0.999);
  }

  lemma {:induction false} CountAboveTail(s: seq<real>, n: nat, threshold: real, bound: nat)
    requires n <= |s| && forall i :: 0 <= i < n && i < bound ==> s[i] <= threshold
    ensures CountAbove(s[..n], threshold) <= if n <= bound then 0 else n - bound
  {
    if n > 0 {
      assert s[..n][..n - 1] == s[..n - 1];
      CountAboveTail(s, n - 1, threshold, bound);
    }
  }

  lemma ThreeQuarters(n: nat)
    requires n >= 1
    ensures IndexAt(n, 0.75).Floor == 3 * (n - 1) / 4
  {
    var k := 3 * (n - 1) / 4;
    var r := 3 * (n - 1) % 4;
    assert IndexAt(n, 0.75) == (4 * k + r) as real / 4.0;
    assert IndexAt(n, 0.75) == k as real + r as real / 4.0;
  }

  lemma ThresholdAboveQuartile(s: seq<real>, k: nat)
    requires Sorted(s) && s != [] && k == 3 * (|s| - 1) / 4
    ensures k < |s| && Describe(s).outlierThreshold >= s[k]
  {
    var index := IndexAt(|s|, 0.75);
    PercentileMonotone(s, 0.25, 0.75);
    InterpolateMonotone(s, index, index);
    ThreeQuarters(|s|);
  }

  lemma AboveRank(s: seq<real>, k: nat, threshold: real)
    requires Sorted(s) && k < |s| && threshold >= s[k]
    ensures CountAbove(s, threshold) <= |s| - 1 - k
  {
    assert s[..|s|] == s;
    forall i | 0 <= i < |s| && i < k + 1 ensures s[i] <= threshold {
      SortedAt(s, i, k);
    }
    CountAboveTail(s, |s|, threshold, k + 1);
  }

  /** At most ceil((n - 1) / 4) of n values can be upper outliers. */
  lemma FewOutliers(values: seq<real>)
    requires values != []
    ensures Calculated(values).outlierCount <= (|values| - 1 + 3) / 4
  {
    SortSorts(values);
    var s := Sort(values);
    var k := 3 * (|s| - 1) / 4;
    ThresholdAboveQuartile(s, k);
    AboveRank(s, k, Describe(s).outlierThreshold);
  }

  lemma {:induction false} CountAboveHead(s: seq<real>, threshold: real)
    requires s != []
    ensures CountAbove(s, threshold) == CountAbove(s[1..], threshold) + if s[0] > threshold then 1 else 0
  {
    if |s| == 1 {
      assert s[..0] == [] && s[1..] == [];
    } else {
      CountAboveHead(s[..|s| - 1], threshold);
      assert s[..|s| - 1][1..] == s[1..][..|s| - 2];
    }
  }

  lemma {:induction false} CountAboveInsert(x: real, s: seq<real>, threshold: real)
    ensures CountAbove(Insert(x, s), threshold) == CountAbove(s, threshold) + if x > threshold then 1 else 0
  {
    CountAboveHead(Insert(x, s), threshold);
    if s == [] || x <= s[0] {
      assert Insert(x, s)[1..] == s;
    } else {
      assert Insert(x, s)[1..] == Insert(x, s[1..]);
      CountAboveInsert(x, s[1..], threshold);
      CountAboveHead(s, threshold);
    }
  }

  lemma {:induction false} CountAboveSort(s: seq<real>, threshold: real)
    ensures CountAbove(Sort(s), threshold) == CountAbove(s, threshold)
  {
    if s != [] {
      CountAboveSort(s[1..], threshold);
      CountAboveInsert(s[0], Sort(s[1..]), threshold);
      CountAboveHead(s, threshold);
    }
  }

  function Outliers(values: seq<real>, s: Statistics): nat {
    if values == [] then 0
    else Outliers(values[..|values| - 1], s) + if IsUpperOutlier(values[|values| - 1], s) then 1 else 0
  }

  lemma {:induction false} OutliersAbove(values: seq<real>, s: Statistics)
    requires s.count > 0
    ensures Outliers(values, s) == CountAbove(values, s.outlierThreshold)
  {
    if values != [] {
      OutliersAbove(values[..|values| - 1], s);
    }
  }

  /** The outlier count is the number of values that the per-value rule calls outliers. */
  lemma OutliersCounted(values: seq<real>)
    ensures Calculated(values).outlierCount == Outliers(values, Calculated(values))
  {
    hide PercentileInc, Sort, Sorted;
    if values != [] {
      SortSorts(values);
      CountAboveSort(values, Calculated(values).outlierThreshold);
      OutliersAbove(values, Calculated(values));
    }
  }

  lemma {:induction false} SumBounds(s: seq<real>, low: real, high: real)
    requires forall i :: 0 <= i < |s| ==> low <= s[i] <= high
    ensures |s| as real * low <= Sum(s) <= |s| as real * high
  {
    if s != [] {
      SumBounds(s[..|s| - 1], low, high);
      OneMore((|s| - 1) as real, low);
      OneMore((|s| - 1) as real, high);
    }
  }

  lemma OneMore(n: real, x: real)
    ensures (n + 1.0) * x == n * x + x
  {
  }

  lemma QuotientBounds(n: real, sum: real, low: real, high: real)
    requires n > 0.0 && n * low <= sum <= n * high
    ensures low <= sum / n <= high
  {
    var q := sum / n;
    assert q * n == sum;
    assert (q - low) * n == q * n - low * n;
    assert (high - q) * n == high * n - q * n;
    NonNegativeFactor(q - low, n);
    NonNegativeFactor(high - q, n);
  }

  lemma NonNegativeFactor(a: real, n: real)
    requires n > 0.0 && a * n >= 0.0
    ensures a >= 0.0
  {
    if a < 0.0 {
      Grows(-a, n);
    }
  }

  lemma Grows(a: real, b: real)
    requires a > 0.0 && b > 0.0
    ensures a * b > 0.0
  {
  }

  lemma MeanBetween(values: seq<real>)
    requires values != []
    ensures Calculated(values).minimum <= Calculated(values).mean <= Calculated(values).maximum
  {
    hide PercentileInc, Sort, Sum, CountAbove, Sorted;
    SortSorts(values);
    var s := Sort(values);
    forall i | 0 <= i < |s| ensures s[0] <= s[i] <= s[|s| - 1] {
      SortedAt(s, 0, i);
      SortedAt(s, i, |s| - 1);
    }
    SumBounds(s, s[0], s[|s| - 1]);
    QuotientBounds(|s| as real, Sum(s), s[0], s[|s| - 1]);
  }

  // Comparing repeated runs.

  datatype RunComparison = RunComparison(runs: nat, minimum: real, median: real, maximum: real)

  function Median(sorted: seq<real>): real
    requires sorted != []
  {
    var middle := |sorted| / 2;
    if |sorted| % 2 != 0 then sorted[middle] else (sorted[middle - 1] + sorted[middle]) / 2.0
  }

  function CompareRuns(values: seq<real>): RunComparison {
    SortSorts(values);
    var sorted := Sort(values);
    if values == [] then RunComparison(0, 0.0, 0.0, 0.0)
    else RunComparison(|sorted|, sorted[0], Median(sorted), sorted[|sorted| - 1])
  }

  lemma HalfBlend(low: real, high: real)
    ensures Blend(low, high, 0.5) == (low + high) / 2.0
  {
  }

  /** The run median is the interpolated 0.5 percentile, for odd and even counts alike. */
  lemma MedianIsHalfPercentile(s: seq<real>)
    requires s != []
    ensures PercentileInc(s, 0.5) == Some(Median(s))
  {
    var n := |s|;
    var index := IndexAt(n, 0.5);
    PercentileClamped(s, 0.5);
    if n % 2 != 0 {
      assert n - 1 == 2 * (n / 2);
      assert index == (n / 2) as real;
      assert index.Floor == n / 2 == Ceil(index);
    } else {
      assert n - 1 == 2 * (n / 2 - 1) + 1;
      assert index == (n / 2 - 1) as real + 0.5;
      assert index.Floor == n / 2 - 1 && Ceil(index) == n / 2;
      assert index - (n / 2 - 1) as real == 0.5;
      HalfBlend(s[n / 2 - 1], s[n / 2]);
    }
  }

  /** Comparing runs and describing their values agree on extremes and median. */
  lemma ComparisonAgrees(values: seq<real>)
    requires values != []
    ensures
      var c, s := CompareRuns(values), Calculated(values);
      c.runs == s.count && c.minimum == s.minimum && c.median == s.p50 && c.maximum == s.maximum
  {
    SortSorts(values);
    MedianIsHalfPercentile(Sort(values));
  }
}
