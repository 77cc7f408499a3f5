/** Nearest-rank percentiles and the latency summary of scripts/bench_rl_scale.py.
    Floats are reals; `Round6` is round-half-even at six decimals. */
module Percentiles {
  import opened Wrappers
  import opened Sorting

  function Ceil(x: real): (c: int)
    ensures c as real - 1.0 < x <= c as real
  {
    if x.Floor as real == x then x.Floor else x.Floor + 1
  }

  ghost function CountLe(s: seq<real>, v: real): nat
  {
    if s == [] then 0 else (if s[0] <= v then 1 else 0) + CountLe(s[1..], v)
  }

  lemma {:induction false} CountLeAppend(s: seq<real>, x: real, v: real)
    ensures CountLe(s + [x], v) == CountLe(s, v) + if x <= v then 1 else 0
  {
    if s == [] {
      assert s + [x] == [x] && [x][1..] == [];
    } else {
      assert (s + [x])[1..] == s[1..] + [x];
      CountLeAppend(s[1..], x, v);
    }
  }

  lemma {:induction false} CountLeMonotone(s: seq<real>, v: real, w: real)
    requires v <= w
    ensures CountLe(s, v) <= CountLe(s, w)
  {
    if s != [] { CountLeMonotone(s[1..], v, w); }
  }

  lemma {:induction false} CountLeInsert(x: real, s: seq<real>, v: real)
    ensures CountLe(Insert(x, s, RealLe), v) == CountLe(s, v) + if x <= v then 1 else 0
  {
    if s != [] && !RealLe(x, s[0]) {
      CountLeInsert(x, s[1..], v);
    } else {
      assert ([x] + s)[1..] == s;
    }
  }

  lemma {:induction false} CountLeSort(s: seq<real>, v: real)
    ensures CountLe(Sort(s, RealLe), v) == CountLe(s, v)
  {
    if s != [] {
      CountLeSort(s[1..], v);
      CountLeInsert(s[0], Sort(s[1..], RealLe), v);
    }
  }

  /** A sorted sequence has more than `k` values up to `s[k]`, and at most `k` below it. */
  lemma {:induction false} RankCounts(s: seq<real>, k: nat, y: real)
    requires Ascending(s, RealLe) && k < |s|
    ensures CountLe(s, s[k]) >= k + 1
    ensures y < s[k] ==> CountLe(s, y) <= k
  {
    if k > 0 {
      RankCounts(s[1..], k - 1, y);
    } else if y < s[0] {
      NoneBelow(s, y);
    }
  }

  lemma {:induction false} NoneBelow(s: seq<real>, y: real)
    requires forall i :: 0 <= i < |s| ==> y < s[i]
    ensures CountLe(s, y) == 0
  {
    if s != [] { NoneBelow(s[1..], y); }
  }

  /** Index of the nearest rank. */
  function Rank(n: nat, q: real): (k: nat)
    requires n > 0 && 0.0 < q <= 1.0
    ensures k < n
    ensures k as real < n as real * q <= (k + 1) as real
  {
    Scaled(n as real, q);
    CeilIndex(n as real * q, n);
    Ceil(n as real * q) - 1
  }

  lemma {:induction false} CeilIndex(x: real, n: nat)
    requires 0.0 < x <= n as real
    ensures 1 <= Ceil(x) <= n && (Ceil(x) - 1) as real < x <= Ceil(x) as real
  {
  }

  lemma {:induction false} Scaled(n: real, q: real)
    requires n > 0.0 && 0.0 < q <= 1.0
    ensures 0.0 < n * q <= n
  {
    assert n * q == n - n * (1.0 - q);
    assert n * (1.0 - q) >= 0.0;
  }

  /** `percentile`; None is its ValueError. */
  function Percentile(ordered: seq<real>, q: real): (r: Option<real>)
    ensures r.None? <==> ordered == [] || !(0.0 < q <= 1.0)
    ensures r.Some? ==> r.value in ordered
  {
    if ordered == [] || !(0.0 < q <= 1.0) then None else Some(ordered[Rank(|ordered|, q)])
  }

  function ShareOf(n: nat, q: real): real { n as real * q }

  /** The least value with at least `need` of the values at or below it. */
  ghost predicate AtRank(values: seq<real>, need: real, v: real)
  {
    CountLe(values, v) as real >= need && forall y: real :: y < v ==> CountLe(values, y) as real < need
  }

  /** Nearest rank: the least value with at least a share `q` of the samples at or below it. */
  lemma {:induction false} PercentileIsNearestRank(ordered: seq<real>, q: real)
    requires Ascending(ordered, RealLe) && ordered != [] && 0.0 < q <= 1.0
    ensures AtRank(ordered, ShareOf(|ordered|, q), Percentile(ordered, q).value)
  {
    var k := Rank(|ordered|, q);
    RanksAt(ordered, k, |ordered| as real * q);
  }

  lemma {:induction false} RanksAt(ordered: seq<real>, k: nat, need: real)
    requires Ascending(ordered, RealLe) && k < |ordered| && k as real < need <= (k + 1) as real
    ensures AtRank(ordered, need, ordered[k])
  {
    hide CountLe;
    RankCounts(ordered, k, ordered[k]);
    forall y: real | y < ordered[k] ensures CountLe(ordered, y) as real < need {
      RankCounts(ordered, k, y);
      Below(CountLe(ordered, y), k, need);
    }
  }

  /** `v` is the nearest rank of a share `q` of the values, in whatever order they come. */
  ghost predicate NearestRank(values: seq<real>, q: real, v: real)
  {
    v in values && AtRank(values, ShareOf(|values|, q), v)
  }

  lemma {:induction false} SortedNearestRank(values: seq<real>, q: real)
    requires values != [] && 0.0 < q <= 1.0
    ensures NearestRank(values, q, Percentile(Sort(values, RealLe), q).value)
  {
    hide CountLe, Percentile, AtRank, Sort, Ascending, ShareOf;
    var ordered := Sort(values, RealLe);
    SortedReals(values);
    PercentileIsNearestRank(ordered, q);
    var v := Percentile(ordered, q).value;
    assert v in values by { MembersOf(ordered, values); }
    RankSorted(values, ShareOf(|ordered|, q), v);
  }

  lemma {:induction false} RankSorted(values: seq<real>, need: real, v: real)
    requires AtRank(Sort(values, RealLe), need, v)
    ensures AtRank(values, need, v)
  {
    hide CountLe;
    CountLeSort(values, v);
    forall y: real | y < v ensures CountLe(values, y) as real < need { CountLeSort(values, y); }
  }

  lemma {:induction false} NearestRankUnique(values: seq<real>, q: real, v: real, w: real)
    requires NearestRank(values, q, v) && NearestRank(values, q, w)
    ensures v == w
  {
  }

  lemma {:induction false} Below(count: nat, k: nat, x: real)
    requires count <= k && k as real < x
    ensures count as real < x
  {
  }

  lemma {:induction false} NonNegative(x: real, y: real)
    requires x >= 0.0 && y >= 0.0
    ensures x * y >= 0.0
  {
  }

  lemma {:induction false} PercentileMonotone(ordered: seq<real>, p: real, q: real)
    requires Ascending(ordered, RealLe) && ordered != [] && 0.0 < p <= q <= 1.0
    ensures ordered[0] <= Percentile(ordered, p).value <= Percentile(ordered, q).value <= ordered[|ordered| - 1]
  {
    var n := |ordered| as real;
    NonNegative(n, q - p);
    assert n * q == n * p + n * (q - p);
    assert Rank(|ordered|, p) <= Rank(|ordered|, q);
  }

  // ---- rounding ----

  function RoundHalfEven(y: real): (r: int)
    ensures -0.5 <= r as real - y <= 0.5
    ensures r as real - y == 0.5 || r as real - y == -0.5 ==> r % 2 == 0
  {
    var f := y.Floor;
    var part := y - f as real;
    if part < 0.5 || (part == 0.5 && f % 2 == 0) then f else f + 1
  }

  lemma {:induction false} RoundMonotone(x: real, y: real)
    requires x <= y
    ensures RoundHalfEven(x) <= RoundHalfEven(y)
  {
  }

  function Round6(x: real): (r: real)
    ensures -0.0000005 <= r - x <= 0.0000005
  {
    RoundHalfEven(x * 1000000.0) as real / 1000000.0
  }

  lemma {:induction false} Round6Monotone(x: real, y: real)
    requires x <= y
    ensures Round6(x) <= Round6(y)
  {
    RoundMonotone(x * 1000000.0, y * 1000000.0);
  }

  // ---- latency_summary ----

  datatype Summary = Summary(n: nat, min: Option<real>, mean: Option<real>, p50: Option<real>, p95: Option<real>,
                             p99: Option<real>, max: Option<real>)

  function Total(s: seq<real>): real
  {
    if s == [] then 0.0 else s[0] + Total(s[1..])
  }

  lemma {:induction false} TotalBounds(s: seq<real>, lo: real, hi: real)
    requires forall i :: 0 <= i < |s| ==> lo <= s[i] <= hi
    ensures lo * |s| as real <= Total(s) <= hi * |s| as real
  {
    if s != [] {
      TotalBounds(s[1..], lo, hi);
      var n := |s[1..]| as real;
      assert |s| as real == n + 1.0;
      assert lo * (n + 1.0) == lo * n + lo && hi * (n + 1.0) == hi * n + hi;
    }
  }

  function LatencySummary(values: seq<real>): (r: Summary)
  {
    var ordered := Sort(values, RealLe);
    if ordered == [] then Summary(0, None, None, None, None, None, None)
    else Summary(|ordered|, Some(Round6(ordered[0])), Some(Round6(Total(ordered) / |ordered| as real)),
                 Some(Round6(Percentile(ordered, 0.50).value)), Some(Round6(Percentile(ordered, 0.95).value)),
                 Some(Round6(Percentile(ordered, 0.99).value)), Some(Round6(ordered[|ordered| - 1])))
  }

  ghost predicate SummaryOrdered(r: Summary)
  {
    if r.n == 0 then r.min.None? && r.mean.None? && r.p50.None? && r.p95.None? && r.p99.None? && r.max.None?
    else
      && r.min.Some? && r.mean.Some? && r.p50.Some? && r.p95.Some? && r.p99.Some? && r.max.Some?
      && r.min.value <= r.p50.value <= r.p95.value <= r.p99.value <= r.max.value
      && r.min.value <= r.mean.value <= r.max.value
  }

  lemma {:induction false} SortedReals(s: seq<real>)
    ensures Ascending(Sort(s, RealLe), RealLe)
  {
    SortAscending(s, RealLe);
  }

  lemma {:induction false} MeanBetween(s: seq<real>)
    requires Ascending(s, RealLe) && s != []
    ensures s[0] <= Total(s) / |s| as real <= s[|s| - 1]
  {
    var last := s[|s| - 1];
    forall i | 0 <= i < |s| ensures s[0] <= s[i] <= last {
      assert i > 0 ==> RealLe(s[0], s[i]);
      assert i < |s| - 1 ==> RealLe(s[i], last);
    }
    TotalBounds(s, s[0], last);
    MeanBounds(Total(s), |s| as real, s[0], last);
  }

  lemma {:induction false} MeanBounds(total: real, n: real, lo: real, hi: real)
    requires n > 0.0 && lo * n <= total <= hi * n
    ensures lo <= total / n <= hi
  {
    var mean := total / n;
    assert (mean - lo) * n >= 0.0 && (hi - mean) * n >= 0.0;
  }

  /** Every summary is null when empty and otherwise ordered, the mean between min and max. */
  lemma {:induction false} SummaryIsOrdered(values: seq<real>)
    ensures LatencySummary(values).n == |values|
    ensures SummaryOrdered(LatencySummary(values))
  {
    hide Percentile, Round6, Total, Sort, Ascending;
    var s := Sort(values, RealLe);
    if s != [] {
      SortedReals(values);
      MeanBetween(s);
      PercentileMonotone(s, 0.50, 0.95);
      PercentileMonotone(s, 0.95, 0.99);
      RoundedOrder(s[0], Percentile(s, 0.50).value, Percentile(s, 0.95).value, Percentile(s, 0.99).value,
                   s[|s| - 1], Total(s) / |s| as real);
    }
  }

  lemma {:induction false} RoundedOrder(lo: real, a: real, b: real, c: real, hi: real, mean: real)
    requires lo <= a <= b <= c <= hi && lo <= mean <= hi
    ensures Round6(lo) <= Round6(a) <= Round6(b) <= Round6(c) <= Round6(hi)
    ensures Round6(lo) <= Round6(mean) <= Round6(hi)
  {
    Round6Monotone(lo, a);
    Round6Monotone(a, b);
    Round6Monotone(b, c);
    Round6Monotone(c, hi);
    Round6Monotone(lo, mean);
    Round6Monotone(mean, hi);
  }

  lemma {:induction false} TotalInsert(x: real, s: seq<real>)
    ensures Total(Insert(x, s, RealLe)) == x + Total(s)
  {
    if s != [] && !RealLe(x, s[0]) {
      TotalInsert(x, s[1..]);
    } else {
      assert ([x] + s)[1..] == s;
    }
  }

  lemma {:induction false} TotalSort(s: seq<real>)
    ensures Total(Sort(s, RealLe)) == Total(s)
  {
    if s != [] {
      TotalSort(s[1..]);
      TotalInsert(s[0], Sort(s[1..], RealLe));
    }
  }

  /** A least and a greatest value. */
  ghost predicate Extremes(values: seq<real>, lo: real, hi: real)
  {
    lo in values && hi in values && forall x :: x in values ==> lo <= x <= hi
  }

  lemma {:induction false} SortedExtremes(values: seq<real>)
    requires values != []
    ensures var s := Sort(values, RealLe); Extremes(values, s[0], s[|s| - 1])
  {
    var s := Sort(values, RealLe);
    SortedReals(values);
    MembersOf(s, values);
    forall x | x in values ensures s[0] <= x <= s[|s| - 1] {
      var j :| 0 <= j < |s| && s[j] == x;
      assert j > 0 ==> RealLe(s[0], s[j]);
      assert j < |s| - 1 ==> RealLe(s[j], s[|s| - 1]);
    }
  }

  lemma {:induction false} MeanTimesCount(total: real, n: nat)
    requires n > 0
    ensures total / n as real * n as real == total
  {
  }

  /** What a summary says of its samples: rounded extremes, rounded mean and rounded nearest ranks. */
  lemma {:induction false} SummaryMeaning(values: seq<real>)
    returns (lo: real, hi: real, mean: real, p50: real, p95: real, p99: real)
    requires values != []
    ensures Extremes(values, lo, hi) && mean * |values| as real == Total(values)
    ensures NearestRank(values, 0.50, p50) && NearestRank(values, 0.95, p95) && NearestRank(values, 0.99, p99)
    ensures LatencySummary(values) == Summary(|values|, Some(Round6(lo)), Some(Round6(mean)), Some(Round6(p50)),
                                              Some(Round6(p95)), Some(Round6(p99)), Some(Round6(hi)))
  {
    hide NearestRank, Extremes, Percentile, Round6, Sort, Total;
    var s := Sort(values, RealLe);
    lo, hi, mean := s[0], s[|s| - 1], Total(s) / |s| as real;
    p50, p95, p99 := Percentile(s, 0.50).value, Percentile(s, 0.95).value, Percentile(s, 0.99).value;
    SortedExtremes(values);
    TotalSort(values);
    MeanTimesCount(Total(s), |s|);
    SortedNearestRank(values, 0.50);
    SortedNearestRank(values, 0.95);
    SortedNearestRank(values, 0.99);
  }

  /** A summary does not depend on the order of its samples. */
  lemma {:induction false} SummaryOfPermutation(a: seq<real>, b: seq<real>)
    requires multiset(a) == multiset(b)
    ensures LatencySummary(a) == LatencySummary(b)
  {
    SortOfPermutation(a, b, RealLe);
  }
}
