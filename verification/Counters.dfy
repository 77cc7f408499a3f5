/** Counter differencing and window summaries of scripts/build_load_telemetry.py. Clocks
    and counters are reals; a counter's `factor` is the unit conversion of its rate. */
module Counters {
  import opened Wrappers
  import opened Sorting
  import opened Percentiles

  datatype Sample = Sample(mono: real, unix: real, boot: string, counters: map<string, real>)

  datatype Interval = Interval(seconds: real, start: real, end: real, values: map<string, real>, resets: seq<string>)

  type Factors = map<string, real>

  /** difference. */
  function Difference(before: Sample, after: Sample, k: string): (r: Option<real>)
    ensures r.Some? ==> r.value >= 0.0
  {
    if k in before.counters && k in after.counters && after.counters[k] >= before.counters[k]
    then Some(after.counters[k] - before.counters[k]) else None
  }

  predicate IsReset(before: Sample, after: Sample, k: string)
  {
    k in before.counters && k in after.counters && after.counters[k] < before.counters[k]
  }

  predicate Comparable(before: Sample, after: Sample)
  {
    after.mono - before.mono > 0.0 && before.boot == after.boot
  }

  function Resets(before: Sample, after: Sample, fields: seq<string>): (r: seq<string>)
  {
    if fields == [] then []
    else Resets(before, after, fields[..|fields| - 1])
         + if IsReset(before, after, fields[|fields| - 1]) then [fields[|fields| - 1]] else []
  }

  ghost predicate ScaledBy(factors: Factors, fields: seq<string>)
  {
    forall i :: 0 <= i < |fields| ==> fields[i] in factors
  }

  /** An interval's rates: each present, non-decreasing counter's change per second. */
  ghost predicate RatesOf(before: Sample, after: Sample, fields: seq<string>, factors: Factors,
                          values: map<string, real>)
    requires ScaledBy(factors, fields)
  {
    && (forall k :: k in values <==> k in fields && Difference(before, after, k).Some?)
    && forall k :: k in values ==>
         k in factors && values[k] == Rate(Difference(before, after, k).value, factors[k], after.mono - before.mono)
  }

  function Scaled(x: real, factor: real): real { x * factor }

  function Rate(change: real, factor: real, seconds: real): real
  {
    if seconds > 0.0 then Scaled(change, factor) / seconds else 0.0
  }

  lemma {:induction false} RateIntegrates(change: real, factor: real, seconds: real)
    requires seconds > 0.0
    ensures Scaled(seconds, Rate(change, factor, seconds)) == Scaled(change, factor)
  {
  }

  lemma {:induction false} ScaledAdds(x: real, y: real, factor: real)
    ensures Scaled(x + y, factor) == Scaled(x, factor) + Scaled(y, factor)
    ensures Scaled(0.0, factor) == 0.0
  {
  }

  /** derive. */
  method Derive(before: Sample, after: Sample, fields: seq<string>, factors: Factors) returns (r: Option<Interval>)
    requires ScaledBy(factors, fields)
    ensures r.Some? <==> Comparable(before, after)
    ensures r.Some? ==>
              && r.value.seconds == after.mono - before.mono > 0.0
              && r.value.start == before.unix && r.value.end == after.unix
              && RatesOf(before, after, fields, factors, r.value.values)
              && r.value.resets == Resets(before, after, fields)
  {
    hide Rate;
    var seconds := after.mono - before.mono;
    if seconds <= 0.0 || before.boot != after.boot { return None; }
    var values: map<string, real>, resets: seq<string> := map[], [];
    var i := 0;
    while i < |fields|
      invariant 0 <= i <= |fields|
      invariant RatesOf(before, after, fields[..i], factors, values)
      invariant resets == Resets(before, after, fields[..i])
    {
      var k := fields[i];
      assert fields[..i + 1][..i] == fields[..i] && fields[..i + 1] == fields[..i] + [k];
      var value := Difference(before, after, k);
      if value.Some? {
        values := values[k := Rate(value.value, factors[k], seconds)];
      } else if k in before.counters && k in after.counters {
        resets := resets + [k];
      }
      i := i + 1;
    }
    assert fields[..i] == fields;
    r := Some(Interval(seconds, before.unix, after.unix, values, resets));
  }

  // ---- the window ----

  datatype Window = Window(begin: Option<real>, end: Option<real>)

  predicate Inside(w: Window, start: real, end: real)
  {
    (w.begin.Some? ==> w.begin.value <= start) && (w.end.Some? ==> end <= w.end.value)
  }

  /** An interval is inside exactly when each of its instants is between the window's ends. */
  lemma {:induction false} InsideIffCovered(w: Window, start: real, end: real)
    requires start <= end
    ensures Inside(w, start, end) <==> forall t: real :: start <= t <= end ==> !Before(w, t) && !After(w, t)
  {
    if forall t: real :: start <= t <= end ==> !Before(w, t) && !After(w, t) {
      assert !Before(w, start) && !After(w, end);
    }
  }

  predicate Before(w: Window, t: real) { w.begin.Some? && t < w.begin.value }

  predicate After(w: Window, t: real) { w.end.Some? && t > w.end.value }

  /** The interval ending at sample i is counted. */
  predicate Included(samples: seq<Sample>, w: Window, i: nat)
    requires 0 < i < |samples|
  {
    Comparable(samples[i - 1], samples[i]) && Inside(w, samples[i - 1].unix, samples[i].unix)
  }

  /** What the interval ending at sample i adds to counter k: its non-negative change, or nothing. */
  function Added(samples: seq<Sample>, w: Window, k: string, i: nat): (r: real)
    requires 0 < i < |samples|
    ensures r >= 0.0
  {
    if Included(samples, w, i) && Difference(samples[i - 1], samples[i], k).Some?
    then Difference(samples[i - 1], samples[i], k).value else 0.0
  }

  ghost function AddedUpTo(samples: seq<Sample>, w: Window, k: string, n: nat): real
    requires n <= |samples|
  {
    if n <= 1 then 0.0 else AddedUpTo(samples, w, k, n - 1) + Added(samples, w, k, n - 1)
  }

  ghost function ResetsUpTo(samples: seq<Sample>, w: Window, fields: seq<string>, n: nat): nat
    requires n <= |samples|
  {
    if n <= 1 then 0
    else ResetsUpTo(samples, w, fields, n - 1)
         + if Included(samples, w, n - 1) then |Resets(samples[n - 2], samples[n - 1], fields)| else 0
  }

  // ---- weighted observations ----

  datatype Point = Point(seconds: real, value: real)

  function Seconds(points: seq<Point>): real
  {
    if points == [] then 0.0 else Seconds(points[..|points| - 1]) + points[|points| - 1].seconds
  }

  function Integral(points: seq<Point>): real
  {
    if points == [] then 0.0
    else Integral(points[..|points| - 1]) + Scaled(points[|points| - 1].seconds, points[|points| - 1].value)
  }

  ghost predicate Weighted(points: seq<Point>)
  {
    points != [] && forall i :: 0 <= i < |points| ==> points[i].seconds > 0.0
  }

  lemma {:induction false} IntegralBounds(points: seq<Point>, lo: real, hi: real)
    requires forall i :: 0 <= i < |points| ==> points[i].seconds > 0.0 && lo <= points[i].value <= hi
    ensures Scaled(Seconds(points), lo) <= Integral(points) <= Scaled(Seconds(points), hi)
    ensures points != [] ==> Seconds(points) > 0.0
    ensures Seconds(points) >= 0.0
  {
    hide Scaled;
    if points == [] {
      ScaledAdds(0.0, 0.0, lo);
      ScaledAdds(0.0, 0.0, hi);
    } else {
      var p, front := points[|points| - 1], points[..|points| - 1];
      IntegralBounds(front, lo, hi);
      Share(p.seconds, p.value, lo, hi);
      ScaledAdds(Seconds(front), p.seconds, lo);
      ScaledAdds(Seconds(front), p.seconds, hi);
    }
  }

  lemma {:induction false} Share(s: real, v: real, lo: real, hi: real)
    requires s > 0.0 && lo <= v <= hi
    ensures Scaled(s, lo) <= Scaled(s, v) <= Scaled(s, hi)
  {
    assert s * (v - lo) >= 0.0 && s * (hi - v) >= 0.0;
  }

  function ValuesOf(points: seq<Point>): (r: seq<real>)
    ensures |r| == |points| && forall i :: 0 <= i < |r| ==> r[i] == points[i].value
  {
    seq(|points|, i requires 0 <= i < |points| => points[i].value)
  }

  datatype Stat = Stat(samples: nat, covered: real, mean: real, min: real, max: real, p95: real, integral: real)

  /** The statistics of one key. */
  function StatOf(points: seq<Point>): (r: Stat)
    requires Weighted(points)
  {
    IntegralBounds(points, Lowest(points), Highest(points));
    var values := Sort(ValuesOf(points), RealLe);
    Stat(|points|, Seconds(points), Integral(points) / Seconds(points), values[0], values[|values| - 1],
         Percentile(values, 0.95).value, Integral(points))
  }

  ghost function Lowest(points: seq<Point>): (r: real)
    ensures forall i :: 0 <= i < |points| ==> r <= points[i].value
  {
    if points == [] then 0.0
    else
      var rest, last := Lowest(points[..|points| - 1]), points[|points| - 1].value;
      assert forall i :: 0 <= i < |points| - 1 ==> points[i] == points[..|points| - 1][i];
      if last < rest then last else rest
  }

  ghost function Highest(points: seq<Point>): (r: real)
    ensures forall i :: 0 <= i < |points| ==> points[i].value <= r
  {
    if points == [] then 0.0
    else
      var rest, last := Highest(points[..|points| - 1]), points[|points| - 1].value;
      assert forall i :: 0 <= i < |points| - 1 ==> points[i] == points[..|points| - 1][i];
      if last > rest then last else rest
  }

  lemma {:induction false} SortedEnds(s: seq<real>, i: nat)
    requires i < |s|
    ensures Sort(s, RealLe)[0] <= s[i] <= Sort(s, RealLe)[|s| - 1]
  {
    var r := Sort(s, RealLe);
    SortedReals(s);
    MembersOf(r, s);
    assert s[i] in s;
    var j :| 0 <= j < |r| && r[j] == s[i];
    assert j > 0 ==> RealLe(r[0], r[j]);
    assert j < |r| - 1 ==> RealLe(r[j], r[|r| - 1]);
  }

  lemma {:induction false} BoundedMean(total: real, seconds: real, lo: real, hi: real)
    requires seconds > 0.0 && Scaled(seconds, lo) <= total <= Scaled(seconds, hi)
    ensures lo <= total / seconds <= hi
  {
    MeanBounds(total, seconds, lo, hi);
  }

  /** Min and max bound the observations, the mean and the nearest-rank p95 lie between them. */
  lemma {:induction false} StatBounds(points: seq<Point>)
    requires Weighted(points)
    ensures forall i :: 0 <= i < |points| ==> StatOf(points).min <= points[i].value <= StatOf(points).max
    ensures StatOf(points).min <= StatOf(points).mean <= StatOf(points).max
    ensures StatOf(points).min <= StatOf(points).p95 <= StatOf(points).max
    ensures StatOf(points).integral == Integral(points)
  {
    var s := ValuesOf(points);
    forall i | 0 <= i < |points| ensures StatOf(points).min <= points[i].value <= StatOf(points).max {
      SortedEnds(s, i);
    }
    IntegralBounds(points, StatOf(points).min, StatOf(points).max);
    BoundedMean(Integral(points), Seconds(points), StatOf(points).min, StatOf(points).max);
    SortedReals(s);
    PercentileMonotone(Sort(s, RealLe), 0.95, 0.95);
  }

  /** What the statistics say: the mean is the one whose product with the covered time is the integral, min and max are
      observed extremes, and p95 is a nearest rank. */
  lemma {:induction false} StatMeaning(points: seq<Point>)
    requires Weighted(points)
    ensures var r := StatOf(points);
            && r.samples == |points| && r.covered == Seconds(points) > 0.0
            && Scaled(r.covered, r.mean) == r.integral == Integral(points)
            && Extremes(ValuesOf(points), r.min, r.max) && NearestRank(ValuesOf(points), 0.95, r.p95)
  {
    hide Extremes, NearestRank, Percentile, Integral, Seconds, Sort;
    IntegralBounds(points, Lowest(points), Highest(points));
    SortedExtremes(ValuesOf(points));
    SortedNearestRank(ValuesOf(points), 0.95);
    MeanIntegrates(Integral(points), Seconds(points));
  }

  lemma {:induction false} MeanIntegrates(integral: real, seconds: real)
    requires seconds > 0.0
    ensures Scaled(seconds, integral / seconds) == integral
  {
  }

  // ---- summarize ----

  type Observations = map<string, seq<Point>>

  /** What the interval ending at sample i says of counter k: its length and the rate of change over it. */
  ghost function PointAt(samples: seq<Sample>, w: Window, k: string, factor: real, i: nat): (r: seq<Point>)
    requires 0 < i < |samples|
    ensures |r| <= 1 && forall j :: 0 <= j < |r| ==> r[j].seconds > 0.0
  {
    var before, after := samples[i - 1], samples[i];
    if Included(samples, w, i) && Difference(before, after, k).Some? then
      [Point(after.mono - before.mono, Rate(Difference(before, after, k).value, factor, after.mono - before.mono))]
    else []
  }

  ghost function PointsUpTo(samples: seq<Sample>, w: Window, k: string, factor: real, n: nat): (r: seq<Point>)
    requires n <= |samples|
    ensures forall i :: 0 <= i < |r| ==> r[i].seconds > 0.0
  {
    if n <= 1 then [] else PointsUpTo(samples, w, k, factor, n - 1) + PointAt(samples, w, k, factor, n - 1)
  }

  /** The integral of a counter's rate is its scaled change over the counted intervals. */
  lemma {:induction false} PointsIntegrate(samples: seq<Sample>, w: Window, k: string, factor: real, n: nat)
    requires n <= |samples|
    ensures Integral(PointsUpTo(samples, w, k, factor, n)) == Scaled(AddedUpTo(samples, w, k, n), factor)
  {
    hide Scaled, PointAt, PointsUpTo, Integral, Added, AddedUpTo;
    if n <= 1 {
      NoPoints(samples, w, k, factor, n);
    } else {
      PointsIntegrate(samples, w, k, factor, n - 1);
      NextPoint(samples, w, k, factor, n - 1);
      NextAdded(samples, w, k, n - 1);
      PointIntegrates(samples, w, k, factor, n - 1);
      ScaledAdds(AddedUpTo(samples, w, k, n - 1), Added(samples, w, k, n - 1), factor);
      IntegralConcat(PointsUpTo(samples, w, k, factor, n - 1), PointAt(samples, w, k, factor, n - 1));
    }
  }

  lemma {:induction false} NoPoints(samples: seq<Sample>, w: Window, k: string, factor: real, n: nat)
    requires n <= |samples| && n <= 1
    ensures Integral(PointsUpTo(samples, w, k, factor, n)) == Scaled(AddedUpTo(samples, w, k, n), factor)
  {
    ScaledAdds(0.0, 0.0, factor);
  }

  lemma {:induction false} NextAdded(samples: seq<Sample>, w: Window, k: string, n: nat)
    requires 0 < n < |samples|
    ensures AddedUpTo(samples, w, k, n + 1) == AddedUpTo(samples, w, k, n) + Added(samples, w, k, n)
  {
  }

  lemma {:induction false} PointIntegrates(samples: seq<Sample>, w: Window, k: string, factor: real, i: nat)
    requires 0 < i < |samples|
    ensures Integral(PointAt(samples, w, k, factor, i)) == Scaled(Added(samples, w, k, i), factor)
  {
    hide Scaled, Rate;
    ScaledAdds(0.0, 0.0, factor);
    var point := PointAt(samples, w, k, factor, i);
    if point != [] {
      assert point[..0] == [];
      RateIntegrates(Added(samples, w, k, i), factor, point[0].seconds);
    }
  }

  lemma {:induction false} IntegralConcat(a: seq<Point>, b: seq<Point>)
    requires |b| <= 1
    ensures Integral(a + b) == Integral(a) + Integral(b)
  {
    hide Scaled;
    if b == [] {
      assert a + b == a;
    } else {
      assert (a + b)[..|a|] == a && b[..0] == [];
    }
  }

  /** Each key's list is what the counted intervals say of it. */
  ghost predicate Observed(obs: Observations, samples: seq<Sample>, w: Window, factors: Factors,
                           fields: seq<string>, n: nat)
    requires n <= |samples| && ScaledBy(factors, fields)
  {
    && (forall k :: k in obs ==> k in fields)
    && forall k :: k in fields ==>
         && (k in obs <==> PointsUpTo(samples, w, k, factors[k], n) != [])
         && (k in obs ==> obs[k] == PointsUpTo(samples, w, k, factors[k], n))
  }

  function Appended(obs: Observations, k: string, p: Point): Observations
  {
    obs[k := (if k in obs then obs[k] else []) + [p]]
  }

  /** Files one interval's values under their keys. */
  method Record(obs0: Observations, interval: Interval, fields: seq<string>) returns (obs: Observations)
    requires forall i, j :: 0 <= i < j < |fields| ==> fields[i] != fields[j]
    requires forall k :: k in interval.values ==> k in fields
    ensures forall k :: k in obs <==> k in obs0 || k in interval.values
    ensures forall k :: k in interval.values ==> obs[k] == Appended(obs0, k, Point(interval.seconds, interval.values[k]))[k]
    ensures forall k :: k in obs0 && k !in interval.values ==> obs[k] == obs0[k]
  {
    obs := obs0;
    var i := 0;
    while i < |fields|
      invariant 0 <= i <= |fields|
      invariant forall k :: k in obs <==> k in obs0 || (k in interval.values && k in fields[..i])
      invariant forall k :: k in interval.values && k in fields[..i] ==>
                  obs[k] == Appended(obs0, k, Point(interval.seconds, interval.values[k]))[k]
      invariant forall k :: k in obs0 && !(k in interval.values && k in fields[..i]) ==> obs[k] == obs0[k]
    {
      var k := fields[i];
      assert fields[..i + 1] == fields[..i] + [k] && k !in fields[..i];
      assert forall l :: l in fields[..i + 1] <==> l in fields[..i] || l == k;
      if k in interval.values {
        obs := Appended(obs, k, Point(interval.seconds, interval.values[k]));
      }
      i := i + 1;
    }
    assert fields[..i] == fields;
  }

  lemma {:induction false} RecordedInterval(obs0: Observations, obs: Observations, interval: Interval, samples: seq<Sample>, w: Window,
                         factors: Factors, fields: seq<string>, n: nat)
    requires 0 < n < |samples| && Included(samples, w, n) && ScaledBy(factors, fields)
    requires interval.seconds == samples[n].mono - samples[n - 1].mono > 0.0
    requires RatesOf(samples[n - 1], samples[n], fields, factors, interval.values)
    requires Observed(obs0, samples, w, factors, fields, n)
    requires forall k :: k in obs <==> k in obs0 || k in interval.values
    requires forall k :: k in interval.values ==> obs[k] == Appended(obs0, k, Point(interval.seconds, interval.values[k]))[k]
    requires forall k :: k in obs0 && k !in interval.values ==> obs[k] == obs0[k]
    ensures Observed(obs, samples, w, factors, fields, n + 1)
  {
    hide Rate, PointsUpTo;
    forall k | k in fields
      ensures k in obs <==> PointsUpTo(samples, w, k, factors[k], n + 1) != []
      ensures k in obs ==> obs[k] == PointsUpTo(samples, w, k, factors[k], n + 1)
    {
      NextPoint(samples, w, k, factors[k], n);
      if k in interval.values {
        assert PointAt(samples, w, k, factors[k], n) == [Point(interval.seconds, interval.values[k])];
      }
    }
  }

  lemma {:induction false} NextPoint(samples: seq<Sample>, w: Window, k: string, factor: real, n: nat)
    requires 0 < n < |samples|
    ensures PointsUpTo(samples, w, k, factor, n + 1)
         == PointsUpTo(samples, w, k, factor, n) + PointAt(samples, w, k, factor, n)
  {
  }

  lemma {:induction false} NothingObserved(samples: seq<Sample>, w: Window, factors: Factors, fields: seq<string>)
    requires ScaledBy(factors, fields)
    ensures Observed(map[], samples, w, factors, fields, 0)
  {
  }

  lemma {:induction false} SkippedInterval(obs: Observations, samples: seq<Sample>, w: Window, factors: Factors, fields: seq<string>, n: nat)
    requires n < |samples| && (n == 0 || !Included(samples, w, n)) && ScaledBy(factors, fields)
    requires Observed(obs, samples, w, factors, fields, n)
    ensures Observed(obs, samples, w, factors, fields, n + 1)
  {
    forall k | k in fields
      ensures PointsUpTo(samples, w, k, factors[k], n + 1) == PointsUpTo(samples, w, k, factors[k], n)
    {
      if n > 0 { NextPoint(samples, w, k, factors[k], n); }
    }
    hide PointsUpTo;
  }

  datatype Digest = Digest(stats: map<string, Stat>, resets: nat)

  /** summarize over the parsed samples; None is its ValueError. Each counter's statistics are those of its rates over
      the counted intervals, their integral is the sum of its non-negative changes, and every reset is counted. */
  method Summarize(samples: seq<Sample>, fields: seq<string>, factors: Factors, w: Window) returns (r: Option<Digest>)
    requires ScaledBy(factors, fields) && forall i, j :: 0 <= i < j < |fields| ==> fields[i] != fields[j]
    ensures r.None? <==> w.begin.Some? && w.end.Some? && w.begin.value >= w.end.value
    ensures r.Some? ==>
              && r.value.resets == ResetsUpTo(samples, w, fields, |samples|)
              && (forall k :: k in fields ==>
                    (k in r.value.stats <==> PointsUpTo(samples, w, k, factors[k], |samples|) != []))
              && (forall k :: k in r.value.stats ==>
                    && k in fields
                    && r.value.stats[k] == StatOf(PointsUpTo(samples, w, k, factors[k], |samples|))
                    && r.value.stats[k].integral == Scaled(AddedUpTo(samples, w, k, |samples|), factors[k])
                    && r.value.stats[k].min <= r.value.stats[k].mean <= r.value.stats[k].max
                    && r.value.stats[k].min <= r.value.stats[k].p95 <= r.value.stats[k].max)
              && (forall k :: k in fields && k !in r.value.stats ==> AddedUpTo(samples, w, k, |samples|) == 0.0)
  {
    hide Scaled, Weighted, Integral, AddedUpTo, RatesOf, StatOf, Appended, Resets, PointsUpTo;
    if w.begin.Some? && w.end.Some? && w.begin.value >= w.end.value { return None; }
    var obs: Observations, resets := map[], 0;
    NothingObserved(samples, w, factors, fields);
    var n := 0;
    while n < |samples|
      invariant 0 <= n <= |samples|
      invariant Observed(obs, samples, w, factors, fields, n)
      invariant resets == ResetsUpTo(samples, w, fields, n)
    {
      var interval := None;
      if n > 0 { interval := Derive(samples[n - 1], samples[n], fields, factors); }
      if interval.Some? && Inside(w, interval.value.start, interval.value.end) {
        ghost var obs0 := obs;
        RateKeys(samples[n - 1], samples[n], fields, factors, interval.value.values);
        obs := Record(obs, interval.value, fields);
        RecordedInterval(obs0, obs, interval.value, samples, w, factors, fields, n);
        resets := resets + |interval.value.resets|;
      } else {
        SkippedInterval(obs, samples, w, factors, fields, n);
      }
      n := n + 1;
    }
    forall k | k in obs ensures Weighted(obs[k]) { SomePoints(obs[k]); }
    var stats := map k | k in obs :: StatOf(obs[k]);
    forall k | k in fields ensures Integral(PointsUpTo(samples, w, k, factors[k], |samples|))
                                 == Scaled(AddedUpTo(samples, w, k, |samples|), factors[k]) {
      PointsIntegrate(samples, w, k, factors[k], |samples|);
    }
    forall k | k in fields && k !in obs ensures AddedUpTo(samples, w, k, |samples|) == 0.0 {
      NothingAdded(samples, w, k, factors[k], |samples|);
    }
    forall k | k in obs
      ensures StatOf(obs[k]).integral == Integral(obs[k])
      ensures StatOf(obs[k]).min <= StatOf(obs[k]).mean <= StatOf(obs[k]).max
      ensures StatOf(obs[k]).min <= StatOf(obs[k]).p95 <= StatOf(obs[k]).max
    {
      StatBounds(obs[k]);
    }
    r := Some(Digest(stats, resets));
  }

  lemma {:induction false} SomePoints(points: seq<Point>)
    requires points != [] && forall i :: 0 <= i < |points| ==> points[i].seconds > 0.0
    ensures Weighted(points)
  {
  }

  lemma {:induction false} NothingAdded(samples: seq<Sample>, w: Window, k: string, factor: real, n: nat)
    requires n <= |samples| && PointsUpTo(samples, w, k, factor, n) == []
    ensures AddedUpTo(samples, w, k, n) == 0.0
  {
    if n > 1 { NothingAdded(samples, w, k, factor, n - 1); }
  }

  lemma {:induction false} RateKeys(before: Sample, after: Sample, fields: seq<string>, factors: Factors, values: map<string, real>)
    requires ScaledBy(factors, fields) && RatesOf(before, after, fields, factors, values)
    ensures forall k :: k in values ==> k in fields
  {
  }

  // ---- telescoping ----

  /** Total by which counter k fell, over the resets after sample a and up to sample b. */
  ghost function Dropped(samples: seq<Sample>, k: string, a: nat, b: nat): (r: real)
    requires a <= b < |samples|
    ensures r >= 0.0
  {
    if a == b then 0.0
    else Dropped(samples, k, a, b - 1)
         + if IsReset(samples[b - 1], samples[b], k) then samples[b - 1].counters[k] - samples[b].counters[k] else 0.0
  }

  /** Over counted intervals a .. b a counter's sum is last minus first plus what its resets
      dropped: a reset adds nothing. */
  lemma {:induction false} SumAccounts(samples: seq<Sample>, w: Window, k: string, a: nat, b: nat)
    requires a <= b < |samples|
    requires forall i :: a <= i <= b ==> k in samples[i].counters
    requires forall i :: a < i <= b ==> Included(samples, w, i)
    ensures AddedUpTo(samples, w, k, b + 1) - AddedUpTo(samples, w, k, a + 1)
         == samples[b].counters[k] - samples[a].counters[k] + Dropped(samples, k, a, b)
  {
    if a < b { SumAccounts(samples, w, k, a, b - 1); }
  }

  /** It telescopes to last minus first exactly when no counted interval holds a reset. */
  lemma {:induction false} TelescopesIffNoReset(samples: seq<Sample>, w: Window, k: string, a: nat, b: nat)
    requires a <= b < |samples|
    requires forall i :: a <= i <= b ==> k in samples[i].counters
    requires forall i :: a < i <= b ==> Included(samples, w, i)
    ensures AddedUpTo(samples, w, k, b + 1) - AddedUpTo(samples, w, k, a + 1)
              == samples[b].counters[k] - samples[a].counters[k]
            <==> forall i :: a < i <= b ==> !IsReset(samples[i - 1], samples[i], k)
  {
    SumAccounts(samples, w, k, a, b);
    NothingDroppedIff(samples, k, a, b);
  }

  lemma {:induction false} NothingDroppedIff(samples: seq<Sample>, k: string, a: nat, b: nat)
    requires a <= b < |samples|
    ensures Dropped(samples, k, a, b) == 0.0 <==> forall i :: a < i <= b ==> !IsReset(samples[i - 1], samples[i], k)
  {
    if a < b { NothingDroppedIff(samples, k, a, b - 1); }
  }

  /** A counted interval with a reset of a tracked counter is reported. */
  lemma {:induction false} ResetsReported(samples: seq<Sample>, w: Window, fields: seq<string>, k: string, i: nat, n: nat)
    requires 0 < i < n <= |samples| && k in fields
    requires Included(samples, w, i) && IsReset(samples[i - 1], samples[i], k)
    ensures ResetsUpTo(samples, w, fields, n) >= 1
  {
    if i < n - 1 { ResetsReported(samples, w, fields, k, i, n - 1); }
    else { ResetListed(samples[i - 1], samples[i], fields, k); }
  }

  lemma {:induction false} ResetListed(before: Sample, after: Sample, fields: seq<string>, k: string)
    ensures k in Resets(before, after, fields) <==> k in fields && IsReset(before, after, k)
  {
    if fields != [] {
      assert fields == fields[..|fields| - 1] + [fields[|fields| - 1]];
      ResetListed(before, after, fields[..|fields| - 1], k);
    }
  }
}
