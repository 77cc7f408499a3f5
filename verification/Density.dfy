/** Resident-count bins and the density verdict of scripts/bench_rl_scale.py. */
module Density {
  import opened Wrappers
  import opened Sorting
  import opened Percentiles

  datatype Sample = Sample(resident: int, ok: bool, seconds: real)

  datatype Bin = Bin(low: int, high: int, maxObserved: int, attempted: nat, failed: nat, latency: Summary)

  function KeyOf(s: Sample, width: int): int
    requires width > 0
  {
    (s.resident - 1) / width
  }

  function Low(key: int, width: int): int { key * width + 1 }

  function High(key: int, width: int): int { (key + 1) * width }

  /** A key's samples, in order. */
  function Rows(samples: seq<Sample>, width: int, key: int): (r: seq<Sample>)
    requires width > 0
    ensures forall s :: s in r <==> s in samples && KeyOf(s, width) == key
  {
    if samples == [] then [] else
    var last, rest := samples[|samples| - 1], Rows(samples[..|samples| - 1], width, key);
    assert samples == samples[..|samples| - 1] + [last];
    if KeyOf(last, width) == key then rest + [last] else rest
  }

  function OkSeconds(rows: seq<Sample>): (r: seq<real>)
    ensures |r| <= |rows|
  {
    if rows == [] then [] else
    var rest := OkSeconds(rows[..|rows| - 1]);
    if rows[|rows| - 1].ok then rest + [rows[|rows| - 1].seconds] else rest
  }

  function MaxResident(rows: seq<Sample>): (m: int)
    requires rows != []
    ensures forall s :: s in rows ==> s.resident <= m
    ensures exists s :: s in rows && s.resident == m
  {
    if |rows| == 1 then assert rows[0] in rows; rows[0].resident else
    var rest := MaxResident(rows[1..]);
    assert rows == [rows[0]] + rows[1..];
    assert rows[0] in rows;
    if rows[0].resident > rest then rows[0].resident else rest
  }

  /** `b` is the bin of `key`, computed from that key's samples. */
  ghost predicate IsBin(b: Bin, samples: seq<Sample>, width: int, key: int)
    requires width > 0
  {
    var rows := Rows(samples, width, key);
    && rows != []
    && b.low == Low(key, width) && b.high == High(key, width)
    && b.maxObserved == MaxResident(rows)
    && b.attempted == |rows|
    && b.failed == |rows| - |OkSeconds(rows)|
    && b.latency == LatencySummary(OkSeconds(rows))
  }

  ghost function AttemptedSum(bins: seq<Bin>): nat
  {
    if bins == [] then 0 else AttemptedSum(bins[..|bins| - 1]) + bins[|bins| - 1].attempted
  }

  lemma {:induction false} KeyBounds(s: Sample, width: int, key: int)
    requires width > 0
    ensures Low(key, width) <= s.resident <= High(key, width) <==> KeyOf(s, width) == key
  {
    var q, m := (s.resident - 1) / width, (s.resident - 1) % width;
    assert s.resident - 1 == q * width + m && 0 <= m < width;
    assert (key + 1) * width == key * width + width;
    if key < q { MulMono(key + 1, q, width); }
    if key > q {
      MulMono(q + 1, key, width);
      assert (q + 1) * width == q * width + width;
    }
  }

  lemma {:induction false} KeyOrder(a: int, b: int, width: int)
    requires width > 0 && a < b
    ensures High(a, width) < Low(b, width)
  {
    MulMono(a + 1, b, width);
  }

  lemma {:induction false} MulMono(a: int, b: int, w: int)
    requires a <= b && w > 0
    ensures a * w <= b * w
  {
    assert (b - a) * w >= 0;
  }

  lemma {:induction false} NoRows(width: int)
    requires width > 0
    ensures forall k :: Rows([], width, k) == []
  {
  }

  lemma {:induction false} RowsNext(front: seq<Sample>, s: Sample, width: int)
    requires width > 0
    ensures forall k :: Rows(front + [s], width, k) == Rows(front, width, k) + if k == KeyOf(s, width) then [s] else []
  {
    hide KeyOf;
    assert (front + [s])[..|front|] == front;
  }

  /** The grouping loop: a dictionary of lists keyed by bin. */
  method Group(samples: seq<Sample>, width: int)
    returns (groups: Option<map<int, seq<Sample>>>, listed: seq<int>)
    requires width > 0
    ensures groups.None? <==> exists s :: s in samples && s.resident <= 0
    ensures groups.Some? ==>
              && (forall k :: k in listed <==> k in groups.value)
              && (forall s :: s in samples ==> KeyOf(s, width) in groups.value)
              && forall k :: k in groups.value ==> groups.value[k] == Rows(samples, width, k) && groups.value[k] != []
  {
    hide Rows, KeyOf;
    NoRows(width);
    var m: map<int, seq<Sample>> := map[];
    listed := [];
    var i := 0;
    while i < |samples|
      invariant 0 <= i <= |samples|
      invariant forall s :: s in samples[..i] ==> s.resident > 0
      invariant forall k :: k in listed <==> k in m
      invariant forall s :: s in samples[..i] ==> KeyOf(s, width) in m
      invariant forall k :: k in m ==> m[k] == Rows(samples[..i], width, k) && m[k] != []
      invariant forall k :: k !in m ==> Rows(samples[..i], width, k) == []
    {
      var sample := samples[i];
      if sample.resident <= 0 { return None, []; }
      var key := KeyOf(sample, width);
      assert samples[..i + 1][..i] == samples[..i] && samples[..i + 1] == samples[..i] + [sample];
      RowsNext(samples[..i], sample, width);
      if key !in m { listed := listed + [key]; }
      m := m[key := (if key in m then m[key] else []) + [sample]];
      i := i + 1;
    }
    assert samples[..i] == samples;
    groups := Some(m);
  }

  /** The ascending bins of the keys that occur, each computed from its own samples. */
  ghost predicate Binned(samples: seq<Sample>, width: int, bins: seq<Bin>, keys: seq<int>)
  {
    && width > 0 && |keys| == |bins|
    && (forall i :: 0 <= i < |keys| ==> IsBin(bins[i], samples, width, keys[i]))
    && (forall i, j :: 0 <= i < j < |keys| ==> keys[i] < keys[j])
    && (forall s :: s in samples ==> KeyOf(s, width) in keys)
  }

  /** bin_by_resident; None is its ValueError. */
  method BinByResident(samples: seq<Sample>, width: int) returns (bins: Option<seq<Bin>>, ghost keys: seq<int>)
    ensures bins.None? <==> width <= 0 || exists s :: s in samples && s.resident <= 0
    ensures bins.Some? ==> Binned(samples, width, bins.value, keys)
  {
    hide Low, High, Rows, KeyOf, IsBin, LatencySummary;
    keys := [];
    if width <= 0 { return None, []; }
    var groups, listed := Group(samples, width);
    if groups.None? { return None, []; }
    var order := SortedKeys(listed);
    var out: seq<Bin> := [];
    var i := 0;
    while i < |order|
      invariant 0 <= i <= |order| && |out| == i
      invariant forall j :: 0 <= j < i ==> IsBin(out[j], samples, width, order[j])
    {
      assert order[i] in order && order[i] in groups.value;
      MadeBin(samples, width, order[i]);
      out := out + [MakeBin(order[i], groups.value[order[i]], width)];
      i := i + 1;
    }
    bins, keys := Some(out), order;
  }

  function MakeBin(key: int, rows: seq<Sample>, width: int): Bin
    requires width > 0 && rows != []
  {
    var ok := OkSeconds(rows);
    Bin(Low(key, width), High(key, width), MaxResident(rows), |rows|, |rows| - |ok|, LatencySummary(ok))
  }

  lemma {:induction false} MadeBin(samples: seq<Sample>, width: int, key: int)
    requires width > 0 && Rows(samples, width, key) != []
    ensures IsBin(MakeBin(key, Rows(samples, width, key), width), samples, width, key)
  {
    hide Low, High, KeyOf, LatencySummary;
  }

  function InsertKey(k: int, s: seq<int>): (r: seq<int>)
    requires forall i, j :: 0 <= i < j < |s| ==> s[i] < s[j]
    ensures forall i, j :: 0 <= i < j < |r| ==> r[i] < r[j]
    ensures forall x :: x in r <==> x == k || x in s
  {
    if s == [] || k < s[0] then [k] + s
    else if k == s[0] then s
    else
      var tail := InsertKey(k, s[1..]);
      assert forall i :: 0 <= i < |tail| ==> tail[i] in tail;
      assert s == [s[0]] + s[1..];
      [s[0]] + tail
  }

  /** `sorted` of a dictionary's keys. */
  function SortedKeys(listed: seq<int>): (order: seq<int>)
    ensures forall k :: k in order <==> k in listed
    ensures forall i, j :: 0 <= i < j < |order| ==> order[i] < order[j]
  {
    if listed == [] then []
    else
      assert listed == [listed[0]] + listed[1..];
      InsertKey(listed[0], SortedKeys(listed[1..]))
  }

  lemma {:induction false} BoundsMatchKey(samples: seq<Sample>, width: int, bins: seq<Bin>, keys: seq<int>, s: Sample, i: nat)
    requires Binned(samples, width, bins, keys) && i < |bins|
    ensures bins[i].low <= s.resident <= bins[i].high <==> keys[i] == KeyOf(s, width)
  {
    hide KeyOf, Low, High;
    assert IsBin(bins[i], samples, width, keys[i]);
    KeyBounds(s, width, keys[i]);
  }

  /** Each sample lies in exactly one bin, the one whose bounds contain it. */
  lemma {:induction false} BinsPartition(samples: seq<Sample>, width: int, bins: seq<Bin>, keys: seq<int>, s: Sample)
    returns (at: nat)
    requires Binned(samples, width, bins, keys) && s in samples
    ensures at < |bins| && bins[at].low <= s.resident <= bins[at].high
    ensures s in Rows(samples, width, keys[at])
    ensures forall i :: 0 <= i < |bins| && i != at ==> !(bins[i].low <= s.resident <= bins[i].high)
  {
    at :| 0 <= at < |keys| && keys[at] == KeyOf(s, width);
    BoundsMatchKey(samples, width, bins, keys, s, at);
    forall i | 0 <= i < |bins| && i != at
      ensures !(bins[i].low <= s.resident <= bins[i].high)
    {
      BoundsMatchKey(samples, width, bins, keys, s, i);
      assert keys[i] < keys[at] || keys[at] < keys[i];
    }
  }

  ghost function RowSum(samples: seq<Sample>, width: int, keys: seq<int>): nat
    requires width > 0
  {
    if keys == [] then 0 else RowSum(samples, width, keys[..|keys| - 1]) + |Rows(samples, width, keys[|keys| - 1])|
  }

  lemma {:induction false} RowSumAppend(front: seq<Sample>, last: Sample, width: int, keys: seq<int>)
    requires width > 0
    requires forall i, j :: 0 <= i < j < |keys| ==> keys[i] < keys[j]
    ensures RowSum(front + [last], width, keys)
         == RowSum(front, width, keys) + if KeyOf(last, width) in keys then 1 else 0
  {
    if keys != [] {
      RowSumAppend(front, last, width, keys[..|keys| - 1]);
      assert (front + [last])[..|front|] == front;
      assert keys == keys[..|keys| - 1] + [keys[|keys| - 1]];
    }
  }

  lemma {:induction false} RowSumCovers(samples: seq<Sample>, width: int, keys: seq<int>)
    requires width > 0
    requires forall i, j :: 0 <= i < j < |keys| ==> keys[i] < keys[j]
    requires forall s :: s in samples ==> KeyOf(s, width) in keys
    ensures RowSum(samples, width, keys) == |samples|
  {
    if samples == [] {
      RowSumEmpty(width, keys);
    } else {
      var last, front := samples[|samples| - 1], samples[..|samples| - 1];
      assert samples == front + [last];
      RowSumCovers(front, width, keys);
      RowSumAppend(front, last, width, keys);
      assert last in samples;
    }
  }

  lemma {:induction false} RowSumEmpty(width: int, keys: seq<int>)
    requires width > 0
    ensures RowSum([], width, keys) == 0
  {
    if keys != [] { RowSumEmpty(width, keys[..|keys| - 1]); }
  }

  lemma {:induction false} AttemptsAreRows(samples: seq<Sample>, width: int, bins: seq<Bin>, keys: seq<int>)
    requires width > 0 && |keys| == |bins|
    requires forall i :: 0 <= i < |keys| ==> IsBin(bins[i], samples, width, keys[i])
    ensures AttemptedSum(bins) == RowSum(samples, width, keys)
  {
    if bins != [] {
      assert IsBin(bins[|bins| - 1], samples, width, keys[|bins| - 1]);
      AttemptsAreRows(samples, width, bins[..|bins| - 1], keys[..|keys| - 1]);
    }
  }

  /** No sample is lost or counted twice: the bins' attempts add up to the samples. */
  lemma {:induction false} AttemptsConserved(samples: seq<Sample>, width: int, bins: seq<Bin>, keys: seq<int>)
    requires Binned(samples, width, bins, keys)
    ensures AttemptedSum(bins) == |samples|
  {
    AttemptsAreRows(samples, width, bins, keys);
    RowSumCovers(samples, width, keys);
  }

  // ---- the verdict ----

  predicate Passes(b: Bin, limit: real)
  {
    b.failed == 0 && b.latency.p99.Some? && b.latency.p99.value <= limit
  }

  predicate BinLe(a: Bin, b: Bin) { a.low <= b.low }

  /** `best` is the last bin before the first one that misses the limit. */
  ghost predicate Verdict(bins: seq<Bin>, limit: real, best: Option<Bin>, violation: Option<Bin>)
  {
    && (forall b :: b in bins && (violation.None? || b.low < violation.value.low) ==> Passes(b, limit))
    && (violation.Some? ==> violation.value in bins && !Passes(violation.value, limit))
    && (best.Some? ==> best.value in bins && Passes(best.value, limit)
                       && (violation.Some? ==> best.value.low <= violation.value.low))
    && (forall b :: b in bins && (best.None? || best.value.low < b.low) ==>
          violation.Some? && violation.value.low <= b.low)
  }

  lemma {:induction false} SortedBins(bins: seq<Bin>)
    ensures Ascending(Sort(bins, BinLe), BinLe)
    ensures forall b :: b in Sort(bins, BinLe) <==> b in bins
  {
    SortAscending(bins, BinLe);
    MembersOf(Sort(bins, BinLe), bins);
  }

  /** density_at_limit, for any bins in any order. */
  method DensityAtLimit(bins: seq<Bin>, limit: real) returns (best: Option<Bin>, violation: Option<Bin>)
    ensures Verdict(bins, limit, best, violation)
  {
    var order := Sort(bins, BinLe);
    best, violation := None, None;
    var i := 0;
    while i < |order|
      invariant 0 <= i <= |order|
      invariant violation.None?
      invariant forall j :: 0 <= j < i ==> Passes(order[j], limit)
      invariant best == if i == 0 then None else Some(order[i - 1])
    {
      if !Passes(order[i], limit) {
        violation := Some(order[i]);
        break;
      }
      best := Some(order[i]);
      i := i + 1;
    }
    SortedBins(bins);
    StopIsVerdict(order, limit, i);
    SameVerdict(order, bins, limit, best, violation);
  }

  lemma {:induction false} StopIsVerdict(order: seq<Bin>, limit: real, i: nat)
    requires Ascending(order, BinLe) && i <= |order|
    requires forall j :: 0 <= j < i ==> Passes(order[j], limit)
    requires i < |order| ==> !Passes(order[i], limit)
    ensures Verdict(order, limit, if i == 0 then None else Some(order[i - 1]),
                    if i == |order| then None else Some(order[i]))
  {
    forall b | b in order
      ensures i == |order| || b.low < order[i].low ==> Passes(b, limit)
      ensures i == 0 || order[i - 1].low < b.low ==> i < |order| && order[i].low <= b.low
    {
      var j :| 0 <= j < |order| && order[j] == b;
      assert i < j ==> BinLe(order[i], order[j]);
      assert 0 <= j < i - 1 ==> BinLe(order[j], order[i - 1]);
    }
    assert 0 < i < |order| ==> BinLe(order[i - 1], order[i]);
  }

  lemma {:induction false} SameVerdict(order: seq<Bin>, bins: seq<Bin>, limit: real, best: Option<Bin>, violation: Option<Bin>)
    requires Verdict(order, limit, best, violation)
    requires forall b :: b in order <==> b in bins
    ensures Verdict(bins, limit, best, violation)
  {
  }

  lemma {:induction false} AllOk(rows: seq<Sample>)
    requires |OkSeconds(rows)| == |rows|
    ensures forall s :: s in rows ==> s.ok
  {
    if rows != [] {
      assert rows == rows[..|rows| - 1] + [rows[|rows| - 1]];
      AllOk(rows[..|rows| - 1]);
    }
  }

  lemma {:induction false} BinOrder(samples: seq<Sample>, width: int, bins: seq<Bin>, keys: seq<int>, i: nat, j: nat)
    requires Binned(samples, width, bins, keys) && i < |bins| && j < |bins|
    ensures i < j ==> bins[i].high < bins[j].low
    ensures bins[i].low <= bins[i].maxObserved <= bins[i].high
    ensures exists s :: s in samples && s.resident == bins[i].maxObserved
  {
    hide KeyOf, Low, High;
    assert IsBin(bins[i], samples, width, keys[i]) && IsBin(bins[j], samples, width, keys[j]);
    if i < j { KeyOrder(keys[i], keys[j], width); }
    var s :| s in Rows(samples, width, keys[i]) && s.resident == bins[i].maxObserved;
    KeyBounds(s, width, keys[i]);
  }

  lemma {:induction false} PassingBinOk(samples: seq<Sample>, width: int, limit: real, bins: seq<Bin>, keys: seq<int>, i: nat, s: Sample)
    requires Binned(samples, width, bins, keys) && i < |bins|
    requires Passes(bins[i], limit) && s in Rows(samples, width, keys[i])
    ensures s.ok && s.resident <= bins[i].maxObserved
  {
    assert IsBin(bins[i], samples, width, keys[i]);
    AllOk(Rows(samples, width, keys[i]));
  }

  /** The calls that succeeded within `limit` seconds. */
  ghost function Within(rows: seq<Sample>, limit: real): nat
  {
    if rows == [] then 0 else
    var last := rows[|rows| - 1];
    Within(rows[..|rows| - 1], limit) + if last.ok && last.seconds <= limit then 1 else 0
  }

  lemma {:induction false} WithinIsCount(rows: seq<Sample>, limit: real)
    ensures Within(rows, limit) == CountLe(OkSeconds(rows), limit)
  {
    if rows != [] {
      var front, last := rows[..|rows| - 1], rows[|rows| - 1];
      WithinIsCount(front, limit);
      CountLeAppend(OkSeconds(front), last.seconds, limit);
    }
  }

  /** A bin passes the rounded limit only if 99 % of its calls took at most the limit, up to the rounding. */
  lemma {:induction false} PassingShare(samples: seq<Sample>, width: int, limit: real, b: Bin, key: int)
    requires width > 0 && IsBin(b, samples, width, key) && Passes(b, limit)
    ensures Within(Rows(samples, width, key), limit + 0.0000005) as real >= 0.99 * b.attempted as real
  {
    var rows := Rows(samples, width, key);
    var seconds := OkSeconds(rows);
    hide Rows, OkSeconds, KeyOf, MaxResident, Within;
    ShareWithin(seconds, limit);
    WithinIsCount(rows, limit + 0.0000005);
  }

  lemma {:induction false} ShareWithin(seconds: seq<real>, limit: real)
    requires seconds != [] && LatencySummary(seconds).p99.value <= limit
    ensures CountLe(seconds, limit + 0.0000005) as real >= 0.99 * |seconds| as real
  {
    hide LatencySummary, Percentile, Round6, Sort, CountLe, Ascending;
    var ordered := Sort(seconds, RealLe);
    var p99 := P99(seconds);
    SortedReals(seconds);
    PercentileIsNearestRank(ordered, 0.99);
    CountLeMonotone(ordered, p99, limit + 0.0000005);
    CountLeSort(seconds, limit + 0.0000005);
    assert CountLe(ordered, p99) as real >= |ordered| as real * 0.99;
  }

  lemma {:induction false} P99(seconds: seq<real>) returns (p99: real)
    requires seconds != []
    ensures Percentile(Sort(seconds, RealLe), 0.99) == Some(p99) && LatencySummary(seconds).p99 == Some(Round6(p99))
  {
    hide Percentile, Round6, Sort, Total;
    p99 := Percentile(Sort(seconds, RealLe), 0.99).value;
  }

  /** Conversely a bin passes if no call failed and 99 % of them took at most the limit, for a limit given to the
      microsecond. */
  lemma {:induction false} SharePasses(samples: seq<Sample>, width: int, limit: real, b: Bin, key: int)
    requires width > 0 && IsBin(b, samples, width, key) && Round6(limit) <= limit
    requires forall s :: s in Rows(samples, width, key) ==> s.ok
    requires Within(Rows(samples, width, key), limit) as real >= 0.99 * b.attempted as real
    ensures Passes(b, limit)
  {
    var rows := Rows(samples, width, key);
    AllSeconds(rows);
    WithinIsCount(rows, limit);
    hide Rows, KeyOf, MaxResident, Within, OkSeconds, Round6, LatencySummary, CountLe;
    var seconds := OkSeconds(rows);
    var lo, hi, mean, p50, p95, p99 := SummaryMeaning(seconds);
    assert limit < p99 ==> CountLe(seconds, limit) as real < |seconds| as real * 0.99;
    Round6Monotone(p99, limit);
  }

  lemma {:induction false} AllSeconds(rows: seq<Sample>)
    requires forall s :: s in rows ==> s.ok
    ensures |OkSeconds(rows)| == |rows|
  {
    if rows != [] {
      assert rows == rows[..|rows| - 1] + [rows[|rows| - 1]];
      AllSeconds(rows[..|rows| - 1]);
    }
  }

  /** The verdict `r`: no call at any resident count up to `r` failed and every bin up
      to `r` meets the limit; the first bin that misses it starts above `r`, and with
      no such bin `r` is the largest count observed. */
  lemma {:induction false} VerdictSound(samples: seq<Sample>, width: int, limit: real, bins: seq<Bin>, keys: seq<int>,
                     best: Bin, violation: Option<Bin>)
    requires Binned(samples, width, bins, keys)
    requires Verdict(bins, limit, Some(best), violation)
    ensures forall s :: s in samples && s.resident <= best.maxObserved ==> s.ok
    ensures forall b :: b in bins && b.low <= best.maxObserved ==> Passes(b, limit)
    ensures violation.Some? ==> best.maxObserved < violation.value.low
    ensures violation.None? ==> forall s :: s in samples ==> s.resident <= best.maxObserved
    ensures forall i :: 0 <= i < |bins| && bins[i].low <= best.maxObserved ==>
              Within(Rows(samples, width, keys[i]), limit + 0.0000005) as real >= 0.99 * bins[i].attempted as real
  {
    hide IsBin, Rows, Passes, KeyOf, Within;
    var at :| 0 <= at < |bins| && bins[at] == best;
    BinOrder(samples, width, bins, keys, at, at);
    if violation.Some? {
      var v :| 0 <= v < |bins| && bins[v] == violation.value;
      BinOrder(samples, width, bins, keys, at, v);
      BinOrder(samples, width, bins, keys, v, at);
      assert best.maxObserved < violation.value.low;
    }
    forall i | 0 <= i < |bins| && bins[i].low <= best.maxObserved
      ensures Passes(bins[i], limit)
      ensures Within(Rows(samples, width, keys[i]), limit + 0.0000005) as real >= 0.99 * bins[i].attempted as real
    {
      BinOrder(samples, width, bins, keys, at, i);
      assert bins[i] in bins;
      PassingShare(samples, width, limit, bins[i], keys[i]);
    }
    forall s | s in samples
      ensures s.resident <= best.maxObserved ==> s.ok
      ensures violation.None? ==> s.resident <= best.maxObserved
    {
      var i := BinsPartition(samples, width, bins, keys, s);
      assert bins[i] in bins;
      BinOrder(samples, width, bins, keys, i, at);
      BinOrder(samples, width, bins, keys, at, i);
      if Passes(bins[i], limit) { PassingBinOk(samples, width, limit, bins, keys, i, s); }
    }
  }
}
