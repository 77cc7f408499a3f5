/** Row-weighted task sampling of scripts/bench_rl_scale.py: bisect_right on prefix
    sums against the run-length expansion of the rows. The generator's draws are a
    parameter: distinct values below the population size. */
module Sampling {
  import opened Wrappers

  datatype Entry = Entry(family: string, rows: nat)

  ghost function Expand(pool: seq<Entry>): (r: seq<nat>)
    ensures forall x :: x in r ==> x < |pool|
  {
    if pool == [] then [] else
    Expand(pool[..|pool| - 1]) + Copies(|pool| - 1, pool[|pool| - 1].rows)
  }

  ghost function Copies(i: nat, n: nat): (r: seq<nat>)
    ensures |r| == n && forall k :: 0 <= k < n ==> r[k] == i
  {
    if n == 0 then [] else Copies(i, n - 1) + [i]
  }

  /** Rows before entry `i`. */
  function Before(pool: seq<Entry>, i: nat): nat
    requires i <= |pool|
  {
    if i == 0 then 0 else Before(pool, i - 1) + pool[i - 1].rows
  }

  lemma {:induction false} BeforeMonotone(pool: seq<Entry>, i: nat, j: nat)
    requires i <= j <= |pool|
    ensures Before(pool, i) <= Before(pool, j)
  {
    if i < j { BeforeMonotone(pool, i, j - 1); }
  }

  lemma {:induction false} BeforePrefix(pool: seq<Entry>, n: nat, i: nat)
    requires i <= n <= |pool|
    ensures Before(pool[..n], i) == Before(pool, i)
  {
    if i > 0 { BeforePrefix(pool, n, i - 1); }
  }

  /** The expansion holds entry `i` exactly at rows Before(i) .. Before(i + 1). */
  lemma {:induction false} ExpandAt(pool: seq<Entry>, i: nat, row: nat)
    requires i < |pool| && Before(pool, i) <= row < Before(pool, i + 1)
    ensures |Expand(pool)| == Before(pool, |pool|)
    ensures row < |Expand(pool)| && Expand(pool)[row] == i
  {
    var n := |pool| - 1;
    ExpandSize(pool);
    ExpandSize(pool[..n]);
    BeforePrefix(pool, n, n);
    if i < n {
      BeforePrefix(pool, n, i);
      BeforePrefix(pool, n, i + 1);
      ExpandAt(pool[..n], i, row);
    }
  }

  lemma {:induction false} ExpandSize(pool: seq<Entry>)
    ensures |Expand(pool)| == Before(pool, |pool|)
  {
    if pool != [] {
      ExpandSize(pool[..|pool| - 1]);
      BeforePrefix(pool, |pool| - 1, |pool| - 1);
    }
  }

  /** itertools.accumulate of the rows. */
  method Accumulate(pool: seq<Entry>) returns (cumulative: seq<nat>)
    ensures |cumulative| == |pool|
    ensures forall i :: 0 <= i < |pool| ==> cumulative[i] == Before(pool, i + 1)
  {
    cumulative := [];
    var total, i := 0, 0;
    while i < |pool|
      invariant 0 <= i <= |pool| && |cumulative| == i && total == Before(pool, i)
      invariant forall j :: 0 <= j < i ==> cumulative[j] == Before(pool, j + 1)
    {
      total := total + pool[i].rows;
      cumulative := cumulative + [total];
      i := i + 1;
    }
  }

  /** bisect.bisect_right: the insertion point after every value not above `x`. */
  method BisectRight(a: seq<nat>, x: nat) returns (at: nat)
    requires forall i, j :: 0 <= i < j < |a| ==> a[i] <= a[j]
    ensures at <= |a|
    ensures forall i :: 0 <= i < at ==> a[i] <= x
    ensures forall i :: at <= i < |a| ==> x < a[i]
  {
    var lo, hi := 0, |a|;
    while lo < hi
      invariant 0 <= lo <= hi <= |a|
      invariant forall i :: 0 <= i < lo ==> a[i] <= x
      invariant forall i :: hi <= i < |a| ==> x < a[i]
    {
      var mid := (lo + hi) / 2;
      if x < a[mid] { hi := mid; } else { lo := mid + 1; }
    }
    at := lo;
  }

  datatype Drawn = Chosen(indices: seq<nat>) | NoEntry | TooMany

  ghost predicate DistinctBelow(draws: seq<nat>, n: nat)
  {
    && (forall i :: 0 <= i < |draws| ==> draws[i] < n)
    && (forall i, j :: 0 <= i < j < |draws| ==> draws[i] != draws[j])
  }

  /** How often `x` occurs. */
  ghost function Occurrences(s: seq<nat>, x: nat): nat
  {
    if s == [] then 0 else (if s[0] == x then 1 else 0) + Occurrences(s[1..], x)
  }

  /** sample_tasks over an already filtered pool, weighting by rows. The draws are read only
      when there are enough rows; each drawn row picks the entry the expansion holds there. */
  method SampleRows(pool: seq<Entry>, count: nat, draws: seq<nat>) returns (r: Drawn)
    requires |draws| == count
    requires count <= Before(pool, |pool|) ==> DistinctBelow(draws, Before(pool, |pool|))
    ensures r.NoEntry? <==> pool == []
    ensures r.TooMany? <==> pool != [] && count > |Expand(pool)|
    ensures r.Chosen? ==>
              && |r.indices| == count
              && (forall k :: 0 <= k < count ==>
                    draws[k] < |Expand(pool)| && r.indices[k] == Expand(pool)[draws[k]] < |pool|)
              && (forall i :: 0 <= i < |pool| ==> Occurrences(r.indices, i) <= pool[i].rows)
  {
    ExpandSize(pool);
    if pool == [] { return NoEntry; }
    var cumulative := Accumulate(pool);
    forall i, j | 0 <= i < j < |cumulative| ensures cumulative[i] <= cumulative[j] {
      BeforeMonotone(pool, i + 1, j + 1);
    }
    if count > cumulative[|cumulative| - 1] { return TooMany; }
    var chosen: seq<nat> := [];
    var k := 0;
    while k < count
      invariant 0 <= k <= count && |chosen| == k
      invariant forall m :: 0 <= m < k ==>
                  draws[m] < |Expand(pool)| && chosen[m] == Expand(pool)[draws[m]] < |pool|
    {
      var at := BisectRight(cumulative, draws[k]);
      assert cumulative[|pool| - 1] == Before(pool, |pool|) > draws[k];
      assert at < |pool| && cumulative[at] == Before(pool, at + 1);
      assert at > 0 ==> cumulative[at - 1] == Before(pool, at);
      ExpandAt(pool, at, draws[k]);
      chosen := chosen + [at];
      k := k + 1;
    }
    r := Chosen(chosen);
    forall i | 0 <= i < |pool| ensures Occurrences(chosen, i) <= pool[i].rows {
      NoMoreThanRows(pool, chosen, draws, i);
    }
  }

  /** The rows of entry `i`. */
  ghost function RowsOf(pool: seq<Entry>, i: nat): (r: set<int>)
    requires i < |pool|
  {
    Range(Before(pool, i), Before(pool, i + 1))
  }

  ghost function Range(lo: int, hi: int): (r: set<int>)
    ensures forall x :: x in r <==> lo <= x < hi
    ensures |r| == if lo < hi then hi - lo else 0
    decreases hi - lo
  {
    if lo < hi then Range(lo, hi - 1) + {hi - 1} else {}
  }

  /** A row belongs to the entry found there and to no other. */
  lemma {:induction false} RowBelongs(pool: seq<Entry>, row: nat) returns (i: nat)
    requires row < |Expand(pool)|
    ensures i < |pool| && Expand(pool)[row] == i && row in RowsOf(pool, i)
  {
    ExpandSize(pool);
    i := |pool|;
    while row < Before(pool, i)
      invariant 0 < i <= |pool| || (i == 0 && Before(pool, 0) <= row)
      invariant i == |pool| || row < Before(pool, i + 1)
      decreases i
    {
      i := i - 1;
    }
    ExpandAt(pool, i, row);
  }

  lemma {:induction false} DrawnRows(pool: seq<Entry>, chosen: seq<nat>, draws: seq<nat>, i: nat)
    returns (rows: set<int>)
    requires i < |pool| && |chosen| == |draws|
    requires forall k, m :: 0 <= k < m < |draws| ==> draws[k] != draws[m]
    requires forall k :: 0 <= k < |draws| ==> draws[k] < |Expand(pool)| && chosen[k] == Expand(pool)[draws[k]]
    ensures rows <= RowsOf(pool, i) && |rows| == Occurrences(chosen, i)
    ensures forall x :: x in rows ==> x in draws
  {
    if chosen == [] {
      rows := {};
    } else {
      rows := DrawnRows(pool, chosen[1..], draws[1..], i);
      if chosen[0] == i {
        var owner := RowBelongs(pool, draws[0]);
        assert draws[0] !in rows;
        rows := rows + {draws[0]};
      }
    }
  }

  lemma {:induction false} NoMoreThanRows(pool: seq<Entry>, chosen: seq<nat>, draws: seq<nat>, i: nat)
    requires i < |pool| && |chosen| == |draws|
    requires forall k, m :: 0 <= k < m < |draws| ==> draws[k] != draws[m]
    requires forall k :: 0 <= k < |draws| ==> draws[k] < |Expand(pool)| && chosen[k] == Expand(pool)[draws[k]]
    ensures Occurrences(chosen, i) <= pool[i].rows
  {
    var rows := DrawnRows(pool, chosen, draws, i);
    SubsetSize(rows, RowsOf(pool, i));
  }

  lemma {:induction false} SubsetSize(a: set<int>, b: set<int>)
    requires a <= b
    ensures |a| <= |b|
  {
    assert b == a + (b - a) && a !! (b - a);
  }

  /** Exactly `rows` of the rows choose entry `i`. */
  lemma {:induction false} ChosenByItsRows(pool: seq<Entry>, i: nat)
    requires i < |pool|
    ensures |RowsOf(pool, i)| == pool[i].rows
    ensures forall row: nat :: row < |Expand(pool)| ==> (Expand(pool)[row] == i <==> row in RowsOf(pool, i))
  {
    forall row: nat | row < |Expand(pool)| ensures Expand(pool)[row] == i <==> row in RowsOf(pool, i) {
      var owner := RowBelongs(pool, row);
      if row in RowsOf(pool, i) { ExpandAt(pool, i, row); }
    }
  }
}
