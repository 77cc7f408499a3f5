/** Build overlap: the event sweep of scripts/build_load_report.py against the
    number of builds open at each instant. Timestamps are reals. */
module IntervalSweep {
  import opened Wrappers
  import opened Sorting

  datatype Interval = Interval(begin: real, end: real)

  datatype Point = Point(when: real, change: int)

  datatype Peaked = Peaked(peak: int, at: Option<real>)

  /** Tuple order: at one instant an end sorts before a start. */
  predicate PointLe(a: Point, b: Point)
  {
    a.when < b.when || (a.when == b.when && a.change <= b.change)
  }

  ghost predicate Proper(intervals: seq<Interval>)
  {
    forall i :: 0 <= i < |intervals| ==> intervals[i].begin < intervals[i].end
  }

  function Points(intervals: seq<Interval>): (r: seq<Point>)
    ensures forall p :: p in r ==> p.change == 1 || p.change == -1
  {
    if intervals == [] then []
    else [Point(intervals[0].begin, 1), Point(intervals[0].end, -1)] + Points(intervals[1..])
  }

  /** The specification: half-open intervals containing `t`. */
  ghost function CountAt(intervals: seq<Interval>, t: real): (n: nat)
  {
    if intervals == [] then 0
    else (if intervals[0].begin <= t < intervals[0].end then 1 else 0) + CountAt(intervals[1..], t)
  }

  /** `r` is the maximum over all instants, at the earliest instant reaching it. */
  ghost predicate IsPeak(intervals: seq<Interval>, r: Peaked)
  {
    && (forall t: real :: CountAt(intervals, t) <= r.peak)
    && (r.at.None? <==> intervals == [])
    && (r.at.None? ==> r.peak == 0)
    && (r.at.Some? ==>
          && CountAt(intervals, r.at.value) == r.peak > 0
          && forall t: real :: t < r.at.value ==> CountAt(intervals, t) < r.peak)
  }

  // ---- the sweep's running total ----

  ghost function Sum(s: seq<Point>): int
  {
    if s == [] then 0 else s[0].change + Sum(s[1..])
  }

  /** The sweep's `current` after `k` points. */
  ghost function Running(s: seq<Point>, k: nat): int
    requires k <= |s|
  {
    Sum(s[..k])
  }

  /** Total of the changes at or before `t`. */
  ghost function Level(s: seq<Point>, t: real): int
  {
    if s == [] then 0 else (if s[0].when <= t then s[0].change else 0) + Level(s[1..], t)
  }

  lemma {:induction false} SumExtend(s: seq<Point>, k: nat)
    requires k < |s|
    ensures Running(s, k + 1) == Running(s, k) + s[k].change
  {
    if k > 0 {
      SumExtend(s[1..], k - 1);
      assert s[..k + 1][1..] == s[1..][..k] && s[..k][1..] == s[1..][..k - 1];
    } else {
      assert s[..1] == [s[0]] && s[..1][1..] == [];
    }
  }

  lemma {:induction false} LevelOfPoints(intervals: seq<Interval>, t: real)
    requires Proper(intervals)
    ensures Level(Points(intervals), t) == CountAt(intervals, t)
  {
    if intervals != [] {
      LevelOfPoints(intervals[1..], t);
      var rest := Points(intervals[1..]);
      var all := Points(intervals);
      assert all[1..] == [Point(intervals[0].end, -1)] + rest && all[1..][1..] == rest;
    }
  }

  lemma {:induction false} LevelInsert(x: Point, s: seq<Point>, t: real)
    ensures Level(Insert(x, s, PointLe), t) == (if x.when <= t then x.change else 0) + Level(s, t)
  {
    if s != [] && !PointLe(x, s[0]) {
      LevelInsert(x, s[1..], t);
      assert Insert(x, s, PointLe)[1..] == Insert(x, s[1..], PointLe);
    } else {
      assert ([x] + s)[1..] == s;
    }
  }

  lemma {:induction false} LevelSort(s: seq<Point>, t: real)
    ensures Level(Sort(s, PointLe), t) == Level(s, t)
  {
    if s != [] {
      LevelSort(s[1..], t);
      LevelInsert(s[0], Sort(s[1..], PointLe), t);
    }
  }

  lemma {:induction false} LevelIsPrefixSum(s: seq<Point>, k: nat, t: real)
    requires k <= |s|
    requires forall i :: 0 <= i < k ==> s[i].when <= t
    requires forall i :: k <= i < |s| ==> s[i].when > t
    ensures Level(s, t) == Running(s, k)
  {
    if s != [] {
      if k > 0 {
        LevelIsPrefixSum(s[1..], k - 1, t);
        assert s[..k][1..] == s[1..][..k - 1];
      } else {
        LevelIsPrefixSum(s[1..], 0, t);
      }
    }
  }

  /** How many sorted points lie at or before `t`. */
  lemma {:induction false} Cut(s: seq<Point>, t: real) returns (k: nat)
    requires Ascending(s, PointLe)
    ensures k <= |s|
    ensures forall i :: 0 <= i < k ==> s[i].when <= t
    ensures forall i :: k <= i < |s| ==> s[i].when > t
  {
    k := 0;
    while k < |s| && s[k].when <= t
      invariant k <= |s|
      invariant forall i :: 0 <= i < k ==> s[i].when <= t
    {
      k := k + 1;
    }
  }

  lemma {:induction false} LevelBelow(s: seq<Point>, t: real) returns (k: nat)
    requires Ascending(s, PointLe)
    ensures k <= |s| && Level(s, t) == Running(s, k)
    ensures forall i :: 0 <= i < k ==> s[i].when <= t
  {
    k := Cut(s, t);
    LevelIsPrefixSum(s, k, t);
  }

  /** The prefix that first reaches the maximum ends its instant: a later point
      of the same instant would be a start and raise the total further. */
  lemma {:induction false} FirstMaximumEndsItsInstant(s: seq<Point>, j: nat)
    requires Ascending(s, PointLe)
    requires forall p :: p in s ==> p.change == 1 || p.change == -1
    requires 0 < j <= |s|
    requires forall k :: 0 <= k <= |s| ==> Running(s, k) <= Running(s, j)
    requires Running(s, j - 1) < Running(s, j)
    ensures Level(s, s[j - 1].when) == Running(s, j)
  {
    SumExtend(s, j - 1);
    if j < |s| {
      SumExtend(s, j);
      assert s[j] in s && PointLe(s[j - 1], s[j]);
      assert s[j].when > s[j - 1].when;
    }
    LevelIsPrefixSum(s, j, s[j - 1].when);
  }

  lemma {:induction false} SortedPoints(points: seq<Point>)
    ensures Ascending(Sort(points, PointLe), PointLe)
  {
    SortAscending(points, PointLe);
  }

  /** The sweep loop: the largest running total and the first prefix reaching it. */
  method Sweep(sorted: seq<Point>) returns (r: Peaked, ghost first: nat)
    ensures first <= |sorted|
    ensures r == Peaked(Running(sorted, first), if first == 0 then None else Some(sorted[first - 1].when))
    ensures forall k :: 0 <= k <= |sorted| ==> Running(sorted, k) <= r.peak
    ensures forall k :: 0 <= k < first ==> Running(sorted, k) < r.peak
  {
    var current, maximum, at := 0, 0, None;
    var i := 0;
    first := 0;
    while i < |sorted|
      invariant 0 <= first <= i <= |sorted|
      invariant current == Running(sorted, i)
      invariant maximum == Running(sorted, first)
      invariant forall k :: 0 <= k <= i ==> Running(sorted, k) <= maximum
      invariant forall k :: 0 <= k < first ==> Running(sorted, k) < maximum
      invariant at == if first == 0 then None else Some(sorted[first - 1].when)
    {
      SumExtend(sorted, i);
      current := current + sorted[i].change;
      if current > maximum {
        maximum, at, first := current, Some(sorted[i].when), i + 1;
      }
      i := i + 1;
    }
    r := Peaked(maximum, at);
  }

  /** The inner `peak` of overlap. */
  method Peak(points: seq<Point>, ghost intervals: seq<Interval>) returns (r: Peaked)
    requires Proper(intervals) && points == Points(intervals)
    ensures IsPeak(intervals, r)
  {
    var sorted := Sort(points, PointLe);
    SortedPoints(points);
    ghost var first;
    r, first := Sweep(sorted);
    SweepBounds(intervals, sorted, r.peak);
    if first > 0 {
      SweepAttains(intervals, sorted, first);
    } else if intervals != [] {
      assert CountAt(intervals, intervals[0].begin) >= 1;
      assert false;
    }
  }

  lemma {:induction false} CountIsLevel(intervals: seq<Interval>, t: real)
    requires Proper(intervals)
    ensures CountAt(intervals, t) == Level(Sort(Points(intervals), PointLe), t)
  {
    LevelOfPoints(intervals, t);
    LevelSort(Points(intervals), t);
  }

  lemma {:induction false} SweepBounds(intervals: seq<Interval>, sorted: seq<Point>, top: int)
    requires Proper(intervals) && sorted == Sort(Points(intervals), PointLe)
    requires Ascending(sorted, PointLe)
    requires forall k :: 0 <= k <= |sorted| ==> Running(sorted, k) <= top
    ensures forall t: real :: CountAt(intervals, t) <= top
  {
    forall t: real ensures CountAt(intervals, t) <= top {
      CountIsLevel(intervals, t);
      var k := LevelBelow(sorted, t);
    }
  }

  lemma {:induction false} SweepAttains(intervals: seq<Interval>, sorted: seq<Point>, first: nat)
    requires Proper(intervals) && sorted == Sort(Points(intervals), PointLe)
    requires Ascending(sorted, PointLe)
    requires 0 < first <= |sorted|
    requires forall k :: 0 <= k <= |sorted| ==> Running(sorted, k) <= Running(sorted, first)
    requires forall k :: 0 <= k < first ==> Running(sorted, k) < Running(sorted, first)
    ensures CountAt(intervals, sorted[first - 1].when) == Running(sorted, first) > 0
    ensures forall t: real :: t < sorted[first - 1].when ==> CountAt(intervals, t) < Running(sorted, first)
  {
    assert Running(sorted, 0) == 0;
    forall p | p in sorted ensures p.change == 1 || p.change == -1 {
      assert p in multiset(sorted) && p in Points(intervals);
    }
    FirstMaximumEndsItsInstant(sorted, first);
    CountIsLevel(intervals, sorted[first - 1].when);
    forall t: real | t < sorted[first - 1].when ensures CountAt(intervals, t) < Running(sorted, first) {
      CountIsLevel(intervals, t);
      var k := LevelBelow(sorted, t);
      assert k < first;
    }
  }

  // ---- overlap: which records contribute an interval ----

  datatype Record = Record(id: Option<string>, begin: Option<real>, end: Option<real>, owner: string)

  datatype Class = Valid | Missing | Duplicate

  ghost predicate Seen(records: seq<Record>, i: nat)
    requires i < |records|
  {
    exists j :: 0 <= j < i && records[j].id == records[i].id
  }

  /** How record `i` is counted: a build id is used once, by its first record,
      even when that record's own interval is unusable. */
  ghost function ClassOf(records: seq<Record>, i: nat): Class
    requires i < |records|
  {
    var r := records[i];
    if r.id.None? then Missing
    else if Seen(records, i) then Duplicate
    else if r.begin.Some? && r.end.Some? && r.begin.value <= r.end.value then Valid
    else Missing
  }

  ghost function Tally(records: seq<Record>, n: nat, c: Class): nat
    requires n <= |records|
  {
    if n == 0 then 0 else Tally(records, n - 1, c) + if ClassOf(records, n - 1) == c then 1 else 0
  }

  datatype Tagged = Tagged(owner: string, interval: Interval)

  /** The intervals swept: valid and not empty, tagged by owner. */
  ghost function Swept(records: seq<Record>, n: nat): (r: seq<Tagged>)
    requires n <= |records|
    ensures forall x :: x in r ==> x.interval.begin < x.interval.end
  {
    if n == 0 then [] else
    var r, rest := records[n - 1], Swept(records, n - 1);
    if ClassOf(records, n - 1) == Valid && r.begin != r.end
    then rest + [Tagged(r.owner, Interval(r.begin.value, r.end.value))] else rest
  }

  ghost function All(tagged: seq<Tagged>): seq<Interval>
  {
    if tagged == [] then [] else All(tagged[..|tagged| - 1]) + [tagged[|tagged| - 1].interval]
  }

  ghost function OwnedBy(tagged: seq<Tagged>, owner: string): seq<Interval>
  {
    if tagged == [] then [] else
    var last, rest := tagged[|tagged| - 1], OwnedBy(tagged[..|tagged| - 1], owner);
    if last.owner == owner then rest + [last.interval] else rest
  }

  ghost function Owners(tagged: seq<Tagged>): set<string>
  {
    set x | x in tagged :: x.owner
  }

  lemma {:induction false} PointsAppend(a: seq<Interval>, x: Interval)
    ensures Points(a + [x]) == Points(a) + [Point(x.begin, 1), Point(x.end, -1)]
  {
    if a == [] {
      assert a + [x] == [x] && [x][1..] == [];
    } else {
      PointsAppend(a[1..], x);
      assert (a + [x])[1..] == a[1..] + [x];
    }
  }

  lemma {:induction false} CountAtAppend(a: seq<Interval>, x: Interval, t: real)
    ensures CountAt(a + [x], t) == CountAt(a, t) + if x.begin <= t < x.end then 1 else 0
  {
    if a == [] {
      assert a + [x] == [x] && [x][1..] == [];
    } else {
      CountAtAppend(a[1..], x, t);
      assert (a + [x])[1..] == a[1..] + [x];
    }
  }

  lemma {:induction false} OwnersPartition(tagged: seq<Tagged>, owner: string, t: real)
    ensures CountAt(OwnedBy(tagged, owner), t) <= CountAt(All(tagged), t)
  {
    if tagged != [] {
      var last, front := tagged[|tagged| - 1], tagged[..|tagged| - 1];
      OwnersPartition(front, owner, t);
      CountAtAppend(All(front), last.interval, t);
      CountAtAppend(OwnedBy(front, owner), last.interval, t);
    }
  }

  lemma {:induction false} ProperParts(tagged: seq<Tagged>, owner: string)
    requires forall x :: x in tagged ==> x.interval.begin < x.interval.end
    ensures Proper(All(tagged)) && Proper(OwnedBy(tagged, owner))
  {
    if tagged != [] { ProperParts(tagged[..|tagged| - 1], owner); }
  }

  datatype Report = Report(total: Peaked, valid: nat, missing: nat, duplicate: nat, byOwner: map<string, Peaked>)

  /** `perOwner`, a dictionary of lists, groups the swept intervals' points. */
  ghost predicate Grouped(perOwner: map<string, seq<Point>>, tagged: seq<Tagged>)
  {
    && perOwner.Keys == Owners(tagged)
    && (forall o :: o in perOwner ==> perOwner[o] == Points(OwnedBy(tagged, o)))
    && (forall o :: o !in perOwner ==> OwnedBy(tagged, o) == [])
  }

  function Extended(perOwner: map<string, seq<Point>>, owner: string, points: seq<Point>): map<string, seq<Point>>
  {
    perOwner[owner := (if owner in perOwner then perOwner[owner] else []) + points]
  }

  lemma {:induction false} AppendTagged(tagged: seq<Tagged>, x: Tagged)
    ensures Points(All(tagged + [x])) == Points(All(tagged)) + [Point(x.interval.begin, 1), Point(x.interval.end, -1)]
    ensures Points(OwnedBy(tagged + [x], x.owner))
         == Points(OwnedBy(tagged, x.owner)) + [Point(x.interval.begin, 1), Point(x.interval.end, -1)]
    ensures forall o :: o != x.owner ==> OwnedBy(tagged + [x], o) == OwnedBy(tagged, o)
    ensures Owners(tagged + [x]) == Owners(tagged) + {x.owner}
  {
    assert (tagged + [x])[..|tagged|] == tagged;
    PointsAppend(All(tagged), x.interval);
    PointsAppend(OwnedBy(tagged, x.owner), x.interval);
    assert forall y :: y in tagged + [x] <==> y in tagged || y == x;
  }

  lemma {:induction false} GroupedExtends(perOwner: map<string, seq<Point>>, tagged: seq<Tagged>, x: Tagged)
    requires Grouped(perOwner, tagged)
    ensures Grouped(Extended(perOwner, x.owner, [Point(x.interval.begin, 1), Point(x.interval.end, -1)]), tagged + [x])
  {
    AppendTagged(tagged, x);
  }

  /** Every record is counted once, under its class. */
  ghost predicate Tallied(records: seq<Record>, valid: nat, missing: nat, duplicate: nat)
  {
    && valid == Tally(records, |records|, Valid) && missing == Tally(records, |records|, Missing)
    && duplicate == Tally(records, |records|, Duplicate) && valid + missing + duplicate == |records|
  }

  /** The points of the swept intervals, together and by owner. */
  ghost predicate Collected(records: seq<Record>, events: seq<Point>, perOwner: map<string, seq<Point>>)
  {
    events == Points(All(Swept(records, |records|))) && Grouped(perOwner, Swept(records, |records|))
  }

  /** The exact peaks of all swept intervals and of each owner's. */
  ghost predicate HasPeaks(records: seq<Record>, total: Peaked, byOwner: map<string, Peaked>)
  {
    var swept := Swept(records, |records|);
    && IsPeak(All(swept), total) && byOwner.Keys == Owners(swept)
    && forall o :: o in byOwner ==> IsPeak(OwnedBy(swept, o), byOwner[o])
  }

  lemma {:induction false} NothingCollected()
    ensures Points(All([])) == [] && Grouped(map[], [])
  {
  }

  /** The record loop of overlap. */
  method Collect(records: seq<Record>)
    returns (events: seq<Point>, perOwner: map<string, seq<Point>>, valid: nat, missing: nat, duplicate: nat)
    ensures Tallied(records, valid, missing, duplicate)
    ensures Collected(records, events, perOwner)
  {
    hide All, Points, OwnedBy, Owners, Grouped, Extended;
    events, perOwner := [], map[];
    NothingCollected();
    var seen: set<string> := {};
    missing, duplicate, valid := 0, 0, 0;
    var i := 0;
    while i < |records|
      invariant 0 <= i <= |records|
      invariant forall s :: s in seen <==> exists j :: 0 <= j < i && records[j].id == Some(s)
      invariant valid == Tally(records, i, Valid)
      invariant missing == Tally(records, i, Missing)
      invariant duplicate == Tally(records, i, Duplicate)
      invariant valid + missing + duplicate == i
      invariant events == Points(All(Swept(records, i)))
      invariant Grouped(perOwner, Swept(records, i))
    {
      var record := records[i];
      assert record.id.Some? ==> (Seen(records, i) <==> record.id.value in seen);
      i := i + 1;
      if record.id.None? {
        missing := missing + 1;
        continue;
      }
      if record.id.value in seen {
        duplicate := duplicate + 1;
        continue;
      }
      seen := seen + {record.id.value};
      if record.begin.None? || record.end.None? || record.end.value < record.begin.value {
        missing := missing + 1;
        continue;
      }
      valid := valid + 1;
      if record.end == record.begin {
        continue;
      }
      var interval := [Point(record.begin.value, 1), Point(record.end.value, -1)];
      ghost var x := Tagged(record.owner, Interval(record.begin.value, record.end.value));
      AppendTagged(Swept(records, i - 1), x);
      GroupedExtends(perOwner, Swept(records, i - 1), x);
      events := events + interval;
      perOwner := Extended(perOwner, record.owner, interval);
    }
  }

  method Overlap(records: seq<Record>) returns (r: Report)
    ensures Tallied(records, r.valid, r.missing, r.duplicate)
    ensures HasPeaks(records, r.total, r.byOwner)
  {
    var events, perOwner, valid, missing, duplicate := Collect(records);
    ghost var swept := Swept(records, |records|);
    ProperParts(swept, "");
    var total := Peak(events, All(swept));
    var byOwner := PeakByOwner(perOwner, swept);
    r := Report(total, valid, missing, duplicate, byOwner);
  }

  method PeakByOwner(perOwner: map<string, seq<Point>>, ghost swept: seq<Tagged>) returns (byOwner: map<string, Peaked>)
    requires Grouped(perOwner, swept)
    requires forall x :: x in swept ==> x.interval.begin < x.interval.end
    ensures byOwner.Keys == Owners(swept)
    ensures forall o :: o in byOwner ==> IsPeak(OwnedBy(swept, o), byOwner[o])
  {
    byOwner := map[];
    var rest := perOwner.Keys;
    while rest != {}
      invariant rest <= perOwner.Keys
      invariant byOwner.Keys == perOwner.Keys - rest
      invariant forall o :: o in byOwner ==> IsPeak(OwnedBy(swept, o), byOwner[o])
      decreases |rest|
    {
      var o :| o in rest;
      ProperParts(swept, o);
      var peak := Peak(perOwner[o], OwnedBy(swept, o));
      byOwner := byOwner[o := peak];
      rest := rest - {o};
    }
  }

  // ---- owners against the whole ----

  ghost function PeakSum(owners: seq<string>, byOwner: map<string, Peaked>): int
    requires forall o :: o in owners ==> o in byOwner
  {
    if owners == [] then 0 else byOwner[owners[0]].peak + PeakSum(owners[1..], byOwner)
  }

  ghost function CountSum(owners: seq<string>, tagged: seq<Tagged>, t: real): nat
  {
    if owners == [] then 0 else CountAt(OwnedBy(tagged, owners[0]), t) + CountSum(owners[1..], tagged, t)
  }

  lemma {:induction false} CountSumAppend(owners: seq<string>, front: seq<Tagged>, x: Tagged, t: real)
    ensures CountSum(owners, front + [x], t) >= CountSum(owners, front, t)
    ensures x.owner in owners && x.interval.begin <= t < x.interval.end ==>
              CountSum(owners, front + [x], t) >= CountSum(owners, front, t) + 1
  {
    if owners != [] {
      CountSumAppend(owners[1..], front, x, t);
      assert (front + [x])[..|front|] == front;
      CountAtAppend(OwnedBy(front, owners[0]), x.interval, t);
    }
  }

  lemma {:induction false} CountCovered(owners: seq<string>, tagged: seq<Tagged>, t: real)
    requires Owners(tagged) <= set o | o in owners
    ensures CountAt(All(tagged), t) <= CountSum(owners, tagged, t)
  {
    if tagged != [] {
      var last, front := tagged[|tagged| - 1], tagged[..|tagged| - 1];
      assert tagged == front + [last];
      assert last.owner in Owners(tagged);
      CountCovered(owners, front, t);
      CountSumAppend(owners, front, last, t);
      CountAtAppend(All(front), last.interval, t);
    }
  }

  lemma {:induction false} CountSumAtMostPeakSum(owners: seq<string>, tagged: seq<Tagged>,
                                                 byOwner: map<string, Peaked>, t: real)
    requires forall o :: o in owners ==> o in byOwner && IsPeak(OwnedBy(tagged, o), byOwner[o])
    ensures CountSum(owners, tagged, t) <= PeakSum(owners, byOwner)
  {
    if owners != [] {
      CountSumAtMostPeakSum(owners[1..], tagged, byOwner, t);
      assert CountAt(OwnedBy(tagged, owners[0]), t) <= byOwner[owners[0]].peak;
    }
  }

  /** Every owner's peak is at most the global peak, and the global peak is at
      most the sum of the owners' peaks, in whatever order they are listed. */
  lemma {:induction false} OwnerPeaksBracketTotal(tagged: seq<Tagged>, total: Peaked, byOwner: map<string, Peaked>, owners: seq<string>)
    requires IsPeak(All(tagged), total)
    requires byOwner.Keys == Owners(tagged) == set o | o in owners
    requires forall o :: o in byOwner ==> IsPeak(OwnedBy(tagged, o), byOwner[o])
    ensures forall o :: o in byOwner ==> byOwner[o].peak <= total.peak
    ensures total.peak <= PeakSum(owners, byOwner)
  {
    forall o | o in byOwner ensures byOwner[o].peak <= total.peak {
      var t := if byOwner[o].at.Some? then byOwner[o].at.value else 0.0;
      OwnersPartition(tagged, o, t);
      assert CountAt(All(tagged), t) <= total.peak;
    }
    var t := if total.at.Some? then total.at.value else 0.0;
    CountCovered(owners, tagged, t);
    assert forall o :: o in owners ==> o in byOwner.Keys;
    CountSumAtMostPeakSum(owners, tagged, byOwner, t);
  }
}
