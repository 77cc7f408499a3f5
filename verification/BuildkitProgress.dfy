/** parse_progress of scripts/analyze_buildkit_progress.py over tokenised lines: the log
    interleaves the lines of concurrent vertices. Durations are reals. */
module BuildkitProgress {
  import opened Wrappers
  import opened Sorting
  import opened Percentiles
  import opened Gathering

  datatype VertexId = VertexId(number: int)

  datatype Status = Incomplete | Done | Cached | Canceled | Errored

  /** A line after the regular expressions: `key` is an operation's text without its duration. */
  datatype Line =
    | NonProgress
    | Banner
    | Output(id: VertexId)
    | Terminal(id: VertexId, status: Status, seconds: Option<real>)
    | Header(id: VertexId, fields: map<string, string>)
    | Transfer(id: VertexId, digest: string, bytes: real)
    | Completion(id: VertexId, extracting: bool, op: string, key: string, seconds: Option<real>)
    | Unclassified(id: VertexId, extracting: bool)

  datatype Op = Op(name: string, key: string, seconds: Option<real>)

  datatype Vertex = Vertex(fields: map<string, string>, headerSeen: bool, status: Status, seconds: Option<real>,
                           terminals: nat, statusesSeen: seq<Status>, outputs: nat, evidence: bool,
                           ops: seq<Op>, transfers: seq<(string, real)>)

  const BLANK: Vertex :=
    Vertex(map["category" := "unknown"], false, Incomplete, None, 0, [], 0, false, [], [])

  // ---- dictionaries as association lists: an update keeps the key's place ----

  function PutOp(ops: seq<Op>, op: Op): seq<Op>
  {
    if ops == [] then [op]
    else if (ops[0].name, ops[0].key) == (op.name, op.key) then [op] + ops[1..]
    else [ops[0]] + PutOp(ops[1..], op)
  }

  function PutMax(transfers: seq<(string, real)>, digest: string, bytes: real): seq<(string, real)>
  {
    if transfers == [] then [(digest, if bytes > 0.0 then bytes else 0.0)]
    else if transfers[0].0 == digest then
      [(digest, if bytes > transfers[0].1 then bytes else transfers[0].1)] + transfers[1..]
    else [transfers[0]] + PutMax(transfers[1..], digest, bytes)
  }

  /** What one of its lines does to a vertex. */
  function Apply(v: Vertex, line: Line): Vertex
  {
    match line
    case Output(_) => v.(outputs := v.outputs + 1)
    case Terminal(_, status, seconds) =>
      v.(statusesSeen := if status in v.statusesSeen then v.statusesSeen else v.statusesSeen + [status],
         status := status, terminals := v.terminals + 1, seconds := if status == Done then seconds else None)
    case Header(_, fields) => v.(fields := v.fields + fields, headerSeen := true)
    case Transfer(_, digest, bytes) => v.(transfers := PutMax(v.transfers, digest, bytes), evidence := true)
    case Completion(_, extracting, op, key, seconds) =>
      v.(evidence := v.evidence || extracting, ops := PutOp(v.ops, Op(op, key, seconds)))
    case Unclassified(_, extracting) => v.(evidence := v.evidence || extracting)
    case _ => v
  }

  predicate Owned(line: Line) { !line.NonProgress? && !line.Banner? }

  // ---- the specification: each vertex folds its own lines ----

  ghost function Own(lines: seq<Line>, id: VertexId): seq<Line>
  {
    if lines == [] then [] else
    var last, rest := lines[|lines| - 1], Own(lines[..|lines| - 1], id);
    if Owned(last) && last.id == id then rest + [last] else rest
  }

  ghost function Folded(own: seq<Line>): Vertex
  {
    if own == [] then BLANK else Apply(Folded(own[..|own| - 1]), own[|own| - 1])
  }

  /** Vertices in the order of their first line. */
  ghost function FirstSeen(lines: seq<Line>): (r: seq<VertexId>)
    ensures forall id :: id in r <==> Own(lines, id) != []
    ensures forall i, j :: 0 <= i < j < |r| ==> r[i] != r[j]
  {
    if lines == [] then [] else
    var last, rest := lines[|lines| - 1], FirstSeen(lines[..|lines| - 1]);
    if Owned(last) && last.id !in rest then rest + [last.id] else rest
  }

  predicate IdLe(a: VertexId, b: VertexId) { a.number <= b.number }

  // ---- the report ----

  /** timing_category. */
  function Timing(v: Vertex): string
  {
    if v.evidence then
      if v.outputs > 0 then "mixed_execution_materialization"
      else if Cached in v.statusesSeen then "cached_layer_materialization" else "layer_materialization"
    else if "category" in v.fields then v.fields["category"] else "unknown"
  }

  datatype Distribution =
    Distribution(count: nat, sum: real, mean: Option<real>, median: Option<real>, p95: Option<real>, max: Option<real>)

  function DistributionOf(values: seq<real>): Distribution
  {
    var o := Sort(values, RealLe);
    var n := |o|;
    if n == 0 then Distribution(0, 0.0, None, None, None, None)
    else Distribution(n, Total(o), Some(Total(o) / n as real),
                      Some(if n % 2 == 1 then o[n / 2] else (o[n / 2 - 1] + o[n / 2]) / 2.0),
                      Percentile(o, 0.95), Some(o[n - 1]))
  }

  // ---- what a vertex's fields and the report's figures say of its lines ----

  predicate Evident(line: Line)
  {
    line.Transfer? || ((line.Completion? || line.Unclassified?) && line.extracting)
  }

  predicate Ends(line: Line, status: Status) { line.Terminal? && line.status == status }

  ghost function Count(own: seq<Line>, p: Line -> bool): nat
  {
    if own == [] then 0 else Count(own[..|own| - 1], p) + if p(own[|own| - 1]) then 1 else 0
  }

  /** Line `k` is the last one with a property. */
  ghost predicate LastWith(own: seq<Line>, p: Line -> bool, k: int)
  {
    0 <= k < |own| && p(own[k]) && forall l :: k < l < |own| ==> !p(own[l])
  }

  lemma {:induction false} FrontLines(own: seq<Line>)
    requires own != []
    ensures var front := own[..|own| - 1];
            Folded(own) == Apply(Folded(front), own[|own| - 1]) && forall k :: 0 <= k < |front| ==> front[k] == own[k]
  {
  }

  /** Counters and flags of a vertex, from its own lines. */
  lemma {:induction false} FoldedFlags(own: seq<Line>)
    ensures var v := Folded(own);
            && v.outputs == Count(own, (x: Line) => x.Output?) && v.terminals == Count(own, (x: Line) => x.Terminal?)
            && (v.evidence <==> exists k :: 0 <= k < |own| && Evident(own[k]))
            && (v.headerSeen <==> exists k :: 0 <= k < |own| && own[k].Header?)
            && (forall s :: s in v.statusesSeen <==> exists k :: 0 <= k < |own| && Ends(own[k], s))
  {
    if own != [] {
      FrontLines(own);
      FoldedFlags(own[..|own| - 1]);
      hide Folded, PutOp, PutMax;
    }
  }

  lemma {:induction false} CountSome(own: seq<Line>, p: Line -> bool)
    ensures Count(own, p) > 0 <==> exists k :: 0 <= k < |own| && p(own[k])
  {
    if own != [] {
      var front := own[..|own| - 1];
      CountSome(front, p);
      assert forall k :: 0 <= k < |front| ==> front[k] == own[k];
    }
  }

  /** The last terminal line decides a vertex's status and duration. */
  lemma {:induction false} FoldedStatus(own: seq<Line>, k: int)
    requires LastWith(own, (x: Line) => x.Terminal?, k)
    ensures Folded(own).status == own[k].status
    ensures Folded(own).seconds == if own[k].status == Done then own[k].seconds else None
  {
    FrontLines(own);
    if k < |own| - 1 {
      var front := own[..|own| - 1];
      assert front[k] == own[k] && !own[|own| - 1].Terminal?;
      FoldedStatus(front, k);
    }
  }

  lemma {:induction false} FoldedUnfinished(own: seq<Line>)
    requires forall k :: 0 <= k < |own| ==> !own[k].Terminal?
    ensures Folded(own).status == Incomplete && Folded(own).seconds == None
  {
    if own != [] {
      FrontLines(own);
      assert !own[|own| - 1].Terminal?;
      FoldedUnfinished(own[..|own| - 1]);
    }
  }

  /** The last header with a field gives it. */
  lemma {:induction false} FoldedField(own: seq<Line>, field: string, k: int)
    requires LastWith(own, (x: Line) => x.Header? && field in x.fields, k)
    ensures field in Folded(own).fields && Folded(own).fields[field] == own[k].fields[field]
  {
    FrontLines(own);
    if k < |own| - 1 {
      var front, last := own[..|own| - 1], own[|own| - 1];
      assert front[k] == own[k] && !(last.Header? && field in last.fields);
      FoldedField(front, field, k);
    }
  }

  lemma {:induction false} FoldedNoField(own: seq<Line>, field: string)
    requires forall k :: 0 <= k < |own| ==> !(own[k].Header? && field in own[k].fields)
    ensures field in Folded(own).fields <==> field == "category"
    ensures field == "category" ==> Folded(own).fields[field] == "unknown"
  {
    if own != [] {
      FrontLines(own);
      var last := own[|own| - 1];
      assert !(last.Header? && field in last.fields);
      FoldedNoField(own[..|own| - 1], field);
    }
  }

  predicate Completes(line: Line, name: string, key: string)
  {
    line.Completion? && line.op == name && line.key == key
  }

  lemma {:induction false} PutOpMembers(ops: seq<Op>, op: Op, x: Op)
    ensures op in PutOp(ops, op)
    ensures (x.name, x.key) != (op.name, op.key) ==> (x in PutOp(ops, op) <==> x in ops)
  {
    if ops != [] {
      PutOpMembers(ops[1..], op, x);
      assert ops == [ops[0]] + ops[1..];
      if (ops[0].name, ops[0].key) == (op.name, op.key) {
        assert ([op] + ops[1..])[0] == op;
      } else {
        assert x in [ops[0]] + PutOp(ops[1..], op) <==> x == ops[0] || x in PutOp(ops[1..], op);
        assert op in [ops[0]] + PutOp(ops[1..], op);
      }
    }
  }

  /** An operation is recorded with the duration of its last completion. */
  lemma {:induction false} FoldedOp(own: seq<Line>, name: string, key: string, k: int)
    requires LastWith(own, (x: Line) => Completes(x, name, key), k)
    ensures Op(name, key, own[k].seconds) in Folded(own).ops
  {
    FrontLines(own);
    var front, last := own[..|own| - 1], own[|own| - 1];
    hide Folded, PutOp, PutMax;
    if last.Completion? {
      PutOpMembers(Folded(front).ops, Op(last.op, last.key, last.seconds), Op(name, key, own[k].seconds));
    }
    if k < |own| - 1 {
      assert front[k] == own[k] && !Completes(last, name, key);
      FoldedOp(front, name, key, k);
    }
  }

  /** At most one record of an operation. */
  ghost predicate OneEach(ops: seq<Op>)
  {
    forall i, j :: 0 <= i < j < |ops| ==> (ops[i].name, ops[i].key) != (ops[j].name, ops[j].key)
  }

  lemma {:induction false} PutOpOne(ops: seq<Op>, op: Op)
    requires OneEach(ops)
    ensures OneEach(PutOp(ops, op))
    ensures forall x :: x in PutOp(ops, op) && (x.name, x.key) == (op.name, op.key) ==> x == op
  {
    if ops != [] {
      var rest := ops[1..];
      assert forall i :: 0 <= i < |rest| ==> rest[i] == ops[i + 1];
      if (ops[0].name, ops[0].key) != (op.name, op.key) {
        PutOpOne(rest, op);
        forall x | x in PutOp(rest, op) ensures (x.name, x.key) != (ops[0].name, ops[0].key) { PutOpMembers(rest, op, x); }
      }
    }
  }

  /** No other operation is recorded, and none twice. */
  lemma {:induction false} FoldedOpsOnly(own: seq<Line>, x: Op) returns (k: int)
    ensures OneEach(Folded(own).ops)
    ensures x in Folded(own).ops ==> LastWith(own, (y: Line) => Completes(y, x.name, x.key), k) && own[k].seconds == x.seconds
  {
    k := 0;
    if own != [] {
      FrontLines(own);
      var front, last := own[..|own| - 1], own[|own| - 1];
      k := FoldedOpsOnly(front, x);
      hide Folded, PutOp, PutMax, OneEach;
      if last.Completion? {
        PutOpOne(Folded(front).ops, Op(last.op, last.key, last.seconds));
        PutOpMembers(Folded(front).ops, Op(last.op, last.key, last.seconds), x);
      }
      if Completes(last, x.name, x.key) { k := |own| - 1; }
    }
  }

  lemma {:induction false} MaxMembers(transfers: seq<(string, real)>, digest: string, bytes: real, other: string)
    requires Distinct(transfers)
    ensures Distinct(PutMax(transfers, digest, bytes))
    ensures Received(PutMax(transfers, digest, bytes), other)
         == if other != digest then Received(transfers, other)
            else if bytes > Received(transfers, digest) then bytes else Received(transfers, digest)
  {
    if transfers != [] {
      var rest := transfers[1..];
      assert forall i :: 0 <= i < |rest| ==> rest[i] == transfers[i + 1];
      MaxMembers(rest, digest, bytes, other);
      if transfers[0].0 == digest {
        var put := [(digest, if bytes > transfers[0].1 then bytes else transfers[0].1)] + rest;
        assert put[1..] == rest;
      } else {
        var put := [transfers[0]] + PutMax(rest, digest, bytes);
        assert put[1..] == PutMax(rest, digest, bytes);
        PutDigests(rest, digest, bytes, transfers[0].0);
      }
    }
  }

  lemma {:induction false} PutDigests(transfers: seq<(string, real)>, digest: string, bytes: real, other: string)
    requires other != digest && forall i :: 0 <= i < |transfers| ==> transfers[i].0 != other
    ensures forall i :: 0 <= i < |PutMax(transfers, digest, bytes)| ==> PutMax(transfers, digest, bytes)[i].0 != other
  {
    if transfers != [] { PutDigests(transfers[1..], digest, bytes, other); }
  }

  ghost predicate Distinct(transfers: seq<(string, real)>)
  {
    && (forall i :: 0 <= i < |transfers| ==> transfers[i].1 >= 0.0)
    && forall i, j :: 0 <= i < j < |transfers| ==> transfers[i].0 != transfers[j].0
  }

  /** The bytes recorded for a layer; 0 without a record. */
  function Received(transfers: seq<(string, real)>, digest: string): real
  {
    if transfers == [] then 0.0
    else if transfers[0].0 == digest then transfers[0].1 else Received(transfers[1..], digest)
  }

  /** A layer's transferred bytes are the most any of its lines reports. */
  lemma {:induction false} FoldedTransfers(own: seq<Line>, digest: string)
    ensures Distinct(Folded(own).transfers)
    ensures var most := Received(Folded(own).transfers, digest);
            && (forall k :: 0 <= k < |own| && own[k].Transfer? && own[k].digest == digest ==> own[k].bytes <= most)
            && (most == 0.0 || exists k :: 0 <= k < |own| && own[k].Transfer? && own[k].digest == digest && own[k].bytes == most)
  {
    if own != [] {
      FrontLines(own);
      var front, last := own[..|own| - 1], own[|own| - 1];
      FoldedTransfers(front, digest);
      hide Folded, PutMax, PutOp, Received, Distinct;
      if last.Transfer? { MaxMembers(Folded(front).transfers, last.digest, last.bytes, digest); }
    }
  }

  /** timing_category, from a vertex's own lines. */
  lemma {:induction false} TimingMeaning(own: seq<Line>)
    ensures var t := Timing(Folded(own));
            if exists k :: 0 <= k < |own| && Evident(own[k]) then
              if exists k :: 0 <= k < |own| && own[k].Output? then t == "mixed_execution_materialization"
              else if exists k :: 0 <= k < |own| && Ends(own[k], Cached) then t == "cached_layer_materialization"
              else t == "layer_materialization"
            else
              && ((forall k :: 0 <= k < |own| ==> !(own[k].Header? && "category" in own[k].fields)) ==> t == "unknown")
              && forall k :: LastWith(own, (x: Line) => x.Header? && "category" in x.fields, k) ==>
                   t == own[k].fields["category"]
  {
    FoldedFlags(own);
    CountSome(own, (x: Line) => x.Output?);
    hide Folded;
    if forall k :: 0 <= k < |own| ==> !(own[k].Header? && "category" in own[k].fields) { FoldedNoField(own, "category"); }
    forall k | LastWith(own, (x: Line) => x.Header? && "category" in x.fields, k)
      ensures "category" in Folded(own).fields && Folded(own).fields["category"] == own[k].fields["category"]
    {
      FoldedField(own, "category", k);
    }
  }

  /** The middle of the values: the mean of the least value that half of them do not exceed and the least that more than
      half do not exceed. */
  ghost predicate IsMedian(values: seq<real>, m: real)
  {
    exists lo, hi ::
      && lo in values && hi in values && m == (lo + hi) / 2.0
      && 2 * CountLe(values, lo) >= |values| && (forall y: real :: y < lo ==> 2 * CountLe(values, y) < |values|)
      && 2 * CountLe(values, hi) > |values| && (forall y: real :: y < hi ==> 2 * CountLe(values, y) <= |values|)
  }

  /** What a distribution says of its values. */
  lemma {:induction false} DistributionMeaning(values: seq<real>)
    requires values != []
    ensures var d := DistributionOf(values);
            && d.count == |values| && d.sum == Total(values)
            && d.mean.Some? && d.mean.value * |values| as real == Total(values)
            && d.median.Some? && IsMedian(values, d.median.value)
            && d.p95.Some? && NearestRank(values, 0.95, d.p95.value)
            && d.max.Some? && d.max.value in values && forall x :: x in values ==> x <= d.max.value
  {
    hide Percentile, NearestRank, IsMedian, Sort, Total;
    var o := Sort(values, RealLe);
    TotalSort(values);
    MeanTimesCount(Total(o), |o|);
    SortedNearestRank(values, 0.95);
    SortedExtremes(values);
    MedianOf(values);
  }

  lemma {:induction false} MedianOf(values: seq<real>)
    requires values != []
    ensures var o, n := Sort(values, RealLe), |values|;
            IsMedian(values, if n % 2 == 1 then o[n / 2] else (o[n / 2 - 1] + o[n / 2]) / 2.0)
  {
    hide CountLe, Sort, Ascending;
    var o, n := Sort(values, RealLe), |values|;
    var lo, hi := o[(n - 1) / 2], o[n / 2];
    SortedReals(values);
    MembersOf(o, values);
    MiddleCounts(values, (n - 1) / 2);
    MiddleCounts(values, n / 2);
    assert lo in values && hi in values;
  }

  lemma {:induction false} MiddleCounts(values: seq<real>, k: nat)
    requires k < |values|
    ensures var v := Sort(values, RealLe)[k];
            CountLe(values, v) >= k + 1 && forall y: real :: y < v ==> CountLe(values, y) <= k
  {
    hide CountLe, Sort;
    var o := Sort(values, RealLe);
    SortedReals(values);
    RankCounts(o, k, o[k]);
    CountLeSort(values, o[k]);
    forall y: real | y < o[k] ensures CountLe(values, y) <= k {
      RankCounts(o, k, y);
      CountLeSort(values, y);
    }
  }

  type Vertices = map<VertexId, Vertex>

  /** What a vertex adds to the totals. */
  datatype Part = StatusPart(status: Status) | SecondsPart(category: string, seconds: real) | OpPart(op: Op)

  function OpParts(ops: seq<Op>): seq<Part>
  {
    if ops == [] then [] else OpParts(ops[..|ops| - 1]) + [OpPart(ops[|ops| - 1])]
  }

  function PartsOf(v: Vertex): seq<Part>
  {
    OpParts(v.ops)
    + (if v.status == Done && v.seconds.Some? then [SecondsPart(Timing(v), v.seconds.value)] else [])
    + [StatusPart(v.status)]
  }

  function PartsAt(vs: Vertices, id: VertexId): seq<Part> { if id in vs then PartsOf(vs[id]) else [] }

  function AllParts(vs: Vertices, order: seq<VertexId>): seq<Part> { Gather(order, id => PartsAt(vs, id)) }

  function StatusIn(x: Part): seq<Status> { if x.StatusPart? then [x.status] else [] }

  function SecondsIn(c: string, x: Part): seq<real> { if x.SecondsPart? && x.category == c then [x.seconds] else [] }

  function OpIn(o: string, x: Part): seq<Op> { if x.OpPart? && x.op.name == o then [x.op] else [] }

  function TimedIn(o: string, x: Part): seq<real>
  {
    if x.OpPart? && x.op.name == o && x.op.seconds.Some? then [x.op.seconds.value] else []
  }

  function Statuses(parts: seq<Part>): seq<Status> { Gather(parts, x => StatusIn(x)) }

  function SecondsFor(parts: seq<Part>, c: string): seq<real> { Gather(parts, x => SecondsIn(c, x)) }

  function OpsFor(parts: seq<Part>, o: string): seq<Op> { Gather(parts, x => OpIn(o, x)) }

  function TimedFor(parts: seq<Part>, o: string): seq<real> { Gather(parts, x => TimedIn(o, x)) }

  /** The running dictionaries; a category or operation not met yet has no entry. */
  datatype Totals = Totals(statuses: multiset<Status>, seconds: map<string, real>, counts: map<string, nat>,
                           timed: map<string, seq<real>>)

  ghost predicate Accumulates(t: Totals, parts: seq<Part>)
  {
    && t.statuses == multiset(Statuses(parts))
    && (forall c :: c in t.seconds <==> SecondsFor(parts, c) != [])
    && (forall c :: c in t.seconds ==> t.seconds[c] == Total(SecondsFor(parts, c)))
    && t.timed.Keys == t.counts.Keys
    && (forall o :: o in t.counts <==> OpsFor(parts, o) != [])
    && (forall o :: o in t.counts ==> t.counts[o] == |OpsFor(parts, o)| && t.timed[o] == TimedFor(parts, o))
  }

  // ---- the first loop ----

  /** The line loop: `vertices` is the dictionary of parse_progress, `order` its insertion order. */
  method ParseLines(lines: seq<Line>) returns (vertices: Vertices, order: seq<VertexId>)
    ensures order == FirstSeen(lines)
    ensures forall id :: id in vertices <==> id in order
    ensures forall id :: id in vertices ==> vertices[id] == Folded(Own(lines, id))
  {
    hide Apply;
    vertices, order := map[], [];
    var i := 0;
    while i < |lines|
      invariant 0 <= i <= |lines|
      invariant order == FirstSeen(lines[..i])
      invariant forall id :: id in vertices <==> id in order
      invariant forall id :: id in vertices ==> vertices[id] == Folded(Own(lines[..i], id))
    {
      var line := lines[i];
      assert lines[..i + 1][..i] == lines[..i];
      i := i + 1;
      if !Owned(line) { continue; }
      OwnNext(lines[..i]);
      if line.id !in vertices {
        vertices := vertices[line.id := BLANK];
        order := order + [line.id];
      }
      vertices := vertices[line.id := Apply(vertices[line.id], line)];
    }
    assert lines[..i] == lines;
  }

  lemma {:induction false} OwnNext(lines: seq<Line>)
    requires lines != [] && Owned(lines[|lines| - 1])
    ensures var front, line := lines[..|lines| - 1], lines[|lines| - 1];
            && Folded(Own(lines, line.id)) == Apply(Folded(Own(front, line.id)), line)
            && forall id :: id != line.id ==> Own(lines, id) == Own(front, id)
  {
    hide Apply;
    var front, line := lines[..|lines| - 1], lines[|lines| - 1];
    var own := Own(front, line.id);
    assert (own + [line])[..|own|] == own;
  }

  // ---- the second loop ----

  function Listed(m: map<string, seq<real>>, k: string): seq<real> { if k in m then m[k] else [] }

  /** Adds one part to the dictionaries. */
  function Step(t: Totals, x: Part): Totals
  {
    match x
    case StatusPart(s) => t.(statuses := t.statuses + multiset{s})
    case SecondsPart(c, n) => t.(seconds := t.seconds[c := (if c in t.seconds then t.seconds[c] else 0.0) + n])
    case OpPart(op) =>
      t.(counts := t.counts[op.name := (if op.name in t.counts then t.counts[op.name] else 0) + 1],
         timed := t.timed[op.name := Listed(t.timed, op.name) + if op.seconds.Some? then [op.seconds.value] else []])
  }

  lemma {:induction false} StatusesNext(parts: seq<Part>, x: Part)
    ensures Statuses(parts + [x]) == Statuses(parts) + StatusIn(x)
  {
    GatherNext(parts, x, y => StatusIn(y));
  }

  lemma {:induction false} SecondsNext(parts: seq<Part>, x: Part, c: string)
    ensures SecondsFor(parts + [x], c) == SecondsFor(parts, c) + SecondsIn(c, x)
  {
    GatherNext(parts, x, y => SecondsIn(c, y));
  }

  lemma {:induction false} OpsNext(parts: seq<Part>, x: Part, o: string)
    ensures OpsFor(parts + [x], o) == OpsFor(parts, o) + OpIn(o, x)
    ensures TimedFor(parts + [x], o) == TimedFor(parts, o) + TimedIn(o, x)
  {
    GatherNext(parts, x, y => OpIn(o, y));
    GatherNext(parts, x, y => TimedIn(o, y));
  }

  lemma {:induction false} NoneTimed(parts: seq<Part>, o: string)
    requires OpsFor(parts, o) == []
    ensures TimedFor(parts, o) == []
  {
    if parts != [] {
      var front, last := parts[..|parts| - 1], parts[|parts| - 1];
      assert parts == front + [last];
      OpsNext(front, last, o);
      NoneTimed(front, o);
    }
  }

  lemma {:induction false} StepSeconds(t: Totals, parts: seq<Part>, x: Part)
    requires Accumulates(t, parts)
    ensures forall c :: c in Step(t, x).seconds <==> SecondsFor(parts + [x], c) != []
    ensures forall c :: c in Step(t, x).seconds ==> Step(t, x).seconds[c] == Total(SecondsFor(parts + [x], c))
  {
    hide SecondsFor, OpsFor, TimedFor, Statuses, Total;
    forall c
      ensures c in Step(t, x).seconds <==> SecondsFor(parts + [x], c) != []
      ensures c in Step(t, x).seconds ==> Step(t, x).seconds[c] == Total(SecondsFor(parts + [x], c))
    {
      SecondsNext(parts, x, c);
      TotalAppend(SecondsFor(parts, c), SecondsIn(c, x));
      SingleTotal(if x.SecondsPart? then x.seconds else 0.0);
    }
  }

  lemma {:induction false} StepOps(t: Totals, parts: seq<Part>, x: Part)
    requires Accumulates(t, parts)
    ensures Step(t, x).timed.Keys == Step(t, x).counts.Keys
    ensures forall o :: o in Step(t, x).counts <==> OpsFor(parts + [x], o) != []
    ensures forall o :: o in Step(t, x).counts ==>
              && Step(t, x).counts[o] == |OpsFor(parts + [x], o)|
              && Step(t, x).timed[o] == TimedFor(parts + [x], o)
  {
    hide SecondsFor, OpsFor, TimedFor, Statuses, Total;
    forall o
      ensures o in Step(t, x).counts <==> OpsFor(parts + [x], o) != []
      ensures o in Step(t, x).counts ==>
                && Step(t, x).counts[o] == |OpsFor(parts + [x], o)|
                && Step(t, x).timed[o] == TimedFor(parts + [x], o)
    {
      OpsNext(parts, x, o);
      if OpsFor(parts, o) == [] { NoneTimed(parts, o); }
    }
  }

  lemma {:induction false} StepAccumulates(t: Totals, parts: seq<Part>, x: Part)
    requires Accumulates(t, parts)
    ensures Accumulates(Step(t, x), parts + [x])
  {
    StatusesNext(parts, x);
    StepSeconds(t, parts, x);
    StepOps(t, parts, x);
    hide SecondsFor, OpsFor, TimedFor, Statuses, Total;
  }

  lemma {:induction false} SingleTotal(x: real)
    ensures Total([x]) == x && Total([]) == 0.0
  {
    assert [x][1..] == [];
  }

  /** One vertex's share of the loop. */
  method AddParts(t0: Totals, more: seq<Part>, ghost parts: seq<Part>) returns (t: Totals)
    requires Accumulates(t0, parts)
    ensures Accumulates(t, parts + more)
  {
    hide Accumulates, Step;
    t := t0;
    var n := 0;
    assert parts + more[..0] == parts;
    while n < |more|
      invariant 0 <= n <= |more|
      invariant Accumulates(t, parts + more[..n])
    {
      StepAccumulates(t, parts + more[..n], more[n]);
      assert parts + more[..n + 1] == parts + more[..n] + [more[n]];
      t := Step(t, more[n]);
      n := n + 1;
    }
    assert more[..n] == more;
  }

  /** The vertex loop, in whatever order the vertices come. */
  method Accumulate(vs: Vertices, order: seq<VertexId>) returns (t: Totals)
    requires forall i :: 0 <= i < |order| ==> order[i] in vs
    ensures Accumulates(t, AllParts(vs, order))
  {
    t := Totals(multiset{}, map[], map[], map[]);
    assert Accumulates(t, []);
    hide Accumulates, PartsOf;
    var n := 0;
    while n < |order|
      invariant 0 <= n <= |order|
      invariant Accumulates(t, AllParts(vs, order[..n]))
    {
      GatherNext(order[..n], order[n], id => PartsAt(vs, id));
      assert order[..n + 1] == order[..n] + [order[n]];
      assert AllParts(vs, order[..n + 1]) == AllParts(vs, order[..n]) + PartsOf(vs[order[n]]);
      t := AddParts(t, PartsOf(vs[order[n]]), AllParts(vs, order[..n]));
      n := n + 1;
    }
    assert order[..n] == order;
  }

  // ---- order does not matter ----

  /** A finished report: vertices by id, and totals with each operation's distribution. */
  datatype Report = Report(ids: seq<VertexId>, vertices: Vertices, statuses: multiset<Status>,
                           seconds: map<string, real>, subOperations: map<string, (Distribution, int)>)

  function Finish(vs: Vertices, order: seq<VertexId>, t: Totals): Report
  {
    Report(Sort(order, IdLe), vs, t.statuses, t.seconds,
           map o | o in t.timed && o in t.counts :: (DistributionOf(t.timed[o]), t.counts[o] - |t.timed[o]|))
  }

  lemma {:induction false} CategoriesOfPermutation(a: seq<Part>, b: seq<Part>, c: string)
    requires multiset(a) == multiset(b)
    ensures SecondsFor(a, c) != [] <==> SecondsFor(b, c) != []
    ensures Total(SecondsFor(a, c)) == Total(SecondsFor(b, c))
  {
    GatherOfPermutation(a, b, x => SecondsIn(c, x));
    TotalOfPermutation(SecondsFor(a, c), SecondsFor(b, c));
    SizeOf(SecondsFor(a, c), SecondsFor(b, c));
  }

  lemma {:induction false} OpsOfPermutation(a: seq<Part>, b: seq<Part>, o: string)
    requires multiset(a) == multiset(b)
    ensures |OpsFor(a, o)| == |OpsFor(b, o)|
    ensures |TimedFor(a, o)| == |TimedFor(b, o)|
    ensures DistributionOf(TimedFor(a, o)) == DistributionOf(TimedFor(b, o))
  {
    hide Gather, OpIn, TimedIn, DistributionOf;
    GatherOfPermutation(a, b, x => OpIn(o, x));
    SizeOf(OpsFor(a, o), OpsFor(b, o));
    GatherOfPermutation(a, b, x => TimedIn(o, x));
    SizeOf(TimedFor(a, o), TimedFor(b, o));
    SameDistribution(TimedFor(a, o), TimedFor(b, o));
  }

  lemma {:induction false} SameDistribution(a: seq<real>, b: seq<real>)
    requires multiset(a) == multiset(b)
    ensures DistributionOf(a) == DistributionOf(b)
  {
    hide Sort, Percentile, Total;
    SortedSame(a, b);
  }

  lemma {:induction false} SameTotals(a: seq<Part>, ta: Totals, b: seq<Part>, tb: Totals)
    requires multiset(a) == multiset(b) && Accumulates(ta, a) && Accumulates(tb, b)
    ensures ta.statuses == tb.statuses && ta.seconds == tb.seconds && ta.counts == tb.counts
    ensures ta.timed.Keys == tb.timed.Keys
    ensures forall o :: o in ta.timed ==>
              |ta.timed[o]| == |tb.timed[o]| && DistributionOf(ta.timed[o]) == DistributionOf(tb.timed[o])
  {
    hide SecondsFor, OpsFor, TimedFor, DistributionOf, Total, Gather, StatusIn;
    GatherOfPermutation(a, b, x => StatusIn(x));
    forall c ensures c in ta.seconds <==> c in tb.seconds
      ensures c in ta.seconds ==> ta.seconds[c] == tb.seconds[c]
    {
      CategoriesOfPermutation(a, b, c);
    }
    forall o ensures o in ta.counts <==> o in tb.counts
      ensures o in ta.counts ==> ta.counts[o] == tb.counts[o] && |ta.timed[o]| == |tb.timed[o]|
      ensures o in ta.counts ==> DistributionOf(ta.timed[o]) == DistributionOf(tb.timed[o])
    {
      OpsOfPermutation(a, b, o);
      assert |OpsFor(a, o)| > 0 <==> |OpsFor(b, o)| > 0;
    }
  }

  /** Two visiting orders of the same vertices finish with the same report. */
  lemma {:induction false} SameReport(vs: Vertices, a: seq<VertexId>, ta: Totals, b: seq<VertexId>, tb: Totals)
    requires multiset(a) == multiset(b)
    requires Accumulates(ta, AllParts(vs, a)) && Accumulates(tb, AllParts(vs, b))
    ensures Finish(vs, a, ta) == Finish(vs, b, tb)
  {
    hide DistributionOf, Accumulates, Gather, PartsAt, Sort, Finish;
    SortedIds(a, b);
    GatherOfPermutation(a, b, id => PartsAt(vs, id));
    SameTotals(AllParts(vs, a), ta, AllParts(vs, b), tb);
    SameFinish(vs, a, ta, b, tb);
  }

  lemma {:induction false} SameFinish(vs: Vertices, a: seq<VertexId>, ta: Totals, b: seq<VertexId>, tb: Totals)
    requires Sort(a, IdLe) == Sort(b, IdLe)
    requires ta.statuses == tb.statuses && ta.seconds == tb.seconds && ta.counts == tb.counts
    requires ta.timed.Keys == tb.timed.Keys
    requires forall o :: o in ta.timed ==>
               |ta.timed[o]| == |tb.timed[o]| && DistributionOf(ta.timed[o]) == DistributionOf(tb.timed[o])
    ensures Finish(vs, a, ta) == Finish(vs, b, tb)
  {
    hide DistributionOf, Sort;
  }

  lemma {:induction false} SortedIds(a: seq<VertexId>, b: seq<VertexId>)
    requires multiset(a) == multiset(b)
    ensures Sort(a, IdLe) == Sort(b, IdLe)
  {
    SortOfPermutation(a, b, IdLe);
  }

  /** parse_progress. */
  method ParseProgress(lines: seq<Line>) returns (r: Report)
    ensures IsReport(r, lines)
  {
    hide Accumulates, AllParts, FirstSeen, Folded, Own, DistributionOf, Sort;
    var vertices, order := ParseLines(lines);
    var totals := Accumulate(vertices, order);
    r := Finish(vertices, order, totals);
    assert r.vertices.Keys == set id | id in order;
  }

  /** `r` reports exactly the folded vertices and their totals. */
  ghost predicate IsReport(r: Report, lines: seq<Line>)
  {
    exists t: Totals ::
      && Accumulates(t, AllParts(r.vertices, FirstSeen(lines)))
      && r == Finish(r.vertices, FirstSeen(lines), t)
      && r.vertices.Keys == (set id | id in FirstSeen(lines))
      && forall id :: id in r.vertices ==> r.vertices[id] == Folded(Own(lines, id))
  }

  /** However vertices are interleaved, the report depends only on each vertex's own lines. */
  lemma {:induction false} InterleavingIrrelevant(x: seq<Line>, rx: Report, y: seq<Line>, ry: Report)
    requires forall id :: Own(x, id) == Own(y, id)
    requires IsReport(rx, x) && IsReport(ry, y)
    ensures rx == ry
  {
    hide Accumulates, Own, Folded, AllParts, FirstSeen, Finish;
    var tx :| Accumulates(tx, AllParts(rx.vertices, FirstSeen(x))) && rx == Finish(rx.vertices, FirstSeen(x), tx);
    var ty :| Accumulates(ty, AllParts(ry.vertices, FirstSeen(y))) && ry == Finish(ry.vertices, FirstSeen(y), ty);
    DistinctPermutation(FirstSeen(x), FirstSeen(y));
    assert rx.vertices == ry.vertices;
    SameReport(rx.vertices, FirstSeen(x), tx, FirstSeen(y), ty);
  }

  // ---- repeated completions ----

  ghost function Keys(ops: seq<Op>): seq<(string, string)>
  {
    seq(|ops|, i requires 0 <= i < |ops| => (ops[i].name, ops[i].key))
  }

  function Named(ops: seq<Op>, name: string): seq<Op>
  {
    if ops == [] then []
    else Named(ops[..|ops| - 1], name) + if ops[|ops| - 1].name == name then [ops[|ops| - 1]] else []
  }

  /** Equal except for the durations of recorded operations. */
  ghost predicate AlikeButDurations(a: Vertex, b: Vertex)
  {
    a.(ops := []) == b.(ops := []) && Keys(a.ops) == Keys(b.ops)
  }

  lemma {:induction false} PutKeys(ops: seq<Op>, op: Op)
    ensures Keys(PutOp(ops, op))
         == if (op.name, op.key) in Keys(ops) then Keys(ops) else Keys(ops) + [(op.name, op.key)]
  {
    if ops == [] {
      KeysFirst(op, []);
    } else {
      var first, rest := ops[0], ops[1..];
      PutKeys(rest, op);
      assert ops == [first] + rest;
      KeysFirst(first, rest);
      KeysFirst(op, rest);
      KeysFirst(first, PutOp(rest, op));
      hide Keys;
      assert (op.name, op.key) in Keys(ops) <==> (first.name, first.key) == (op.name, op.key) || (op.name, op.key) in Keys(rest);
    }
  }

  lemma {:induction false} KeysFirst(op: Op, rest: seq<Op>)
    ensures Keys([op] + rest) == [(op.name, op.key)] + Keys(rest) && Keys([]) == []
  {
  }

  lemma {:induction false} AlikeStep(a: Vertex, b: Vertex, line: Line)
    requires AlikeButDurations(a, b)
    ensures AlikeButDurations(Apply(a, line), Apply(b, line))
  {
    if line.Completion? {
      PutKeys(a.ops, Op(line.op, line.key, line.seconds));
      PutKeys(b.ops, Op(line.op, line.key, line.seconds));
    }
  }

  lemma {:induction false} AlikeFold(a: seq<Line>, b: seq<Line>, more: seq<Line>)
    requires AlikeButDurations(Folded(a), Folded(b))
    ensures AlikeButDurations(Folded(a + more), Folded(b + more))
  {
    if more == [] {
      assert a + more == a && b + more == b;
    } else {
      var front, last := more[..|more| - 1], more[|more| - 1];
      AlikeFold(a, b, front);
      assert (a + more)[..|a + more| - 1] == a + front && (b + more)[..|b + more| - 1] == b + front;
      AlikeStep(Folded(a + front), Folded(b + front), last);
    }
  }

  lemma {:induction false} SeenStays(own: seq<Line>, line: Line)
    requires line.Completion? && line in own
    ensures (line.op, line.key) in Keys(Folded(own).ops)
    ensures line.extracting ==> Folded(own).evidence
  {
    var front, last := own[..|own| - 1], own[|own| - 1];
    assert own == front + [last] && Folded(own) == Apply(Folded(front), last);
    hide Folded, Keys;
    ApplyKeeps(Folded(front), last, (line.op, line.key));
    if line in front { SeenStays(front, line); }
    else { assert last == line; }
  }

  /** Applying a line drops no operation; a completion adds its own. */
  lemma {:induction false} ApplyKeeps(v: Vertex, line: Line, key: (string, string))
    ensures key in Keys(v.ops) || (line.Completion? && key == (line.op, line.key)) ==> key in Keys(Apply(v, line).ops)
    ensures v.evidence || (line.Completion? && line.extracting) ==> Apply(v, line).evidence
  {
    hide Keys, PutOp;
    if line.Completion? { PutKeys(v.ops, Op(line.op, line.key, line.seconds)); }
  }

  lemma {:induction false} RepeatIsAlike(own: seq<Line>, line: Line)
    requires line.Completion? && line in own
    ensures AlikeButDurations(Folded(own), Folded(own + [line]))
  {
    SeenStays(own, line);
    assert (own + [line])[..|own|] == own;
    PutKeys(Folded(own).ops, Op(line.op, line.key, line.seconds));
  }

  lemma {:induction false} OwnAppend(a: seq<Line>, b: seq<Line>, id: VertexId)
    ensures Own(a + b, id) == Own(a, id) + Own(b, id)
  {
    if b == [] {
      assert a + b == a;
    } else {
      assert (a + b)[..|a + b| - 1] == a + b[..|b| - 1];
      OwnAppend(a, b[..|b| - 1], id);
    }
  }

  lemma {:induction false} OwnSingle(line: Line, id: VertexId)
    requires Owned(line)
    ensures Own([line], id) == if line.id == id then [line] else []
  {
    assert [line][..0] == [];
  }

  lemma {:induction false} NamedByKeys(a: seq<Op>, b: seq<Op>, name: string)
    requires Keys(a) == Keys(b)
    ensures |Named(a, name)| == |Named(b, name)|
  {
    assert |a| == |Keys(a)| == |b|;
    if a != [] {
      var n := |a| - 1;
      assert Keys(a)[n] == Keys(b)[n];
      assert Keys(a[..n]) == Keys(a)[..n] && Keys(b[..n]) == Keys(b)[..n];
      NamedByKeys(a[..n], b[..n], name);
    }
  }

  /** Rendering a completion again, anywhere later, changes no vertex except the duration its
      operation records, so no operation count. */
  lemma {:induction false} RepeatCountsOnce(a: seq<Line>, line: Line, b: seq<Line>, c: seq<Line>, id: VertexId, name: string)
    requires line.Completion?
    ensures var once, twice := Folded(Own((a + [line] + b) + c, id)), Folded(Own((a + [line] + b) + [line] + c, id));
            AlikeButDurations(once, twice) && |Named(once.ops, name)| == |Named(twice.ops, name)|
  {
    hide Own, Apply, Named, PutOp;
    var start := a + [line] + b;
    OwnAppend(start, c, id);
    OwnAppend(start + [line], c, id);
    OwnAppend(start, [line], id);
    OwnAppend(a + [line], b, id);
    OwnAppend(a, [line], id);
    OwnSingle(line, id);
    var own := Own(start, id);
    if line.id == id {
      assert own == Own(a, id) + [line] + Own(b, id);
      assert line in own;
      RepeatIsAlike(own, line);
    } else {
      assert own + [] == own;
    }
    AlikeFold(own, Own(start + [line], id), Own(c, id));
    NamedByKeys(Folded(own + Own(c, id)).ops, Folded(Own(start + [line], id) + Own(c, id)).ops, name);
  }

  // ---- repeats at the level of the report ----

  lemma {:induction false} OpPartsNamed(ops: seq<Op>, o: string)
    ensures OpsFor(OpParts(ops), o) == Named(ops, o)
  {
    if ops != [] {
      var front, last := ops[..|ops| - 1], ops[|ops| - 1];
      OpPartsNamed(front, o);
      OpsNext(OpParts(front), OpPart(last), o);
    }
  }

  lemma {:induction false} OpPartsOnly(ops: seq<Op>, c: string)
    ensures SecondsFor(OpParts(ops), c) == [] && Statuses(OpParts(ops)) == []
  {
    if ops != [] {
      var front, last := ops[..|ops| - 1], ops[|ops| - 1];
      OpPartsOnly(front, c);
      SecondsNext(OpParts(front), OpPart(last), c);
      StatusesNext(OpParts(front), OpPart(last));
    }
  }

  /** A vertex's parts, seen through each of the three totals. */
  lemma {:induction false} VertexParts(v: Vertex, k: string)
    ensures OpsFor(PartsOf(v), k) == Named(v.ops, k)
    ensures Statuses(PartsOf(v)) == [v.status]
    ensures SecondsFor(PartsOf(v), k)
         == if v.status == Done && v.seconds.Some? && Timing(v) == k then [v.seconds.value] else []
  {
    hide Timing, OpsFor, SecondsFor, Statuses, TimedFor, Named, OpParts;
    var ops := OpParts(v.ops);
    var times := if v.status == Done && v.seconds.Some? then [SecondsPart(Timing(v), v.seconds.value)] else [];
    OpPartsNamed(v.ops, k);
    OpPartsOnly(v.ops, k);
    assert ops + [] == ops;
    if times != [] {
      OpsNext(ops, times[0], k);
      SecondsNext(ops, times[0], k);
      StatusesNext(ops, times[0]);
    }
    OpsNext(ops + times, StatusPart(v.status), k);
    SecondsNext(ops + times, StatusPart(v.status), k);
    StatusesNext(ops + times, StatusPart(v.status));
  }

  lemma {:induction false} AlikeParts(v: Vertex, w: Vertex, k: string)
    requires AlikeButDurations(v, w)
    ensures |OpsFor(PartsOf(v), k)| == |OpsFor(PartsOf(w), k)|
    ensures SecondsFor(PartsOf(v), k) == SecondsFor(PartsOf(w), k)
    ensures Statuses(PartsOf(v)) == Statuses(PartsOf(w))
  {
    hide OpsFor, SecondsFor, Statuses, PartsOf, Named, Keys;
    VertexParts(v, k);
    VertexParts(w, k);
    NamedByKeys(v.ops, w.ops, k);
  }

  ghost predicate AllAlike(a: Vertices, b: Vertices, order: seq<VertexId>)
  {
    forall i :: 0 <= i < |order| ==> order[i] in a && order[i] in b && AlikeButDurations(a[order[i]], b[order[i]])
  }

  lemma {:induction false} PartsNext(vs: Vertices, order: seq<VertexId>, k: string)
    requires order != [] && order[|order| - 1] in vs
    ensures var front, v := order[..|order| - 1], vs[order[|order| - 1]];
            && OpsFor(AllParts(vs, order), k) == OpsFor(AllParts(vs, front), k) + OpsFor(PartsOf(v), k)
            && SecondsFor(AllParts(vs, order), k) == SecondsFor(AllParts(vs, front), k) + SecondsFor(PartsOf(v), k)
            && Statuses(AllParts(vs, order)) == Statuses(AllParts(vs, front)) + Statuses(PartsOf(v))
  {
    hide PartsOf;
    var front, last := order[..|order| - 1], order[|order| - 1];
    assert order == front + [last];
    GatherNext(front, last, id => PartsAt(vs, id));
    assert AllParts(vs, order) == AllParts(vs, front) + PartsOf(vs[last]);
    GatherConcat(AllParts(vs, front), PartsOf(vs[last]), x => OpIn(k, x));
    GatherConcat(AllParts(vs, front), PartsOf(vs[last]), x => SecondsIn(k, x));
    GatherConcat(AllParts(vs, front), PartsOf(vs[last]), x => StatusIn(x));
  }

  lemma {:induction false} AlikeTotals(a: Vertices, b: Vertices, order: seq<VertexId>, k: string)
    requires AllAlike(a, b, order)
    ensures |OpsFor(AllParts(a, order), k)| == |OpsFor(AllParts(b, order), k)|
    ensures SecondsFor(AllParts(a, order), k) == SecondsFor(AllParts(b, order), k)
    ensures Statuses(AllParts(a, order)) == Statuses(AllParts(b, order))
  {
    hide OpsFor, SecondsFor, Statuses, PartsOf, AlikeButDurations;
    if order == [] {
      assert AllParts(a, order) == AllParts(b, order);
    } else {
      hide AllParts;
      var front, last := order[..|order| - 1], order[|order| - 1];
      AlikeTotals(a, b, front, k);
      PartsNext(a, order, k);
      PartsNext(b, order, k);
      AlikeParts(a[last], b[last], k);
    }
  }

  /** The completions a report counts under an operation. */
  ghost function Completions(r: Report, o: string): int
  {
    if o in r.subOperations then r.subOperations[o].0.count + r.subOperations[o].1 else 0
  }

  lemma {:induction false} ReportCounts(r: Report, lines: seq<Line>, o: string)
    requires IsReport(r, lines)
    ensures Completions(r, o) == |OpsFor(AllParts(r.vertices, FirstSeen(lines)), o)|
    ensures r.statuses == multiset(Statuses(AllParts(r.vertices, FirstSeen(lines))))
    ensures o in r.seconds <==> SecondsFor(AllParts(r.vertices, FirstSeen(lines)), o) != []
    ensures o in r.seconds ==> r.seconds[o] == Total(SecondsFor(AllParts(r.vertices, FirstSeen(lines)), o))
  {
    hide OpsFor, SecondsFor, Statuses, AllParts, FirstSeen, Total, Folded, Own;
    var t :| Accumulates(t, AllParts(r.vertices, FirstSeen(lines))) && r == Finish(r.vertices, FirstSeen(lines), t);
  }

  /** Rendering a completion again leaves the report's operation counts, statuses and seconds. */
  lemma {:induction false} RepeatKeepsReport(a: seq<Line>, line: Line, b: seq<Line>, c: seq<Line>, once: Report, twice: Report, k: string)
    requires line.Completion?
    requires IsReport(once, (a + [line] + b) + c) && IsReport(twice, (a + [line] + b) + [line] + c)
    ensures once.statuses == twice.statuses
    ensures k in once.seconds <==> k in twice.seconds
    ensures k in once.seconds ==> once.seconds[k] == twice.seconds[k]
    ensures Completions(once, k) == Completions(twice, k)
  {
    hide OpsFor, SecondsFor, Statuses, AllParts, Total, FirstSeen, Completions, IsReport, AllAlike;
    var x, y := (a + [line] + b) + c, (a + [line] + b) + [line] + c;
    ReportCounts(once, x, k);
    ReportCounts(twice, y, k);
    RepeatKeepsVertices(a, line, b, c, once, twice);
    AlikeTotals(once.vertices, twice.vertices, FirstSeen(x), k);
    OrderIrrelevant(twice.vertices, FirstSeen(x), FirstSeen(y), k);
  }

  lemma {:induction false} RepeatKeepsVertices(a: seq<Line>, line: Line, b: seq<Line>, c: seq<Line>, once: Report, twice: Report)
    requires line.Completion?
    requires IsReport(once, (a + [line] + b) + c) && IsReport(twice, (a + [line] + b) + [line] + c)
    ensures AllAlike(once.vertices, twice.vertices, FirstSeen((a + [line] + b) + c))
    ensures multiset(FirstSeen((a + [line] + b) + c)) == multiset(FirstSeen((a + [line] + b) + [line] + c))
  {
    hide FirstSeen, Folded, Own, AlikeButDurations, IsReport, AllAlike, Named;
    var x, y := (a + [line] + b) + c, (a + [line] + b) + [line] + c;
    forall id
      ensures AlikeButDurations(Folded(Own(x, id)), Folded(Own(y, id)))
      ensures Own(x, id) == [] <==> Own(y, id) == []
    {
      RepeatCountsOnce(a, line, b, c, id, "");
      RepeatSameEmpty(a, line, b, c, id);
    }
    DistinctPermutation(FirstSeen(x), FirstSeen(y));
    VerticesAlike(x, once, y, twice);
  }

  lemma {:induction false} VerticesAlike(x: seq<Line>, rx: Report, y: seq<Line>, ry: Report)
    requires IsReport(rx, x) && IsReport(ry, y)
    requires forall id :: AlikeButDurations(Folded(Own(x, id)), Folded(Own(y, id)))
    requires forall id :: Own(x, id) == [] <==> Own(y, id) == []
    ensures AllAlike(rx.vertices, ry.vertices, FirstSeen(x))
  {
    hide FirstSeen, AllParts, Folded, Own, Finish, Accumulates, AlikeButDurations;
    var order := FirstSeen(x);
    forall i | 0 <= i < |order|
      ensures order[i] in rx.vertices && order[i] in ry.vertices
      ensures AlikeButDurations(rx.vertices[order[i]], ry.vertices[order[i]])
    {
      assert order[i] in order && order[i] in FirstSeen(y);
      assert order[i] in rx.vertices.Keys && order[i] in ry.vertices.Keys;
    }
  }

  lemma {:induction false} OrderIrrelevant(vs: Vertices, a: seq<VertexId>, b: seq<VertexId>, k: string)
    requires multiset(a) == multiset(b)
    ensures |OpsFor(AllParts(vs, a), k)| == |OpsFor(AllParts(vs, b), k)|
    ensures SecondsFor(AllParts(vs, a), k) != [] <==> SecondsFor(AllParts(vs, b), k) != []
    ensures Total(SecondsFor(AllParts(vs, a), k)) == Total(SecondsFor(AllParts(vs, b), k))
    ensures multiset(Statuses(AllParts(vs, a))) == multiset(Statuses(AllParts(vs, b)))
  {
    hide OpsFor, SecondsFor, Total, PartsAt;
    GatherOfPermutation(a, b, id => PartsAt(vs, id));
    OpsOfPermutation(AllParts(vs, a), AllParts(vs, b), k);
    CategoriesOfPermutation(AllParts(vs, a), AllParts(vs, b), k);
    GatherOfPermutation(AllParts(vs, a), AllParts(vs, b), x => StatusIn(x));
  }

  lemma {:induction false} RepeatSameEmpty(a: seq<Line>, line: Line, b: seq<Line>, c: seq<Line>, id: VertexId)
    requires line.Completion?
    ensures Own((a + [line] + b) + c, id) == [] <==> Own((a + [line] + b) + [line] + c, id) == []
  {
    hide Own;
    var start := a + [line] + b;
    OwnAppend(start, c, id);
    OwnAppend(start + [line], c, id);
    OwnAppend(start, [line], id);
    OwnAppend(a + [line], b, id);
    OwnAppend(a, [line], id);
    OwnSingle(line, id);
  }
}
