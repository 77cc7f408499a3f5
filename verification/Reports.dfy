/** Benchmark reports of scripts/bench_rl_scale.py: the validator, finalising and merging. A report's fields are
    JSON values (an absent field reads as null); metric names are a datatype, `Other` being any unknown name. */
module Reports {
  import opened Wrappers
  import opened Percentiles

  datatype Json = Null | Bool(flag: bool) | Int(whole: int) | Float(fraction: real) | NonFinite | Str(text: string)
                | List(items: seq<Json>) | Obj(fields: map<string, Json>)

  predicate Truthy(j: Json)
  {
    match j
    case Null => false
    case Bool(b) => b
    case Int(i) => i != 0
    case Float(x) => x != 0.0
    case NonFinite => true
    case Str(s) => s != ""
    case List(items) => items != []
    case Obj(m) => m != map[]
  }

  /** `dict.get`. */
  function Get(m: map<string, Json>, key: string): Json
  {
    if key in m then m[key] else Null
  }

  predicate IsText(j: Json) { j.Str? && j.text != "" }

  // ---- summaries ----

  const SUMMARY_KEYS: seq<string> := ["n", "p50", "p95", "p99", "max"]

  predicate IsSummary(m: map<string, Json>)
  {
    forall i :: 0 <= i < |SUMMARY_KEYS| ==> SUMMARY_KEYS[i] in m
  }

  predicate Finite(j: Json) { j.Int? || j.Float? }

  function Number(j: Json): real
    requires Finite(j)
  {
    if j.Int? then j.whole as real else j.fraction
  }

  /** `_summary_problems` finds nothing. */
  predicate SummaryOk(m: map<string, Json>)
  {
    var n, p50, p95, p99, max := Get(m, "n"), Get(m, "p50"), Get(m, "p95"), Get(m, "p99"), Get(m, "max");
    && n.Int? && n.whole >= 0
    && if n.whole == 0 then p50.Null? && p95.Null? && p99.Null? && max.Null?
       else
         && Finite(p50) && Finite(p95) && Finite(p99) && Finite(max)
         && Number(p50) <= Number(p95) <= Number(p99) <= Number(max)
  }

  /** Every summary that `_walk_summaries` yields is in order. */
  predicate SummariesOk(j: Json)
  {
    match j
    case Obj(m) =>
      && (IsSummary(m) ==> SummaryOk(m))
      && forall k :: k in m && k != "samples" ==> SummariesOk(m[k])
    case List(items) => forall i :: 0 <= i < |items| ==> SummariesOk(items[i])
    case _ => true
  }

  datatype Hop = Key(key: string) | Index(index: nat)

  /** The value under a path; "samples" is not followed. */
  ghost function Under(j: Json, path: seq<Hop>): Option<Json>
    decreases path
  {
    if path == [] then Some(j)
    else match path[0]
      case Key(k) => if j.Obj? && k in j.fields && k != "samples" then Under(j.fields[k], path[1..]) else None
      case Index(i) => if j.List? && i < |j.items| then Under(j.items[i], path[1..]) else None
  }

  ghost predicate GoodAt(j: Json, path: seq<Hop>)
  {
    var v := Under(j, path);
    v.Some? && v.value.Obj? && IsSummary(v.value.fields) ==> SummaryOk(v.value.fields)
  }

  /** The walk checks exactly the summary objects at any depth outside "samples". */
  lemma {:induction false} WalkReachesAll(j: Json)
    ensures SummariesOk(j) <==> forall path :: GoodAt(j, path)
  {
    if SummariesOk(j) {
      forall path ensures GoodAt(j, path) { WalkSound(j, path); }
    } else {
      var path := WalkComplete(j);
    }
  }

  lemma {:induction false} WalkSound(j: Json, path: seq<Hop>)
    requires SummariesOk(j)
    ensures GoodAt(j, path)
    decreases path
  {
    hide SummaryOk, IsSummary;
    if path != [] {
      match path[0] {
        case Key(k) => if j.Obj? && k in j.fields && k != "samples" { WalkSound(j.fields[k], path[1..]); }
        case Index(i) => if j.List? && i < |j.items| { WalkSound(j.items[i], path[1..]); }
      }
    }
  }

  lemma {:induction false} WalkComplete(j: Json) returns (path: seq<Hop>)
    requires !SummariesOk(j)
    ensures !GoodAt(j, path)
    decreases j
  {
    hide SummaryOk, IsSummary;
    path := [];
    if j.Obj? {
      if !IsSummary(j.fields) || SummaryOk(j.fields) {
        var k :| k in j.fields && k != "samples" && !SummariesOk(j.fields[k]);
        var rest := WalkComplete(j.fields[k]);
        path := [Key(k)] + rest;
        assert path[1..] == rest;
      }
    } else {
      var i :| 0 <= i < |j.items| && !SummariesOk(j.items[i]);
      var rest := WalkComplete(j.items[i]);
      path := [Index(i)] + rest;
      assert path[1..] == rest;
    }
  }

  function Maybe(x: Option<real>): Json
  {
    if x.None? then Null else Float(x.value)
  }

  /** `latency_summary` as the report stores it. */
  function Rendered(s: Summary): Json
  {
    Obj(map["n" := Int(s.n), "min" := Maybe(s.min), "mean" := Maybe(s.mean), "p50" := Maybe(s.p50),
            "p95" := Maybe(s.p95), "p99" := Maybe(s.p99), "max" := Maybe(s.max)])
  }

  /** The validator accepts every latency summary. */
  lemma {:induction false} SummaryAccepted(values: seq<real>)
    ensures SummariesOk(Rendered(LatencySummary(values)))
    ensures IsSummary(Rendered(LatencySummary(values)).fields)
  {
    hide LatencySummary;
    SummaryIsOrdered(values);
    var s := LatencySummary(values);
    RenderedAccepted(s);
  }

  lemma {:induction false} RenderedAccepted(s: Summary)
    requires SummaryOrdered(s)
    ensures SummariesOk(Rendered(s)) && IsSummary(Rendered(s).fields)
  {
    var m := Rendered(s).fields;
    assert Get(m, "n") == Int(s.n) && Get(m, "p50") == Maybe(s.p50) && Get(m, "p95") == Maybe(s.p95);
    assert Get(m, "p99") == Maybe(s.p99) && Get(m, "max") == Maybe(s.max);
  }

  // ---- reports ----

  datatype Metric = ColdFirst | WarmFirst | Burst | CreationRate | BytesFetched | DensityAtLatency | IdlePss
                  | PageSharing | PauseResume | Fork | Rollout | Other(name: string)

  /** The ten metrics of the survey table. */
  const METRIC_KEYS: set<Metric> := {ColdFirst, WarmFirst, Burst, CreationRate, BytesFetched, DensityAtLatency,
                                     IdlePss, PageSharing, PauseResume, Fork}

  /** The metrics a merge takes from its inputs, in table order. */
  const MERGED_KEYS: seq<Metric> := [ColdFirst, WarmFirst, Burst, CreationRate, DensityAtLatency, PauseResume, Rollout]

  predicate External(key: Metric) { key == BytesFetched || key == IdlePss || key == PageSharing }

  predicate Taken(key: Metric) { !External(key) && key != Fork && !key.Other? }

  const SCHEMA := "ucloud-rl-scale-bench/v1"

  /** Stand-ins for the explanatory texts, which only need to be non-empty. */
  const FORK_REASON := "not implemented"
  const PROBE := "node-side probe"

  datatype Report = Report(schema: Json, runId: Json, scenario: Json, status: Json, ok: Json, startedAt: Json,
                           finishedAt: Json, conditions: Json, metrics: Option<map<Metric, Json>>, errors: Json,
                           cleanup: Json, cleanupErrors: Json)

  predicate ReportStatus(j: Json)
  {
    j == Str("running") || j == Str("ok") || j == Str("failed") || j == Str("interrupted")
  }

  predicate SectionStatus(j: Json)
  {
    j == Str("measured") || j == Str("failed") || j == Str("not_run") || j == Str("unsupported") || j == Str("external")
  }

  /** SCENARIO_METRIC. */
  function MetricOf(scenario: Json): Option<Metric>
  {
    if scenario == Str("cold") then Some(ColdFirst)
    else if scenario == Str("warm") then Some(WarmFirst)
    else if scenario == Str("burst") then Some(Burst)
    else if scenario == Str("rate") then Some(CreationRate)
    else if scenario == Str("density") then Some(DensityAtLatency)
    else if scenario == Str("park") then Some(PauseResume)
    else if scenario == Str("rollout") then Some(Rollout)
    else None
  }

  /** The checks `validate_report` makes of one section; a null section is skipped. */
  predicate SectionOk(key: Metric, section: Json)
  {
    section.Null? || (section.Obj? && FieldsOk(key, section.fields) && SummariesOk(section))
  }

  predicate FieldsOk(key: Metric, m: map<string, Json>)
  {
    var status := Get(m, "status");
    && SectionStatus(status)
    && (if External(key) then status == Str("external") && Get(m, "value").Null? && IsText(Get(m, "source"))
        else status != Str("external"))
    && (key == Fork ==> status == Str("unsupported") && Get(m, "value").Null?)
    && (status == Str("unsupported") ==> Truthy(Get(m, "reason")))
  }

  /** `validate_report` returns no problem. */
  predicate Valid(r: Report)
  {
    && r.schema == Str(SCHEMA)
    && IsText(r.runId) && IsText(r.startedAt)
    && (MetricOf(r.scenario).Some? || r.scenario == Str("merged"))
    && ReportStatus(r.status)
    && r.ok.Bool? && r.conditions.Obj? && r.errors.List? && r.cleanupErrors.List? && r.cleanup.Obj?
    && r.metrics.Some? && METRIC_KEYS <= r.metrics.value.Keys
    && forall key :: key in r.metrics.value ==> !key.Other? && SectionOk(key, r.metrics.value[key])
  }

  const NOT_RUN: Json := Obj(map["status" := Str("not_run")])

  function DefaultSection(key: Metric): Json
  {
    if External(key) then Obj(map["status" := Str("external"), "value" := Null, "source" := Str(PROBE)])
    else if key == Fork then Obj(map["status" := Str("unsupported"), "value" := Null, "reason" := Str(FORK_REASON)])
    else NOT_RUN
  }

  function DefaultMetrics(): map<Metric, Json>
  {
    map key | key in METRIC_KEYS + {Rollout} :: DefaultSection(key)
  }

  function NewReport(runId: string, scenario: string, conditions: map<string, Json>, now: string): Report
  {
    Report(Str(SCHEMA), Str(runId), Str(scenario), Str("running"), Bool(false), Str(now), Null, Obj(conditions),
           Some(DefaultMetrics()), List([]), Obj(map[]), List([]))
  }

  lemma {:induction false} DefaultSectionOk(key: Metric)
    ensures SectionOk(key, DefaultSection(key))
  {
    var m := DefaultSection(key).fields;
    assert "n" !in m by { assert |"n"| == 1 && |"status"| == 6 && |"value"| == 5 && |"source"| == 6 && |"reason"| == 6; }
    assert SUMMARY_KEYS[0] == "n";
    assert !IsSummary(m);
  }

  /** A fresh report passes the validator, for every scenario it may be created with. */
  lemma {:induction false} NewReportValid(runId: string, scenario: string, conditions: map<string, Json>, now: string)
    requires runId != "" && now != "" && (MetricOf(Str(scenario)).Some? || scenario == "merged")
    ensures Valid(NewReport(runId, scenario, conditions, now))
  {
    hide MetricOf, SectionOk, DefaultSection;
    forall key ensures SectionOk(key, DefaultSection(key)) { DefaultSectionOk(key); }
  }

  // ---- finalize_report ----

  predicate Failing(section: Json)
  {
    section.Obj? && (Get(section.fields, "status") == Str("failed") || Truthy(Get(section.fields, "n_failed")))
  }

  /** The sections `finalize_report` subscripts are objects with a status. */
  predicate Finalizable(r: Report)
  {
    && r.metrics.Some?
    && match MetricOf(r.scenario)
       case Some(key) => key in r.metrics.value && r.metrics.value[key].Obj? && "status" in r.metrics.value[key].fields
       case None => forall key :: key in r.metrics.value ==>
                      r.metrics.value[key].Obj? && "status" in r.metrics.value[key].fields
  }

  predicate Failed(r: Report)
    requires Finalizable(r)
  {
    match MetricOf(r.scenario)
    case Some(key) =>
      Failing(r.metrics.value[key]) || Get(r.metrics.value[key].fields, "status") == Str("not_run")
    case None => exists key :: key in r.metrics.value && Failing(r.metrics.value[key])
  }

  function Finalize(r: Report, interrupted: bool, now: string): (f: Report)
    requires Finalizable(r)
  {
    var ok := !(interrupted || Failed(r) || Truthy(r.errors) || Truthy(r.cleanupErrors));
    r.(finishedAt := Str(now), ok := Bool(ok),
       status := Str(if interrupted then "interrupted" else if ok then "ok" else "failed"))
  }

  /** Finalising keeps a report valid, and leaves its status "ok" exactly when `ok` is true. */
  lemma {:induction false} FinalizeValid(r: Report, interrupted: bool, now: string)
    requires Valid(r) && Finalizable(r)
    ensures Valid(Finalize(r, interrupted, now))
    ensures Finalize(r, interrupted, now).status == Str("ok") <==> Finalize(r, interrupted, now).ok == Bool(true)
  {
    hide Failed, SectionOk, MetricOf;
  }

  // ---- merge_reports ----

  datatype Input = Input(source: string, report: Report)

  /** What merging raises or returns; Fault is a TypeError. */
  datatype Outcome = Merged(report: Report) | NoInputs | InvalidInput(index: nat) | Repeated(key: Metric) | Fault

  function SectionOf(r: Report, key: Metric): Json
  {
    if r.metrics.Some? && key in r.metrics.value then r.metrics.value[key] else NOT_RUN
  }

  predicate Reports(r: Report, key: Metric)
  {
    var section := SectionOf(r, key);
    section.Obj? && Get(section.fields, "status") != Str("not_run")
  }

  ghost predicate AllValid(inputs: seq<Input>)
  {
    forall i :: 0 <= i < |inputs| ==> Valid(inputs[i].report)
  }

  ghost predicate NoNull(inputs: seq<Input>, key: Metric)
  {
    forall i :: 0 <= i < |inputs| ==> !SectionOf(inputs[i].report, key).Null?
  }

  ghost predicate Once(inputs: seq<Input>, key: Metric)
  {
    forall i, j :: 0 <= i < j < |inputs| ==> !(Reports(inputs[i].report, key) && Reports(inputs[j].report, key))
  }

  function Stamped(input: Input, key: Metric): (r: Json)
    requires Reports(input.report, key)
    ensures r.Obj? && Get(r.fields, "merged_from") == Str(input.source)
    ensures forall k :: k != "merged_from" ==> Get(r.fields, k) == Get(SectionOf(input.report, key).fields, k)
  {
    Obj(SectionOf(input.report, key).fields["merged_from" := Str(input.source)])
  }

  ghost predicate OnlyFrom(inputs: seq<Input>, key: Metric, i: nat)
  {
    && i < |inputs| && Reports(inputs[i].report, key)
    && forall j :: 0 <= j < |inputs| && j != i ==> !Reports(inputs[j].report, key)
  }

  ghost predicate FromNone(inputs: seq<Input>, key: Metric)
  {
    forall j :: 0 <= j < |inputs| ==> !Reports(inputs[j].report, key)
  }

  /** `section` is the one input's that reports the metric, or the default when none does. */
  ghost predicate TakenFrom(section: Json, inputs: seq<Input>, key: Metric)
  {
    || (section == NOT_RUN && FromNone(inputs, key))
    || exists i: nat :: OnlyFrom(inputs, key, i) && section == Stamped(inputs[i], key)
  }

  lemma {:induction false} StampedOk(input: Input, key: Metric)
    requires Valid(input.report) && Taken(key) && Reports(input.report, key)
    ensures SectionOk(key, Stamped(input, key))
    ensures Failing(Stamped(input, key)) <==> Failing(SectionOf(input.report, key))
    ensures "status" in Stamped(input, key).fields
  {
    assert key in input.report.metrics.value;
    var m := SectionOf(input.report, key).fields;
    var n := m["merged_from" := Str(input.source)];
    SameFields(m, input.source);
    StampedSummaries(m, input.source);
  }

  lemma {:induction false} SameFields(m: map<string, Json>, source: string)
    ensures var n := m["merged_from" := Str(source)];
            && Get(n, "status") == Get(m, "status") && Get(n, "value") == Get(m, "value")
            && Get(n, "source") == Get(m, "source") && Get(n, "reason") == Get(m, "reason")
            && Get(n, "n_failed") == Get(m, "n_failed")
  {
    assert |"merged_from"| == 11 && |"status"| == 6 && |"value"| == 5 && |"source"| == 6 && |"reason"| == 6
        && |"n_failed"| == 8;
  }

  lemma {:induction false} StampedSummaries(m: map<string, Json>, source: string)
    requires SummariesOk(Obj(m))
    ensures SummariesOk(Obj(m["merged_from" := Str(source)]))
  {
    var n := m["merged_from" := Str(source)];
    assert |"merged_from"| == 11 && |"n"| == 1 && |"p50"| == 3 && |"p95"| == 3 && |"p99"| == 3 && |"max"| == 3;
    assert SUMMARY_KEYS == ["n", "p50", "p95", "p99", "max"];
    assert IsSummary(n) <==> IsSummary(m);
    assert SummaryOk(n) <==> SummaryOk(m);
    assert SummariesOk(Str(source));
  }

  /** The inputs reporting a metric, in order; None is the TypeError of subscripting null. */
  method FindSections(inputs: seq<Input>, key: Metric) returns (found: Option<seq<nat>>)
    requires AllValid(inputs) && Taken(key)
    ensures found.Some? <==> NoNull(inputs, key)
    ensures found.Some? && found.value == [] ==> FromNone(inputs, key)
    ensures found.Some? && |found.value| == 1 ==> OnlyFrom(inputs, key, found.value[0])
    ensures found.Some? ==> (|found.value| <= 1 <==> Once(inputs, key))
  {
    hide Valid;
    var indices: seq<nat> := [];
    var i := 0;
    while i < |inputs|
      invariant 0 <= i <= |inputs|
      invariant forall j :: 0 <= j < i ==> !SectionOf(inputs[j].report, key).Null?
      invariant forall j :: 0 <= j < i ==> (Reports(inputs[j].report, key) <==> j in indices)
      invariant forall k :: 0 <= k < |indices| ==> 0 <= indices[k] < i
      invariant forall k, l :: 0 <= k < l < |indices| ==> indices[k] < indices[l]
    {
      ValidSection(inputs[i].report, key);
      var section := SectionOf(inputs[i].report, key);
      if section.Null? { return None; }
      if Get(section.fields, "status") != Str("not_run") { indices := indices + [i]; }
      i := i + 1;
    }
    found := Some(indices);
    if |indices| > 1 {
      assert indices[0] in indices && indices[1] in indices;
    }
  }

  lemma {:induction false} ValidSection(r: Report, key: Metric)
    requires Valid(r) && Taken(key)
    ensures SectionOf(r, key).Null? || SectionOf(r, key).Obj?
  {
  }

  ghost predicate Mergeable(inputs: seq<Input>, keys: seq<Metric>)
  {
    forall k :: 0 <= k < |keys| ==> NoNull(inputs, keys[k]) && Once(inputs, keys[k])
  }

  /** Metrics among `keys` are taken from the inputs, the others are the defaults. */
  ghost predicate SectionsFor(metrics: map<Metric, Json>, inputs: seq<Input>, keys: set<Metric>)
  {
    && metrics.Keys == DefaultMetrics().Keys
    && forall key :: key in metrics ==>
         if key in keys then TakenFrom(metrics[key], inputs, key) else metrics[key] == DefaultSection(key)
  }

  /** One metric of the merge. */
  method MergeSection(inputs: seq<Input>, key: Metric, metrics: map<Metric, Json>, ghost keys: set<Metric>)
    returns (updated: map<Metric, Json>, failure: Option<Outcome>)
    requires AllValid(inputs) && Taken(key) && key !in keys && SectionsFor(metrics, inputs, keys)
    ensures failure.None? <==> NoNull(inputs, key) && Once(inputs, key)
    ensures failure.Some? ==> if NoNull(inputs, key) then failure.value == Repeated(key) else failure.value == Fault
    ensures failure.None? ==> SectionsFor(updated, inputs, keys + {key})
  {
    hide AllValid, NoNull, Once, OnlyFrom, FromNone, Stamped, TakenFrom;
    updated, failure := metrics, None;
    var found := FindSections(inputs, key);
    if found.None? { return metrics, Some(Fault); }
    if |found.value| > 1 { return metrics, Some(Repeated(key)); }
    if |found.value| == 1 {
      OnlyReports(inputs, key, found.value[0]);
      updated := metrics[key := Stamped(inputs[found.value[0]], key)];
      TakenOnly(inputs, key, found.value[0]);
    } else {
      TakenDefault(inputs, key);
    }
  }

  lemma {:induction false} TakenOnly(inputs: seq<Input>, key: Metric, i: nat)
    requires OnlyFrom(inputs, key, i)
    ensures TakenFrom(Stamped(inputs[i], key), inputs, key)
  {
  }

  lemma {:induction false} TakenDefault(inputs: seq<Input>, key: Metric)
    requires FromNone(inputs, key) && Taken(key)
    ensures TakenFrom(DefaultSection(key), inputs, key)
  {
  }

  /** The merged report's sections; None when a metric fails. */
  method MergeSections(inputs: seq<Input>) returns (metrics: map<Metric, Json>, failure: Option<Outcome>)
    requires AllValid(inputs)
    ensures failure.None? <==> Mergeable(inputs, MERGED_KEYS)
    ensures failure.Some? ==>
              || (failure.value.Repeated? && !Once(inputs, failure.value.key))
              || (failure.value == Fault && exists key :: key in MERGED_KEYS && !NoNull(inputs, key))
    ensures failure.None? ==> SectionsFor(metrics, inputs, set key | key in MERGED_KEYS)
  {
    hide AllValid, NoNull, Once, TakenFrom, DefaultSection, DefaultMetrics;
    metrics, failure := DefaultMetrics(), None;
    DefaultSections(inputs);
    var k := 0;
    ghost var keys: set<Metric> := {};
    while k < |MERGED_KEYS|
      invariant 0 <= k <= |MERGED_KEYS|
      invariant keys == set j | 0 <= j < k :: MERGED_KEYS[j]
      invariant forall j :: 0 <= j < k ==> NoNull(inputs, MERGED_KEYS[j]) && Once(inputs, MERGED_KEYS[j])
      invariant failure.None? && SectionsFor(metrics, inputs, keys)
    {
      var key := MERGED_KEYS[k];
      MergedKeys();
      metrics, failure := MergeSection(inputs, key, metrics, keys);
      if failure.Some? { return; }
      keys := keys + {key};
      k := k + 1;
    }
    assert keys == set key | key in MERGED_KEYS;
  }

  lemma {:induction false} DefaultSections(inputs: seq<Input>)
    ensures SectionsFor(DefaultMetrics(), inputs, {})
  {
  }

  lemma {:induction false} OnlyReports(inputs: seq<Input>, key: Metric, i: nat)
    requires OnlyFrom(inputs, key, i)
    ensures i < |inputs| && Reports(inputs[i].report, key)
  {
  }

  lemma {:induction false} MergedKeys()
    ensures forall key :: key in MERGED_KEYS <==> Taken(key)
    ensures forall k :: 0 <= k < |MERGED_KEYS| ==> MERGED_KEYS[k] in DefaultMetrics() && Taken(MERGED_KEYS[k])
    ensures forall k, l :: 0 <= k < l < |MERGED_KEYS| ==> MERGED_KEYS[k] != MERGED_KEYS[l]
    ensures forall key :: key in DefaultMetrics() <==> !key.Other?
  {
  }

  // ---- errors and times ----

  function Prefixed(source: string, errors: seq<Json>, show: Json -> string): (r: seq<Json>)
    ensures |r| == |errors| && forall i :: 0 <= i < |r| ==> r[i] == Str(source + ": " + show(errors[i]))
  {
    seq(|errors|, i requires 0 <= i < |errors| => Str(source + ": " + show(errors[i])))
  }

  function Items(j: Json): seq<Json>
  {
    if j.List? then j.items else []
  }

  /** What one input adds to the merged errors. */
  function ErrorsFrom(input: Input, show: Json -> string): seq<Json>
  {
    Prefixed(input.source, Items(input.report.errors), show)
    + if Truthy(input.report.ok) then []
      else [Str(input.source + ": input run status is " + show(input.report.status))]
  }

  function AllErrors(inputs: seq<Input>, show: Json -> string): seq<Json>
  {
    if inputs == [] then []
    else AllErrors(inputs[..|inputs| - 1], show) + ErrorsFrom(inputs[|inputs| - 1], show)
  }

  function AllCleanupErrors(inputs: seq<Input>, show: Json -> string): seq<Json>
  {
    if inputs == [] then []
    else
      var last := inputs[|inputs| - 1];
      AllCleanupErrors(inputs[..|inputs| - 1], show) + Prefixed(last.source, Items(last.report.cleanupErrors), show)
  }

  /** A merged error names its source, and is one of the source's own or tells of its status. */
  ghost predicate TellsOf(e: Json, input: Input, show: Json -> string)
  {
    || (exists error :: error in Items(input.report.errors) && e == Str(input.source + ": " + show(error)))
    || (!Truthy(input.report.ok) && e == Str(input.source + ": input run status is " + show(input.report.status)))
  }

  ghost predicate TellsOfCleanup(e: Json, input: Input, show: Json -> string)
  {
    exists error :: error in Items(input.report.cleanupErrors) && e == Str(input.source + ": " + show(error))
  }

  lemma {:induction false} PrefixedMembers(source: string, errors: seq<Json>, show: Json -> string, e: Json)
    ensures e in Prefixed(source, errors, show) <==> exists error :: error in errors && e == Str(source + ": " + show(error))
  {
    var r := Prefixed(source, errors, show);
    if e in r {
      var i :| 0 <= i < |r| && r[i] == e;
      assert errors[i] in errors;
    }
    if error :| error in errors && e == Str(source + ": " + show(error)) {
      var i :| 0 <= i < |errors| && errors[i] == error;
      assert r[i] == e;
    }
  }

  /** The merged lists hold exactly what the inputs' lists and statuses tell. */
  lemma {:induction false} MergedErrorsIff(inputs: seq<Input>, show: Json -> string, e: Json)
    ensures e in AllErrors(inputs, show) <==> exists i :: 0 <= i < |inputs| && TellsOf(e, inputs[i], show)
    ensures e in AllCleanupErrors(inputs, show) <==> exists i :: 0 <= i < |inputs| && TellsOfCleanup(e, inputs[i], show)
  {
    hide TellsOf, TellsOfCleanup, ErrorsFrom, Prefixed, Items;
    if inputs != [] {
      var front, last := inputs[..|inputs| - 1], inputs[|inputs| - 1];
      MergedErrorsIff(front, show, e);
      ErrorsTell(last, show, e);
      LastTells(inputs, front, last, i => TellsOf(e, i, show));
      LastTells(inputs, front, last, i => TellsOfCleanup(e, i, show));
      hide AllErrors, AllCleanupErrors;
      ErrorsSplit(inputs, show, e);
    }
  }

  lemma {:induction false} ErrorsSplit(inputs: seq<Input>, show: Json -> string, e: Json)
    requires inputs != []
    ensures var front, last := inputs[..|inputs| - 1], inputs[|inputs| - 1];
            && (e in AllErrors(inputs, show) <==> e in AllErrors(front, show) || e in ErrorsFrom(last, show))
            && (e in AllCleanupErrors(inputs, show) <==>
                e in AllCleanupErrors(front, show) || e in Prefixed(last.source, Items(last.report.cleanupErrors), show))
  {
    hide ErrorsFrom, Prefixed, Items;
  }

  lemma {:induction false} LastTells(inputs: seq<Input>, front: seq<Input>, last: Input, tells: Input -> bool)
    requires inputs == front + [last]
    ensures (exists i :: 0 <= i < |inputs| && tells(inputs[i])) <==>
            tells(last) || exists i :: 0 <= i < |front| && tells(front[i])
  {
    assert inputs[|front|] == last && forall i :: 0 <= i < |front| ==> front[i] == inputs[i];
  }

  lemma {:induction false} ErrorsTell(input: Input, show: Json -> string, e: Json)
    ensures e in ErrorsFrom(input, show) <==> TellsOf(e, input, show)
    ensures e in Prefixed(input.source, Items(input.report.cleanupErrors), show) <==> TellsOfCleanup(e, input, show)
  {
    PrefixedMembers(input.source, Items(input.report.errors), show, e);
    PrefixedMembers(input.source, Items(input.report.cleanupErrors), show, e);
    hide Prefixed, Items, Truthy;
  }

  ghost predicate Clean(input: Input)
  {
    input.report.ok == Bool(true) && input.report.errors == List([]) && input.report.cleanupErrors == List([])
  }

  lemma {:induction false} ErrorFreeIffClean(inputs: seq<Input>, show: Json -> string)
    requires AllValid(inputs)
    ensures AllErrors(inputs, show) == [] && AllCleanupErrors(inputs, show) == []
       <==> forall i :: 0 <= i < |inputs| ==> Clean(inputs[i])
  {
    hide Valid, Clean, AllErrors, AllCleanupErrors;
    if inputs == [] {
      NoErrors(show);
    } else {
      var front, last := inputs[..|inputs| - 1], inputs[|inputs| - 1];
      ErrorFreeIffClean(front, show);
      LastErrors(inputs, show);
      assert inputs == front + [last];
    }
  }

  lemma {:induction false} NoErrors(show: Json -> string)
    ensures AllErrors([], show) == [] && AllCleanupErrors([], show) == []
  {
  }

  lemma {:induction false} LastErrors(inputs: seq<Input>, show: Json -> string)
    requires inputs != [] && Valid(inputs[|inputs| - 1].report)
    ensures var front, last := inputs[..|inputs| - 1], inputs[|inputs| - 1];
            AllErrors(inputs, show) == [] && AllCleanupErrors(inputs, show) == []
            <==> AllErrors(front, show) == [] && AllCleanupErrors(front, show) == [] && Clean(last)
  {
    hide Valid, ErrorsFrom, Clean, Prefixed;
    CleanOne(inputs[|inputs| - 1], show);
  }

  lemma {:induction false} CleanOne(input: Input, show: Json -> string)
    requires Valid(input.report)
    ensures ErrorsFrom(input, show) == [] && Prefixed(input.source, Items(input.report.cleanupErrors), show) == []
       <==> Clean(input)
  {
  }

  method CollectErrors(inputs: seq<Input>, show: Json -> string) returns (errors: seq<Json>, cleanupErrors: seq<Json>)
    ensures errors == AllErrors(inputs, show) && cleanupErrors == AllCleanupErrors(inputs, show)
  {
    errors, cleanupErrors := [], [];
    for i := 0 to |inputs|
      invariant errors == AllErrors(inputs[..i], show) && cleanupErrors == AllCleanupErrors(inputs[..i], show)
    {
      var input := inputs[i];
      assert inputs[..i + 1][..i] == inputs[..i];
      errors := errors + ErrorsFrom(input, show);
      cleanupErrors := cleanupErrors + Prefixed(input.source, Items(input.report.cleanupErrors), show);
    }
    assert inputs[..|inputs|] == inputs;
  }

  /** Python's string order. */
  predicate TextLe(a: string, b: string)
  {
    a == "" || (b != "" && (a[0] < b[0] || (a[0] == b[0] && TextLe(a[1..], b[1..]))))
  }

  lemma {:induction false} TextTotal(a: string, b: string)
    ensures TextLe(a, b) || TextLe(b, a)
  {
    if a != "" && b != "" && a[0] == b[0] { TextTotal(a[1..], b[1..]); }
  }

  lemma {:induction false} TextTransitive(a: string, b: string, c: string)
    requires TextLe(a, b) && TextLe(b, c)
    ensures TextLe(a, c)
  {
    if a != "" && a[0] == b[0] && b[0] == c[0] { TextTransitive(a[1..], b[1..], c[1..]); }
  }

  /** Texts are ordered by the first character in which they differ; a beginning comes first. */
  lemma {:induction false} TextByFirstDifference(p: string, x: char, s: string, y: char, t: string)
    requires x < y
    ensures TextLe(p + [x] + s, p + [y] + t) && !TextLe(p + [y] + t, p + [x] + s) && TextLe(p, p + s)
  {
    if p != "" {
      TextByFirstDifference(p[1..], x, s, y, t);
      assert (p + [x] + s)[1..] == p[1..] + [x] + s && (p + [y] + t)[1..] == p[1..] + [y] + t && (p + s)[1..] == p[1..] + s;
    }
  }

  function TextOf(j: Json): string
  {
    if j.Str? then j.text else ""
  }

  function StartTimes(inputs: seq<Input>): seq<string>
  {
    seq(|inputs|, i requires 0 <= i < |inputs| => TextOf(inputs[i].report.startedAt))
  }

  /** Python's `min` of strings. */
  method Earliest(texts: seq<string>) returns (text: string)
    requires texts != []
    ensures exists i :: 0 <= i < |texts| && texts[i] == text
    ensures forall i :: 0 <= i < |texts| ==> TextLe(text, texts[i])
  {
    hide TextLe;
    text := texts[0];
    TextTotal(text, text);
    for k := 1 to |texts|
      invariant exists i :: 0 <= i < k && texts[i] == text
      invariant forall i :: 0 <= i < k ==> TextLe(text, texts[i])
    {
      var next := texts[k];
      TextTotal(text, next);
      TextTotal(next, next);
      if !TextLe(text, next) {
        forall i | 0 <= i < k ensures TextLe(next, texts[i]) { TextTransitive(next, text, texts[i]); }
        text := next;
      }
    }
  }

  /** Values of different kinds, or of the last kind, have no order in Python. */
  datatype Kind = Text | Numeric | Unordered

  function KindOf(j: Json): Kind
  {
    if j.Str? then Text else if j.Int? || j.Float? || j.Bool? then Numeric else Unordered
  }

  function Size(j: Json): real
  {
    if Finite(j) then Number(j) else if j == Bool(true) then 1.0 else 0.0
  }

  predicate NotAfter(a: Json, b: Json)
  {
    KindOf(a) == KindOf(b) && if a.Str? then TextLe(a.text, b.text) else Size(a) <= Size(b)
  }

  lemma {:induction false} NotAfterOrder(a: Json, b: Json, c: Json)
    requires KindOf(a) == KindOf(b)
    ensures NotAfter(a, b) || NotAfter(b, a)
    ensures NotAfter(a, b) && NotAfter(b, c) ==> NotAfter(a, c)
  {
    if a.Str? {
      TextTotal(a.text, b.text);
      if NotAfter(a, b) && NotAfter(b, c) { TextTransitive(a.text, b.text, c.text); }
    }
  }

  ghost predicate Comparable(times: seq<Json>)
  {
    |times| > 1 ==> KindOf(times[0]) != Unordered && forall i :: 0 <= i < |times| ==> KindOf(times[i]) == KindOf(times[0])
  }

  /** Python's `max`; None is its TypeError. */
  method Latest(times: seq<Json>) returns (latest: Option<Json>)
    requires times != []
    ensures latest.Some? <==> Comparable(times)
    ensures latest.Some? ==> latest.value in times && forall i :: 0 <= i < |times| ==> NotAfter(times[i], latest.value)
  {
    hide NotAfter;
    var best := times[0];
    NotAfterOrder(best, best, best);
    for k := 1 to |times|
      invariant best in times[..k] && KindOf(best) == KindOf(times[0])
      invariant k > 1 ==> KindOf(times[0]) != Unordered
      invariant forall i :: 0 <= i < k ==> KindOf(times[i]) == KindOf(times[0]) && NotAfter(times[i], best)
    {
      var next := times[k];
      if KindOf(next) != KindOf(best) || KindOf(best) == Unordered { return None; }
      NotAfterOrder(next, next, next);
      NotAfterOrder(next, best, best);
      if !NotAfter(next, best) {
        forall i | 0 <= i < k ensures NotAfter(times[i], next) { NotAfterOrder(times[i], best, next); }
        best := next;
      }
      assert best in times[..k + 1];
    }
    latest := Some(best);
  }

  /** The finish times that are set. */
  function FinishTimes(inputs: seq<Input>): (r: seq<Json>)
  {
    if inputs == [] then []
    else
      var last := inputs[|inputs| - 1].report.finishedAt;
      FinishTimes(inputs[..|inputs| - 1]) + if Truthy(last) then [last] else []
  }

  // ---- the merge ----

  ghost predicate MergeSucceeds(inputs: seq<Input>)
  {
    && inputs != [] && AllValid(inputs) && Mergeable(inputs, MERGED_KEYS)
    && Comparable(FinishTimes(inputs))
  }

  function MergedFrom(inputs: seq<Input>): seq<Json>
  {
    seq(|inputs|, i requires 0 <= i < |inputs| =>
      Obj(map["source" := Str(inputs[i].source), "run_id" := inputs[i].report.runId,
              "scenario" := inputs[i].report.scenario, "status" := inputs[i].report.status,
              "started_at" := inputs[i].report.startedAt, "finished_at" := inputs[i].report.finishedAt,
              "conditions" := inputs[i].report.conditions]))
  }

  /** An entry of "merged_from" describes its input. */
  predicate Describes(j: Json, input: Input)
  {
    && j.Obj? && Get(j.fields, "source") == Str(input.source) && Get(j.fields, "run_id") == input.report.runId
    && Get(j.fields, "scenario") == input.report.scenario && Get(j.fields, "status") == input.report.status
    && Get(j.fields, "started_at") == input.report.startedAt && Get(j.fields, "finished_at") == input.report.finishedAt
    && Get(j.fields, "conditions") == input.report.conditions
  }

  lemma {:induction false} OriginsDescribed(inputs: seq<Input>)
    ensures |MergedFrom(inputs)| == |inputs|
    ensures forall i :: 0 <= i < |inputs| ==> Describes(MergedFrom(inputs)[i], inputs[i])
  {
    assert |"source"| == 6 && |"run_id"| == 6 && |"scenario"| == 8 && |"status"| == 6 && |"started_at"| == 10
        && |"finished_at"| == 11 && |"conditions"| == 10;
    assert "source"[1] == 'o' && "run_id"[1] == 'u' && "status"[1] == 't' && "started_at"[0] == 's' && "conditions"[0] == 'c';
  }

  /** The finish times that count are the ones that are set. */
  lemma {:induction false} FinishTimesIff(inputs: seq<Input>, t: Json)
    ensures t in FinishTimes(inputs) <==> Truthy(t) && exists i :: 0 <= i < |inputs| && inputs[i].report.finishedAt == t
  {
    if inputs != [] {
      var front := inputs[..|inputs| - 1];
      FinishTimesIff(front, t);
      assert forall i :: 0 <= i < |front| ==> front[i] == inputs[i];
    }
  }

  method FirstInvalid(inputs: seq<Input>) returns (index: Option<nat>)
    ensures index.None? <==> AllValid(inputs)
    ensures index.Some? ==> index.value < |inputs| && !Valid(inputs[index.value].report)
  {
    hide Valid;
    for i := 0 to |inputs|
      invariant AllValid(inputs[..i])
    {
      if !Valid(inputs[i].report) { return Some(i); }
      assert inputs[..i + 1] == inputs[..i] + [inputs[i]];
    }
    assert inputs[..|inputs|] == inputs;
    index := None;
  }

  /** No input fails a metric that the merge takes from it. */
  ghost predicate NoneFailing(inputs: seq<Input>)
  {
    forall key :: Taken(key) ==> !FailsIn(inputs, key)
  }

  ghost predicate FailsIn(inputs: seq<Input>, key: Metric)
  {
    exists i :: 0 <= i < |inputs| && Reports(inputs[i].report, key) && Failing(SectionOf(inputs[i].report, key))
  }

  /** What a merge returns. */
  ghost predicate IsMerge(r: Report, inputs: seq<Input>, show: Json -> string)
  {
    && Valid(r)
    && r.metrics.Some? && SectionsFor(r.metrics.value, inputs, set key | key in MERGED_KEYS)
    && r.errors == List(AllErrors(inputs, show)) && r.cleanupErrors == List(AllCleanupErrors(inputs, show))
    && r.ok == Bool(NoneFailing(inputs) && forall i :: 0 <= i < |inputs| ==> Clean(inputs[i]))
    && r.startedAt.Str? && r.startedAt.text in StartTimes(inputs)
    && (forall i :: 0 <= i < |inputs| ==> TextLe(r.startedAt.text, StartTimes(inputs)[i]))
    && r.scenario == Str("merged") && MergesFrom(r.conditions, inputs)
  }

  /** The conditions describe every input, in order. */
  ghost predicate MergesFrom(conditions: Json, inputs: seq<Input>)
  {
    && conditions.Obj? && Get(conditions.fields, "merged_from").List?
    && var origins := conditions.fields["merged_from"].items;
       |origins| == |inputs| && forall i :: 0 <= i < |inputs| ==> Describes(origins[i], inputs[i])
  }

  /** The latest of the times; without one, the time of the merge. */
  ghost predicate IsLatest(t: Json, times: seq<Json>, now: string)
  {
    if times == [] then t == Str(now) else t in times && forall i :: 0 <= i < |times| ==> NotAfter(times[i], t)
  }

  lemma {:induction false} TakenOk(inputs: seq<Input>, key: Metric, section: Json)
    requires AllValid(inputs) && Taken(key) && TakenFrom(section, inputs, key)
    ensures SectionOk(key, section) && section.Obj? && "status" in section.fields
    ensures Failing(section) <==> FailsIn(inputs, key)
  {
    hide Valid, SectionOk, Failing;
    DefaultSectionOk(key);
    DefaultNotFailing(key);
    if i: nat :| OnlyFrom(inputs, key, i) && section == Stamped(inputs[i], key) {
      StampedOk(inputs[i], key);
    }
  }

  lemma {:induction false} DefaultNotFailing(key: Metric)
    ensures DefaultSection(key).Obj? && "status" in DefaultSection(key).fields && !Failing(DefaultSection(key))
  {
    var m := DefaultSection(key).fields;
    assert |"n_failed"| == 8 && |"status"| == 6 && |"value"| == 5 && |"source"| == 6 && |"reason"| == 6;
    assert |"failed"| == 6 && |"not_run"| == 7 && |"external"| == 8 && |"unsupported"| == 11;
  }

  /** The merged sections pass the validator, and one is failing exactly when an input's was. */
  lemma {:induction false} SectionsOk(inputs: seq<Input>, metrics: map<Metric, Json>)
    requires AllValid(inputs) && SectionsFor(metrics, inputs, set key | key in MERGED_KEYS)
    ensures forall key :: key in metrics ==>
              SectionOk(key, metrics[key]) && metrics[key].Obj? && "status" in metrics[key].fields
    ensures (exists key :: key in metrics && Failing(metrics[key])) <==> !NoneFailing(inputs)
  {
    hide AllValid, TakenFrom, SectionOk, DefaultSection, FailsIn, Failing, Taken;
    MergedKeys();
    forall key | key in metrics
      ensures SectionOk(key, metrics[key]) && metrics[key].Obj? && "status" in metrics[key].fields
      ensures Failing(metrics[key]) <==> Taken(key) && FailsIn(inputs, key)
    {
      DefaultSectionOk(key);
      DefaultNotFailing(key);
      if Taken(key) { TakenOk(inputs, key, metrics[key]); }
    }
  }

  /** The merged report before its finish time. */
  method Assemble(inputs: seq<Input>, suffix: string, now: string, show: Json -> string, metrics: map<Metric, Json>)
    returns (merged: Report)
    requires inputs != [] && AllValid(inputs) && now != ""
    requires SectionsFor(metrics, inputs, set key | key in MERGED_KEYS)
    ensures IsMerge(merged, inputs, show) && merged.finishedAt == Str(now)
  {
    hide Valid, Finalize, SectionsFor, MergedFrom, Finalizable, MergesFrom, AllErrors, AllCleanupErrors, NoneFailing, Clean,
         TextLe;
    OriginsListed(inputs);
    var started := Earliest(StartTimes(inputs));
    StartTexts(inputs);
    var errors, cleanupErrors := CollectErrors(inputs, show);
    var r := NewReport("rlbench-merged-" + suffix, "merged", map["merged_from" := List(MergedFrom(inputs))], now);
    r := r.(startedAt := Str(started), metrics := Some(metrics), errors := List(errors),
            cleanupErrors := List(cleanupErrors));
    AssembledValid(inputs, metrics, r);
    merged := Finalize(r, false, now);
    AssembledOk(inputs, show, now, metrics, r);
  }

  lemma {:induction false} OriginsListed(inputs: seq<Input>)
    ensures MergesFrom(Obj(map["merged_from" := List(MergedFrom(inputs))]), inputs)
  {
    hide MergedFrom, Describes;
    OriginsDescribed(inputs);
  }

  lemma {:induction false} StartTexts(inputs: seq<Input>)
    requires AllValid(inputs)
    ensures forall i :: 0 <= i < |inputs| ==> StartTimes(inputs)[i] != ""
  {
    forall i | 0 <= i < |inputs| ensures StartTimes(inputs)[i] != "" { assert Valid(inputs[i].report); }
  }

  lemma {:induction false} MergedMetrics(inputs: seq<Input>, metrics: map<Metric, Json>)
    requires SectionsFor(metrics, inputs, set key | key in MERGED_KEYS)
    ensures METRIC_KEYS <= metrics.Keys && forall key :: key in metrics ==> !key.Other?
  {
    hide TakenFrom, DefaultSection;
    MergedKeys();
    assert METRIC_KEYS <= DefaultMetrics().Keys;
  }

  lemma {:induction false} AssembledValid(inputs: seq<Input>, metrics: map<Metric, Json>, r: Report)
    requires AllValid(inputs) && SectionsFor(metrics, inputs, set key | key in MERGED_KEYS)
    requires r.schema == Str(SCHEMA) && IsText(r.runId) && IsText(r.startedAt) && r.scenario == Str("merged")
    requires r.status == Str("running") && r.ok.Bool? && r.conditions.Obj? && r.cleanup.Obj?
    requires r.errors.List? && r.cleanupErrors.List? && r.metrics == Some(metrics)
    ensures Valid(r) && Finalizable(r) && MetricOf(r.scenario).None?
  {
    hide AllValid, MetricOf, SectionOk, SectionsFor;
    SectionsOk(inputs, metrics);
    NotAScenario();
    MergedMetrics(inputs, metrics);
  }

  lemma {:induction false} MergedFailed(inputs: seq<Input>, metrics: map<Metric, Json>, r: Report)
    requires AllValid(inputs) && SectionsFor(metrics, inputs, set key | key in MERGED_KEYS)
    requires Finalizable(r) && r.metrics == Some(metrics) && MetricOf(r.scenario).None?
    ensures Failed(r) <==> !NoneFailing(inputs)
  {
    hide AllValid, SectionsFor, NoneFailing, Failing, MetricOf;
    SectionsOk(inputs, metrics);
  }

  lemma {:induction false} AssembledOk(inputs: seq<Input>, show: Json -> string, now: string, metrics: map<Metric, Json>, r: Report)
    requires AllValid(inputs) && SectionsFor(metrics, inputs, set key | key in MERGED_KEYS)
    requires Valid(r) && Finalizable(r) && r.metrics == Some(metrics) && MetricOf(r.scenario).None?
    requires r.errors == List(AllErrors(inputs, show)) && r.cleanupErrors == List(AllCleanupErrors(inputs, show))
    ensures var f := Finalize(r, false, now);
            && Valid(f) && f.startedAt == r.startedAt && f.metrics == r.metrics && f.errors == r.errors
            && f.cleanupErrors == r.cleanupErrors && f.conditions == r.conditions && f.scenario == r.scenario
            && f.finishedAt == Str(now)
            && f.ok == Bool(NoneFailing(inputs) && forall i :: 0 <= i < |inputs| ==> Clean(inputs[i]))
  {
    hide Valid, AllValid, Finalizable, MetricOf, SectionsFor, AllErrors, AllCleanupErrors, Clean, NoneFailing, Failed;
    FinalizeValid(r, false, now);
    MergedFailed(inputs, metrics, r);
    ErrorFreeIffClean(inputs, show);
  }

  lemma {:induction false} NotAScenario()
    ensures MetricOf(Str("merged")).None?
  {
    assert |"merged"| == 6 && |"cold"| == 4 && |"warm"| == 4 && |"burst"| == 5 && |"rate"| == 4 && |"density"| == 7
        && |"park"| == 4 && |"rollout"| == 7;
  }

  method Merge(inputs: seq<Input>, suffix: string, now: string, show: Json -> string) returns (out: Outcome)
    requires now != ""
    ensures out.Merged? <==> MergeSucceeds(inputs)
    ensures out == NoInputs <==> inputs == []
    ensures out.InvalidInput? <==> !AllValid(inputs)
    ensures out.InvalidInput? ==> out.index < |inputs| && !Valid(inputs[out.index].report)
    ensures out.Repeated? ==> AllValid(inputs) && !Once(inputs, out.key)
    ensures out == Fault ==> (exists key :: key in MERGED_KEYS && !NoNull(inputs, key)) || !Comparable(FinishTimes(inputs))
    ensures out.Merged? ==> IsMerge(out.report, inputs, show) && IsLatest(out.report.finishedAt, FinishTimes(inputs), now)
  {
    hide Valid, IsMerge, NoNull, Once, NotAfter, Finalize;
    if inputs == [] { return NoInputs; }
    var invalid := FirstInvalid(inputs);
    if invalid.Some? { return InvalidInput(invalid.value); }
    var sections, failure := MergeSections(inputs);
    if failure.Some? { return failure.value; }
    var merged := Assemble(inputs, suffix, now, show, sections);
    var times := FinishTimes(inputs);
    if times == [] { return Merged(merged); }
    var latest := Latest(times);
    if latest.None? { return Fault; }
    FinishedLater(merged, inputs, show, latest.value);
    out := Merged(merged.(finishedAt := latest.value));
  }

  lemma {:induction false} FinishedLater(r: Report, inputs: seq<Input>, show: Json -> string, t: Json)
    requires IsMerge(r, inputs, show)
    ensures IsMerge(r.(finishedAt := t), inputs, show)
  {
    hide SectionsFor, AllErrors, AllCleanupErrors, NoneFailing, Clean, TextLe, MergesFrom;
    assert Valid(r.(finishedAt := t)) by { hide SectionOk, MetricOf; }
  }
}
