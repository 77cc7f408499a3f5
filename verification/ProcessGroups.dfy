/** Process-group inheritance of scripts/build_load_telemetry.py: groups are assigned in
    place while the process table is visited in directory order, each ungrouped process
    walking up its parents. */
module ProcessGroups {
  import opened Wrappers
  import Paths

  datatype Pid = Pid(number: int)

  /** One /proc row; `direct` is what direct_group says of it. */
  datatype Row = Row(comm: string, cgroup: string, parent: Pid, direct: Option<string>)

  type Rows = map<Pid, Row>

  /** Current group labels, one per row. */
  type Groups = map<Pid, Option<string>>

  const BUILDKIT: Option<string> := Some("buildkit")

  function Direct(rows: Rows): Groups { map p | p in rows :: rows[p].direct }

  /** Cgroups of the running buildkitd processes. */
  function BuildkitCgroups(rows: Rows): set<string>
  {
    set p | p in rows && rows[p].comm == "buildkitd" && rows[p].cgroup != "" && rows[p].cgroup != "/" :: rows[p].cgroup
  }

  predicate UnderBuildkit(rows: Rows, p: Pid)
    requires p in rows
  {
    exists path :: path in BuildkitCgroups(rows) && (rows[p].cgroup == path || path + "/" <= rows[p].cgroup)
  }

  /** Running under buildkit means that the parts of the process's cgroup begin with those of a buildkitd's. */
  lemma {:induction false} UnderBuildkitIff(rows: Rows, p: Pid)
    requires p in rows
    ensures UnderBuildkit(rows, p) <==>
            exists q :: q in rows && rows[q].comm == "buildkitd" && rows[q].cgroup != "" && rows[q].cgroup != "/"
                        && Paths.Split(rows[q].cgroup) <= Paths.Split(rows[p].cgroup)
  {
    forall q | q in rows {
      Paths.BelowIffPrefix(rows[q].cgroup, rows[p].cgroup);
    }
    if UnderBuildkit(rows, p) {
      var path :| path in BuildkitCgroups(rows) && (rows[p].cgroup == path || path + "/" <= rows[p].cgroup);
      var q :| q in rows && rows[q].comm == "buildkitd" && rows[q].cgroup == path;
      assert Paths.Split(rows[q].cgroup) <= Paths.Split(rows[p].cgroup);
    }
    if q :| q in rows && rows[q].comm == "buildkitd" && rows[q].cgroup != "" && rows[q].cgroup != "/"
            && Paths.Split(rows[q].cgroup) <= Paths.Split(rows[p].cgroup) {
      assert rows[q].cgroup in BuildkitCgroups(rows);
    }
  }

  /** Directly grouped, or running inside a buildkitd cgroup. */
  function Base(rows: Rows): Groups
  {
    map p | p in rows ::
      if rows[p].direct.None? && UnderBuildkit(rows, p) then BUILDKIT else rows[p].direct
  }

  // ---- the specification: the nearest labelled ancestor ----

  /** The k-th ancestor, while the chain stays inside the table. */
  ghost function Ancestor(rows: Rows, p: Pid, k: nat): (r: Option<Pid>)
    requires p in rows
    ensures r.Some? ==> r.value in rows
  {
    if k == 0 then Some(p)
    else
      var a := Ancestor(rows, p, k - 1);
      if a.Some? && rows[a.value].parent in rows then Some(rows[a.value].parent) else None
  }

  ghost predicate NearestAt(rows: Rows, seeds: Groups, p: Pid, k: nat)
    requires p in rows && seeds.Keys == rows.Keys
  {
    && k >= 1 && Ancestor(rows, p, k).Some? && seeds[Ancestor(rows, p, k).value].Some?
    && forall j :: 1 <= j < k && Ancestor(rows, p, j).Some? ==> seeds[Ancestor(rows, p, j).value].None?
  }

  /** The label of the nearest ancestor that has one; parent cycles have none to give. */
  ghost function Nearest(rows: Rows, seeds: Groups, p: Pid): Option<string>
    requires p in rows && seeds.Keys == rows.Keys
  {
    if k: nat :| NearestAt(rows, seeds, p, k) then seeds[Ancestor(rows, p, k).value] else None
  }

  lemma {:induction false} AncestorsBefore(rows: Rows, p: Pid, j: nat, k: nat)
    requires p in rows && j <= k && Ancestor(rows, p, k).Some?
    ensures Ancestor(rows, p, j).Some?
  {
    if j < k { AncestorsBefore(rows, p, j, k - 1); }
  }

  lemma {:induction false} NearestUnique(rows: Rows, seeds: Groups, p: Pid, k: nat, m: nat)
    requires p in rows && seeds.Keys == rows.Keys && NearestAt(rows, seeds, p, k) && NearestAt(rows, seeds, p, m)
    ensures k == m
  {
    hide Ancestor;
    assert Ancestor(rows, p, k).Some? && seeds[Ancestor(rows, p, k).value].Some?;
    assert Ancestor(rows, p, m).Some? && seeds[Ancestor(rows, p, m).value].Some?;
  }

  lemma {:induction false} NearestIs(rows: Rows, seeds: Groups, p: Pid, k: nat)
    requires p in rows && seeds.Keys == rows.Keys && NearestAt(rows, seeds, p, k)
    ensures Nearest(rows, seeds, p) == seeds[Ancestor(rows, p, k).value]
  {
    var m: nat :| NearestAt(rows, seeds, p, m) && Nearest(rows, seeds, p) == seeds[Ancestor(rows, p, m).value];
    NearestUnique(rows, seeds, p, k, m);
  }

  lemma {:induction false} AncestorAdds(rows: Rows, p: Pid, k: nat, i: nat)
    requires p in rows && Ancestor(rows, p, k).Some?
    ensures Ancestor(rows, p, k + i) == Ancestor(rows, Ancestor(rows, p, k).value, i)
  {
    if i > 0 { AncestorAdds(rows, p, k, i - 1); }
  }

  /** The chain of an ancestor is the rest of the chain. */
  lemma {:induction false} SuffixAt(rows: Rows, seeds: Groups, p: Pid, k: nat, i: nat)
    requires p in rows && seeds.Keys == rows.Keys && Ancestor(rows, p, k).Some? && i >= 1
    requires forall j :: 1 <= j <= k && Ancestor(rows, p, j).Some? ==> seeds[Ancestor(rows, p, j).value].None?
    ensures NearestAt(rows, seeds, p, k + i) <==> NearestAt(rows, seeds, Ancestor(rows, p, k).value, i)
  {
    var a := Ancestor(rows, p, k).value;
    AncestorAdds(rows, p, k, i);
    forall j | 1 <= j < i ensures Ancestor(rows, p, k + j) == Ancestor(rows, a, j) {
      AncestorAdds(rows, p, k, j);
    }
    hide Ancestor;
    if NearestAt(rows, seeds, p, k + i) {
      forall j | 1 <= j < i && Ancestor(rows, a, j).Some? ensures seeds[Ancestor(rows, a, j).value].None? {
        assert Ancestor(rows, p, k + j) == Ancestor(rows, a, j);
      }
    }
    if NearestAt(rows, seeds, a, i) {
      forall j | 1 <= j < k + i && Ancestor(rows, p, j).Some? ensures seeds[Ancestor(rows, p, j).value].None? {
        assert j > k ==> Ancestor(rows, p, k + (j - k)) == Ancestor(rows, a, j - k);
      }
    }
  }

  /** Unlabelled ancestors can be skipped. */
  lemma {:induction false} NearestSuffix(rows: Rows, seeds: Groups, p: Pid, k: nat)
    requires p in rows && seeds.Keys == rows.Keys && Ancestor(rows, p, k).Some?
    requires forall j :: 1 <= j <= k && Ancestor(rows, p, j).Some? ==> seeds[Ancestor(rows, p, j).value].None?
    ensures Nearest(rows, seeds, p) == Nearest(rows, seeds, Ancestor(rows, p, k).value)
  {
    hide Ancestor, Nearest;
    var a := Ancestor(rows, p, k).value;
    if i: nat :| NearestAt(rows, seeds, a, i) {
      SuffixAt(rows, seeds, p, k, i);
      AncestorAdds(rows, p, k, i);
      NearestIs(rows, seeds, p, k + i);
      NearestIs(rows, seeds, a, i);
    } else if m: nat :| NearestAt(rows, seeds, p, m) {
      SuffixAt(rows, seeds, p, k, m - k);
      assert false;
    } else {
      NearestNone(rows, seeds, p);
      NearestNone(rows, seeds, a);
    }
  }

  lemma {:induction false} NearestNone(rows: Rows, seeds: Groups, p: Pid)
    requires p in rows && seeds.Keys == rows.Keys && forall k: nat :: !NearestAt(rows, seeds, p, k)
    ensures Nearest(rows, seeds, p).None?
  {
  }

  // ---- the walk ----

  lemma {:induction false} FewerLeft(keys: set<Pid>, visited: set<Pid>, x: Pid)
    requires x in keys && x !in visited
    ensures |keys - (visited + {x})| < |keys - visited|
  {
    assert keys - visited == keys - (visited + {x}) + {x};
  }

  /** The inner while loop: the label found walking up from `parent`. */
  function Walk(rows: Rows, groups: Groups, parent: Pid, visited: set<Pid>): Option<string>
    requires groups.Keys == rows.Keys
    decreases |rows.Keys - visited|
  {
    if parent in rows && parent !in visited then
      if groups[parent].Some? then groups[parent]
      else
        FewerLeft(rows.Keys, visited, parent);
        Walk(rows, groups, rows[parent].parent, visited + {parent})
    else None
  }

  /** The first j links of p's chain, itself included. */
  ghost predicate Chain(rows: Rows, p: Pid, j: nat, visited: set<Pid>)
    requires p in rows
  {
    && j >= 1
    && (forall i :: 0 <= i < j ==> Ancestor(rows, p, i).Some? && Ancestor(rows, p, i).value in visited)
    && (forall x :: x in visited ==> exists i :: 0 <= i < j && Ancestor(rows, p, i) == Some(x))
  }

  lemma {:induction false} ClosedChain(rows: Rows, p: Pid, j: nat, visited: set<Pid>, k: nat)
    requires p in rows && Chain(rows, p, j, visited)
    requires rows[Ancestor(rows, p, j - 1).value].parent in visited
    ensures Ancestor(rows, p, k).Some? ==> Ancestor(rows, p, k).value in visited
  {
    if k > 0 {
      ClosedChain(rows, p, j, visited, k - 1);
      if Ancestor(rows, p, k).Some? {
        var i :| 0 <= i < j && Ancestor(rows, p, i) == Ancestor(rows, p, k - 1);
        assert i < j - 1 ==> Ancestor(rows, p, i + 1) == Ancestor(rows, p, k);
      }
    }
  }

  lemma {:induction false} NoneBeyond(rows: Rows, groups: Groups, p: Pid, j: nat, visited: set<Pid>)
    requires p in rows && groups.Keys == rows.Keys && Chain(rows, p, j, visited)
    requires forall x :: x in visited ==> x in rows && groups[x].None?
    requires var parent := rows[Ancestor(rows, p, j - 1).value].parent; parent !in rows || parent in visited
    ensures Nearest(rows, groups, p).None?
  {
    forall k: nat ensures !NearestAt(rows, groups, p, k) {
      if rows[Ancestor(rows, p, j - 1).value].parent in visited {
        ClosedChain(rows, p, j, visited, k);
      } else if k >= j && Ancestor(rows, p, k).Some? {
        AncestorsBefore(rows, p, j, k);
      }
    }
  }

  lemma {:induction false} ChainNext(rows: Rows, p: Pid, j: nat, visited: set<Pid>, parent: Pid)
    requires p in rows && Chain(rows, p, j, visited) && Ancestor(rows, p, j) == Some(parent)
    ensures Chain(rows, p, j + 1, visited + {parent})
  {
    hide Ancestor;
    forall x | x in visited + {parent} ensures exists i :: 0 <= i < j + 1 && Ancestor(rows, p, i) == Some(x) {
      if x != parent { var i :| 0 <= i < j && Ancestor(rows, p, i) == Some(x); }
    }
  }

  lemma {:induction false} NearestNow(rows: Rows, groups: Groups, p: Pid, j: nat, visited: set<Pid>)
    requires p in rows && groups.Keys == rows.Keys && Chain(rows, p, j, visited)
    requires forall x :: x in visited ==> x in rows && groups[x].None?
    requires Ancestor(rows, p, j).Some? && groups[Ancestor(rows, p, j).value].Some?
    ensures Nearest(rows, groups, p) == groups[Ancestor(rows, p, j).value]
  {
    hide Ancestor;
    assert NearestAt(rows, groups, p, j);
    NearestIs(rows, groups, p, j);
  }

  lemma {:induction false} WalkFrom(rows: Rows, groups: Groups, p: Pid, j: nat, visited: set<Pid>)
    requires p in rows && groups.Keys == rows.Keys && Chain(rows, p, j, visited)
    requires forall x :: x in visited ==> x in rows && groups[x].None?
    ensures Walk(rows, groups, rows[Ancestor(rows, p, j - 1).value].parent, visited) == Nearest(rows, groups, p)
    decreases |rows.Keys - visited|
  {
    hide Walk, Ancestor, Nearest, Chain;
    ChainLast(rows, p, j, visited);
    var parent := rows[Ancestor(rows, p, j - 1).value].parent;
    WalkStep(rows, groups, parent, visited);
    if parent !in rows || parent in visited {
      NoneBeyond(rows, groups, p, j, visited);
      return;
    }
    NextLink(rows, p, j);
    if groups[parent].Some? {
      NearestNow(rows, groups, p, j, visited);
    } else {
      ChainNext(rows, p, j, visited, parent);
      FewerLeft(rows.Keys, visited, parent);
      WalkFrom(rows, groups, p, j + 1, visited + {parent});
    }
  }

  lemma {:induction false} ChainLast(rows: Rows, p: Pid, j: nat, visited: set<Pid>)
    requires p in rows && Chain(rows, p, j, visited)
    ensures j >= 1 && Ancestor(rows, p, j - 1).Some?
  {
  }

  lemma {:induction false} NextLink(rows: Rows, p: Pid, j: nat)
    requires p in rows && j >= 1 && Ancestor(rows, p, j - 1).Some?
    requires rows[Ancestor(rows, p, j - 1).value].parent in rows
    ensures Ancestor(rows, p, j) == Some(rows[Ancestor(rows, p, j - 1).value].parent)
  {
  }

  lemma {:induction false} WalkStep(rows: Rows, groups: Groups, parent: Pid, visited: set<Pid>)
    requires groups.Keys == rows.Keys
    ensures parent !in rows || parent in visited ==> Walk(rows, groups, parent, visited).None?
    ensures parent in rows && parent !in visited && groups[parent].Some? ==>
              Walk(rows, groups, parent, visited) == groups[parent]
    ensures parent in rows && parent !in visited && groups[parent].None? ==>
              Walk(rows, groups, parent, visited) == Walk(rows, groups, rows[parent].parent, visited + {parent})
  {
  }

  /** The walk terminates on every parent map and finds the nearest label. */
  lemma {:induction false} WalkIsNearest(rows: Rows, groups: Groups, p: Pid)
    requires p in rows && groups.Keys == rows.Keys && groups[p].None?
    ensures Walk(rows, groups, rows[p].parent, {p}) == Nearest(rows, groups, p)
  {
    assert Ancestor(rows, p, 0) == Some(p);
    assert Chain(rows, p, 1, {p});
    WalkFrom(rows, groups, p, 1, {p});
  }

  // ---- visiting the table ----

  /** One iteration of the outer loop. */
  function Visited(rows: Rows, groups: Groups, p: Pid): (r: Groups)
    requires p in rows && groups.Keys == rows.Keys
    ensures r.Keys == groups.Keys
  {
    if groups[p].Some? then groups
    else if UnderBuildkit(rows, p) then groups[p := BUILDKIT]
    else groups[p := Walk(rows, groups, rows[p].parent, {p})]
  }

  function VisitAll(rows: Rows, groups: Groups, order: seq<Pid>): (r: Groups)
    requires groups.Keys == rows.Keys && forall p :: p in order ==> p in rows
    ensures r.Keys == rows.Keys
  {
    if order == [] then groups
    else
      assert order[|order| - 1] in order;
      assert forall p :: p in order[..|order| - 1] ==> p in order;
      Visited(rows, VisitAll(rows, groups, order[..|order| - 1]), order[|order| - 1])
  }

  /** The inner loop of `processes`. */
  method WalkUp(rows: Rows, groups: Groups, pid: Pid) returns (found: Option<string>)
    requires pid in rows && groups.Keys == rows.Keys
    ensures found == Walk(rows, groups, rows[pid].parent, {pid})
  {
    var parent, visited := rows[pid].parent, {pid};
    while parent in rows && parent !in visited
      invariant Walk(rows, groups, rows[pid].parent, {pid}) == Walk(rows, groups, parent, visited)
      decreases |rows.Keys - visited|
    {
      FewerLeft(rows.Keys, visited, parent);
      visited := visited + {parent};
      if groups[parent].Some? { return groups[parent]; }
      parent := rows[parent].parent;
    }
    found := None;
  }

  /** The outer loop of `processes`. */
  method AssignGroups(rows: Rows, order: seq<Pid>) returns (groups: Groups)
    requires forall p :: p in order ==> p in rows
    ensures groups == VisitAll(rows, Direct(rows), order)
  {
    hide UnderBuildkit, Walk, Direct;
    groups := Direct(rows);
    assert groups.Keys == rows.Keys by { DirectKeys(rows); }
    var i := 0;
    while i < |order|
      invariant 0 <= i <= |order|
      invariant groups.Keys == rows.Keys && forall p :: p in order[..i] ==> p in rows
      invariant groups == VisitAll(rows, Direct(rows), order[..i])
    {
      var pid := order[i];
      assert pid in order && order[..i + 1][..i] == order[..i];
      if groups[pid].None? && UnderBuildkit(rows, pid) {
        groups := groups[pid := BUILDKIT];
      }
      if groups[pid].None? {
        var found := WalkUp(rows, groups, pid);
        groups := groups[pid := found];
      }
      i := i + 1;
    }
    assert order[..i] == order;
  }

  lemma {:induction false} DirectKeys(rows: Rows)
    ensures Direct(rows).Keys == rows.Keys
  {
  }

  // ---- order independence ----

  ghost predicate Enumerates(order: seq<Pid>, rows: Rows)
  {
    && (forall p :: p in order <==> p in rows)
    && (forall i, j :: 0 <= i < j < |order| ==> order[i] != order[j])
  }

  ghost predicate OrderIndependent(rows: Rows)
  {
    forall a, b :: Enumerates(a, rows) && Enumerates(b, rows) ==>
      VisitAll(rows, Direct(rows), a) == VisitAll(rows, Direct(rows), b)
  }

  /** No process without a label of its own sees a buildkitd cgroup between itself and a
      directly grouped ancestor of another group. */
  ghost predicate LabelsAgree(rows: Rows)
  {
    forall p :: p in rows && Base(rows)[p].None? ==>
      Nearest(rows, Direct(rows), p) == Nearest(rows, Base(rows), p)
  }

  /** The group every order then gives. */
  ghost function Settled(rows: Rows, p: Pid): Option<string>
    requires p in rows
  {
    if Base(rows)[p].Some? then Base(rows)[p] else Nearest(rows, Direct(rows), p)
  }

  /** Labels reached part way: direct ones stay, others are missing or settled. */
  ghost predicate PartWay(rows: Rows, groups: Groups)
  {
    && groups.Keys == rows.Keys
    && forall q :: q in rows ==>
         (rows[q].direct.Some? ==> groups[q] == rows[q].direct) && (groups[q].None? || groups[q] == Settled(rows, q))
  }

  lemma {:induction false} BaseFacts(rows: Rows)
    ensures Base(rows).Keys == Direct(rows).Keys == rows.Keys
    ensures forall q :: q in rows ==> Direct(rows)[q] == rows[q].direct
    ensures forall q :: q in rows && rows[q].direct.Some? ==> Base(rows)[q] == rows[q].direct
    ensures forall q :: q in rows && rows[q].direct.None? ==>
              Base(rows)[q] == if UnderBuildkit(rows, q) then BUILDKIT else None
  {
    hide UnderBuildkit;
  }

  /** A buildkitd cgroup on the way is what the base labels show first. */
  lemma {:induction false} CgroupOnTheWay(rows: Rows, groups: Groups, p: Pid, k: nat)
    requires PartWay(rows, groups) && p in rows && NearestAt(rows, groups, p, k)
    requires rows[Ancestor(rows, p, k).value].direct.None? && Base(rows)[Ancestor(rows, p, k).value].Some?
    ensures Nearest(rows, Base(rows), p) == BUILDKIT == groups[Ancestor(rows, p, k).value]
  {
    BaseFacts(rows);
    hide Ancestor, UnderBuildkit, Direct, Base;
    var m := FirstLabel(rows, Base(rows), p, k);
    NearestIs(rows, Base(rows), p, m);
    assert m < k ==> groups[Ancestor(rows, p, m).value].None?;
  }

  lemma {:induction false} DirectOnTheWay(rows: Rows, groups: Groups, p: Pid, k: nat)
    requires PartWay(rows, groups) && p in rows && NearestAt(rows, groups, p, k)
    requires Base(rows)[Ancestor(rows, p, k).value].None? || rows[Ancestor(rows, p, k).value].direct.Some?
    ensures Nearest(rows, Direct(rows), p) == groups[Ancestor(rows, p, k).value]
  {
    BaseFacts(rows);
    hide Ancestor, UnderBuildkit, Direct, Base;
    if rows[Ancestor(rows, p, k).value].direct.Some? {
      assert NearestAt(rows, Direct(rows), p, k);
      NearestIs(rows, Direct(rows), p, k);
    } else {
      NearestSuffix(rows, Direct(rows), p, k);
    }
  }

  lemma {:induction false} NothingOnTheWay(rows: Rows, groups: Groups, p: Pid)
    requires PartWay(rows, groups) && p in rows
    requires forall k: nat :: !NearestAt(rows, groups, p, k)
    ensures Nearest(rows, Direct(rows), p).None?
  {
    BaseFacts(rows);
    hide Ancestor, UnderBuildkit, Direct, Base;
    if k: nat :| NearestAt(rows, Direct(rows), p, k) {
      var m := FirstLabel(rows, groups, p, k);
      assert false;
    }
  }

  lemma {:induction false} PartWayNearest(rows: Rows, groups: Groups, p: Pid)
    requires LabelsAgree(rows) && PartWay(rows, groups) && p in rows && Base(rows)[p].None?
    ensures Nearest(rows, groups, p) == Settled(rows, p)
  {
    BaseFacts(rows);
    hide Ancestor, UnderBuildkit, Base;
    if k: nat :| NearestAt(rows, groups, p, k) {
      NearestIs(rows, groups, p, k);
      var a := Ancestor(rows, p, k).value;
      if rows[a].direct.None? && Base(rows)[a].Some? {
        CgroupOnTheWay(rows, groups, p, k);
      } else {
        DirectOnTheWay(rows, groups, p, k);
      }
    } else {
      NothingOnTheWay(rows, groups, p);
    }
  }

  lemma {:induction false} FirstLabel(rows: Rows, seeds: Groups, p: Pid, k: nat) returns (m: nat)
    requires p in rows && seeds.Keys == rows.Keys && k >= 1
    requires Ancestor(rows, p, k).Some? && seeds[Ancestor(rows, p, k).value].Some?
    ensures m <= k && NearestAt(rows, seeds, p, m)
  {
    if j :| 1 <= j < k && Ancestor(rows, p, j).Some? && seeds[Ancestor(rows, p, j).value].Some? {
      m := FirstLabel(rows, seeds, p, j);
    } else {
      m := k;
    }
  }

  lemma {:induction false} StartsPartWay(rows: Rows)
    ensures PartWay(rows, Direct(rows))
  {
    BaseFacts(rows);
    hide UnderBuildkit;
  }

  lemma {:induction false} VisitsSettle(rows: Rows, order: seq<Pid>)
    requires LabelsAgree(rows) && forall p :: p in order ==> p in rows
    ensures PartWay(rows, VisitAll(rows, Direct(rows), order))
    ensures forall p :: p in order ==> VisitAll(rows, Direct(rows), order)[p] == Settled(rows, p)
  {
    hide Visited, LabelsAgree, Settled;
    if order == [] {
      StartsPartWay(rows);
    } else {
      var last, front := order[|order| - 1], order[..|order| - 1];
      assert last in order && forall p :: p in front ==> p in order;
      VisitsSettle(rows, front);
      VisitSettles(rows, VisitAll(rows, Direct(rows), front), last);
      assert order == front + [last];
    }
  }

  lemma {:induction false} VisitSettles(rows: Rows, groups: Groups, p: Pid)
    requires LabelsAgree(rows) && PartWay(rows, groups) && p in rows
    ensures PartWay(rows, Visited(rows, groups, p)) && Visited(rows, groups, p)[p] == Settled(rows, p)
    ensures forall q :: q in rows && q != p ==> Visited(rows, groups, p)[q] == groups[q]
  {
    BaseFacts(rows);
    hide UnderBuildkit, Walk, Nearest, Direct, Base, LabelsAgree;
    if groups[p].None? && !UnderBuildkit(rows, p) {
      WalkIsNearest(rows, groups, p);
      PartWayNearest(rows, groups, p);
    }
  }

  /** Sufficiency, with the group each process gets. */
  lemma {:induction false} AgreeingLabelsSettle(rows: Rows, order: seq<Pid>)
    requires LabelsAgree(rows) && Enumerates(order, rows)
    ensures forall p :: p in rows ==> VisitAll(rows, Direct(rows), order)[p] == Settled(rows, p)
  {
    VisitsSettle(rows, order);
  }

  // ---- necessity ----

  lemma {:induction false} PickInt(s: set<Pid>) returns (k: Pid)
    requires s != {}
    ensures k in s
  {
    if forall x :: x !in s { assert false; }
    k :| k in s;
  }

  ghost function Listed(s: set<Pid>): (r: seq<Pid>)
    ensures forall x :: x in r <==> x in s
    ensures forall i, j :: 0 <= i < j < |r| ==> r[i] != r[j]
    decreases |s|
  {
    if s == {} then [] else
    assert exists x :: x in s by { var k := PickInt(s); }
    var x :| x in s;
    Listed(s - {x}) + [x]
  }

  lemma {:induction false} LaterVisitsKeep(rows: Rows, first: seq<Pid>, later: seq<Pid>, p: Pid)
    requires forall q :: q in first + later ==> q in rows
    requires p in rows && p !in later
    ensures forall q :: q in first ==> q in rows
    ensures VisitAll(rows, Direct(rows), first + later)[p] == VisitAll(rows, Direct(rows), first)[p]
  {
    assert forall q :: q in first ==> q in first + later;
    if later != [] {
      var front := later[..|later| - 1];
      assert first + later == (first + front) + [later[|later| - 1]];
      assert (first + later)[..|first + later| - 1] == first + front;
      LaterVisitsKeep(rows, first, front, p);
    } else {
      assert first + later == first;
    }
  }

  /** Visiting exactly the processes inside buildkitd cgroups leaves the base labels. */
  lemma {:induction false} CgroupVisits(rows: Rows, inside: seq<Pid>)
    requires forall q :: q in inside ==> q in rows && rows[q].direct.None? && UnderBuildkit(rows, q)
    ensures var groups := VisitAll(rows, Direct(rows), inside);
            forall q :: q in rows ==> groups[q] == if q in inside then BUILDKIT else rows[q].direct
  {
    if inside != [] {
      var front, last := inside[..|inside| - 1], inside[|inside| - 1];
      assert inside == front + [last];
      CgroupVisits(rows, front);
    }
  }

  /** Visited first, a process sees only direct labels. */
  lemma {:induction false} VisitedFirst(rows: Rows, p: Pid)
    requires p in rows && Base(rows)[p].None?
    ensures Enumerates([p] + Listed(rows.Keys - {p}), rows)
    ensures VisitAll(rows, Direct(rows), [p] + Listed(rows.Keys - {p}))[p] == Nearest(rows, Direct(rows), p)
  {
    BaseFacts(rows);
    hide UnderBuildkit, Walk, Nearest, Direct, Base, Listed;
    LaterVisitsKeep(rows, [p], Listed(rows.Keys - {p}), p);
    assert [p][..0] == [];
    WalkIsNearest(rows, Direct(rows), p);
  }

  ghost function Inside(rows: Rows): set<Pid>
  {
    set q | q in rows && rows[q].direct.None? && UnderBuildkit(rows, q)
  }

  ghost function CgroupsFirst(rows: Rows, p: Pid): seq<Pid>
  {
    (Listed(Inside(rows)) + [p]) + Listed(rows.Keys - Inside(rows) - {p})
  }

  lemma {:induction false} EnumeratesParts(rows: Rows, part: set<Pid>, p: Pid)
    requires p in rows && p !in part && part <= rows.Keys
    ensures Enumerates((Listed(part) + [p]) + Listed(rows.Keys - part - {p}), rows)
  {
    hide Listed;
    var a, b := Listed(part), Listed(rows.Keys - part - {p});
    forall i, j | 0 <= i < j < |a| + 1 + |b| ensures ((a + [p]) + b)[i] != ((a + [p]) + b)[j] {
      if i < |a| && j > |a| { assert a[i] in a && b[j - |a| - 1] in b; }
      if i < |a| && j == |a| { assert a[i] in a; }
      if i == |a| { assert b[j - |a| - 1] in b; }
    }
  }

  /** Visited after just the buildkitd cgroups, it sees the base labels. */
  lemma {:induction false} VisitedAfterCgroups(rows: Rows, p: Pid)
    requires p in rows && Base(rows)[p].None?
    ensures Enumerates(CgroupsFirst(rows, p), rows)
    ensures VisitAll(rows, Direct(rows), CgroupsFirst(rows, p))[p] == Nearest(rows, Base(rows), p)
  {
    BaseFacts(rows);
    hide UnderBuildkit, Walk, Nearest, Direct, Base, Listed, Enumerates;
    var inside := Listed(Inside(rows));
    EnumeratesParts(rows, Inside(rows), p);
    LaterVisitsKeep(rows, inside + [p], Listed(rows.Keys - Inside(rows) - {p}), p);
    CgroupVisits(rows, inside);
    SameGroups(rows, VisitAll(rows, Direct(rows), inside), Base(rows));
    assert (inside + [p])[..|inside|] == inside;
    WalkIsNearest(rows, Base(rows), p);
  }

  lemma {:induction false} DisagreementShows(rows: Rows, p: Pid)
    requires p in rows && Base(rows)[p].None?
    requires Nearest(rows, Direct(rows), p) != Nearest(rows, Base(rows), p)
    ensures !OrderIndependent(rows)
  {
    hide Base, Nearest, VisitAll, Direct, Enumerates;
    VisitedFirst(rows, p);
    VisitedAfterCgroups(rows, p);
  }

  lemma {:induction false} SameGroups(rows: Rows, a: Groups, b: Groups)
    requires a.Keys == b.Keys == rows.Keys && forall p :: p in rows ==> a[p] == b[p]
    ensures a == b
  {
  }

  /** The result is the same for every visiting order exactly when the labels agree. */
  lemma {:induction false} OrderIndependentIff(rows: Rows)
    ensures OrderIndependent(rows) <==> LabelsAgree(rows)
  {
    if LabelsAgree(rows) {
      forall a, b | Enumerates(a, rows) && Enumerates(b, rows)
        ensures VisitAll(rows, Direct(rows), a) == VisitAll(rows, Direct(rows), b)
      {
        AgreeingLabelsSettle(rows, a);
        AgreeingLabelsSettle(rows, b);
        SameGroups(rows, VisitAll(rows, Direct(rows), a), VisitAll(rows, Direct(rows), b));
      }
    } else {
      var p :| p in rows && Base(rows)[p].None? && Nearest(rows, Direct(rows), p) != Nearest(rows, Base(rows), p);
      DisagreementShows(rows, p);
    }
  }

  /** With no buildkitd cgroup, every order gives each ungrouped process the group of its
      nearest directly grouped ancestor. */
  lemma {:induction false} WithoutBuildkit(rows: Rows, order: seq<Pid>)
    requires BuildkitCgroups(rows) == {} && Enumerates(order, rows)
    ensures forall p :: p in rows ==>
              VisitAll(rows, Direct(rows), order)[p]
              == if rows[p].direct.Some? then rows[p].direct else Nearest(rows, Direct(rows), p)
  {
    assert Base(rows) == Direct(rows);
    AgreeingLabelsSettle(rows, order);
  }

  /** Order matters in general: a child of a process inside buildkitd's cgroup, whose own
      grouped ancestor is nginx. */
  lemma {:induction false} OrderMatters() returns (rows: Rows)
    ensures !OrderIndependent(rows)
  {
    var bk, sh, runc, nginx := Pid(1), Pid(2), Pid(3), Pid(4);
    rows := map[bk := Row("buildkitd", "/bk", Pid(0), BUILDKIT), sh := Row("sh", "/", runc, None),
                runc := Row("runc", "/bk", nginx, None), nginx := Row("nginx", "/", Pid(0), Some("nginx"))];
    assert "/bk" in BuildkitCgroups(rows) by { assert bk in rows && rows[bk].cgroup == "/bk"; }
    assert UnderBuildkit(rows, runc);
    assert !UnderBuildkit(rows, sh) by {
      forall path | path in BuildkitCgroups(rows) ensures path == "/bk" {}
    }
    assert Ancestor(rows, sh, 0) == Some(sh) && Ancestor(rows, sh, 1) == Some(runc) && Ancestor(rows, sh, 2) == Some(nginx);
    assert NearestAt(rows, Direct(rows), sh, 2) && NearestAt(rows, Base(rows), sh, 1);
    NearestIs(rows, Direct(rows), sh, 2);
    NearestIs(rows, Base(rows), sh, 1);
    DisagreementShows(rows, sh);
  }
}
