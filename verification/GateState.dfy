/** State of the gate driver of scripts/chunk_store_gate.py: the state file, the provider's and the gateway's world,
    the history of what was done, and the invariant that ties them together. A server's name is a fixed prefix of the
    run followed by its role, so servers, addresses and host keys are identified by role. */
module GateState {
  import opened Wrappers

  datatype Role = Store | Converter | Canary(number: nat) | Baseline

  datatype Phase = Provision | Configure | Convert | Crash | Workers | Rollback | Report | Teardown

  /** A step of a phase, by what it does to the modelled state; `Task` is any other step and the hosts it logs in to,
      and `Job` a detached unit on the converter that writes S3 objects. */
  datatype Step = Task(name: string, hosts: set<Role>) | Job(name: string) | MakeStaging | KnownHosts | Create(role: Role) | Ssh(role: Role)
                | Runtime(role: Role) | Forget(role: Role) | Init(role: Role) | Drain(role: Role)

  datatype Status = Running | Done | Failed

  /** A server record; `created` says its id is known. */
  datatype Server = Server(created: bool, registered: bool, drained: bool)

  datatype Record = Record(status: Status, steps: set<Step>)

  /** state.json. */
  datatype File = File(servers: map<Role, Server>, staging: bool, knownHosts: set<Role>, s3: bool,
                       phases: map<Phase, Record>)

  /** Servers at the provider, hz.py's ledger of them, the staging directory, and host keys the gateway has stored. */
  datatype World = World(servers: set<Role>, ledger: set<Role>, staging: bool, hostKeys: set<Role>)

  /** Whether S3 holds objects of the run, and the hosts on which a detached unit is running. A unit outlives the driver
      that started it and ends with its host. */
  datatype Bucket = Bucket(objects: bool, jobs: set<Role>)

  /** What the running units do between two operations of the driver. */
  datatype Move = Idle | Write | End

  function Drift(b: Bucket, move: Move): Bucket
  {
    match move
    case Idle => b
    case Write => if b.jobs == {} then b else b.(objects := true)
    case End => b.(jobs := {})
  }

  datatype Action =
    | Accepted(role: Role)
    | Registered(role: Role)
    | InitCalled(role: Role)
    | DrainTried(role: Role)
    | DrainOk(role: Role)
    | DeleteCalled(role: Role)
    | Confirmed(role: Role)
    | Keyed
    | Cleared
    | StagingMade
    | StagingRemoved
    | TornDown
    | Reached(hosts: set<Role>)
    | Forgotten(hosts: set<Role>)
    | Started(name: string)
    | Ended(name: string)
    | Executed(phase: Phase, step: Step)
    | Recorded(phase: Phase, step: Step)
    | Began(phase: Phase, keepStore: bool)
    | Finished(phase: Phase)

  /** What survives a crash, with the history so far. */
  datatype Sys = Sys(disk: File, world: World, log: seq<Action>)

  /** The driver's arguments. */
  datatype Config = Config(workers: nat, baseline: bool, nydusd: bool, skipBench: bool)

  // ---- plans ----

  function Needs(p: Phase): Option<Phase>
  {
    match p
    case Configure => Some(Provision)
    case Convert => Some(Configure)
    case Crash => Some(Convert)
    case Workers => Some(Convert)
    case Rollback => Some(Convert)
    case _ => None
  }

  /** Phases that run once. */
  predicate Stable(p: Phase) { p != Report && p != Teardown }

  function Canaries(n: nat): seq<Role>
  {
    if n == 0 then [] else Canaries(n - 1) + [Canary(n)]
  }

  function WorkerRoles(c: Config): seq<Role>
  {
    Canaries(c.workers) + if c.baseline then [Baseline] else []
  }

  function AllRoles(c: Config): set<Role>
  {
    {Store, Converter} + set r | r in WorkerRoles(c)
  }

  const STORE_AND_CONVERTER: set<Role> := {Store, Converter}

  function SetUp(c: Config, r: Role): seq<Step>
  {
    [Create(r), Forget(r), Ssh(r)]
    + (if c.nydusd && r != Baseline then [Task("nydusd", {r})] else [])
    + [Init(r), Task("health", {r}), Task("stage", {r})]
  }

  function SetUpAll(c: Config, roles: seq<Role>): seq<Step>
  {
    if roles == [] then [] else SetUpAll(c, roles[..|roles| - 1]) + SetUp(c, roles[|roles| - 1])
  }

  function DrainAll(roles: seq<Role>): seq<Step>
  {
    if roles == [] then [] else DrainAll(roles[..|roles| - 1]) + [Drain(roles[|roles| - 1])]
  }

  /** The benches; one canary runs them in turn. */
  function Benches(c: Config): seq<Step>
  {
    var first, last := {Canary(1)}, {Canary(c.workers)};
    [Task("start-bench-seq", first)]
    + (if c.workers == 1 then [Task("bench-seq", first)] else [])
    + [Task("start-bench-burst", last)]
    + (if c.baseline then [Task("start-bench-burst-base", {Baseline})] else [])
    + (if c.workers == 1 then [] else [Task("bench-seq", first)])
    + [Task("bench-burst", last)]
    + (if c.baseline then [Task("bench-burst-base", {Baseline})] else [])
  }

  function Configs(c: Config): seq<Step>
  {
    [Task("gateway-runtime", {}), Task("trust", {}), Task("canary-config", {})]
    + if c.baseline then [Task("baseline-config", {})] else []
  }

  function WorkersReady(c: Config): seq<Step>
  {
    Configs(c) + SetUpAll(c, WorkerRoles(c))
  }

  function WorkersPlan(c: Config): seq<Step>
  {
    if c.skipBench then WorkersReady(c) else WorkersReady(c) + Benches(c) + DrainAll(WorkerRoles(c))
  }

  const PROVISION_PLAN: seq<Step> := [Task("preflight", {}), Task("addresses", {}), MakeStaging, KnownHosts,
                                      Create(Store), Create(Converter), Ssh(Store), Ssh(Converter)]

  const CONFIGURE_PLAN: seq<Step> := [Task("stage", {}), Task("s3-env", {}), Task("config-store", {}), Runtime(Store),
                                      Task("config-converter", {}), Runtime(Converter), Task("nydus", {Converter}),
                                      Task("registry", {Store}), Task("store-service", {Store, Converter}),
                                      Task("tokens", {Store, Converter}), Task("validate-store", {Store}),
                                      Task("validate-converter", {Converter}), Task("producer-key", {Converter})]

  function Plan(c: Config, p: Phase): seq<Step>
  {
    match p
    case Provision => PROVISION_PLAN
    case Configure => CONFIGURE_PLAN
    case Convert => [Task("mirror", {Converter}), Task("holdout", {Converter}), Job("convert"),
                     Task("results", {Converter}), Task("tally", {Store, Converter})]
    case Crash => [Job("crash"), Task("results", {Converter}), Task("tally", {Store, Converter})]
    case Workers => WorkersPlan(c)
    case Rollback => [Job("rollback"), Task("results", {Converter})]
    case Report => []
    case Teardown => []
  }

  /** The hosts a step logs in to. */
  function Hosts(s: Step): set<Role>
  {
    match s
    case Task(_, hosts) => hosts
    case Job(_) => {Converter}
    case Ssh(r) => {r}
    case Runtime(r) => {r}
    case Init(r) => {r}
    case Drain(r) => {r}
    case _ => {}
  }

  /** What running a step to its end does, as seen in the history. A server may have been created by an interrupted run
      of its step. */
  function Effects(c: Config, s: Step): set<Action>
  {
    match s
    case Task(_, hosts) => {Reached(hosts)}
    case Job(name) => {Started(name), Ended(name), Reached({Converter})}
    case MakeStaging => {StagingMade}
    case KnownHosts => {Forgotten(AllRoles(c))}
    case Create(_) => {}
    case Ssh(r) => {Reached({r})}
    case Runtime(r) => {Keyed, Reached({r})}
    case Forget(r) => {Forgotten({r})}
    case Init(r) => {Registered(r), InitCalled(r), Reached({r})}
    case Drain(r) => {Reached({r}), DrainOk(r)}
  }

  /** Phases that start units writing S3 objects. */
  predicate Writes(p: Phase) { p == Convert || p == Crash || p == Rollback }

  /** What must already be recorded when a step runs. */
  ghost predicate Ordered(c: Config, p: Phase, before: seq<Step>, s: Step)
  {
    && Hosts(s) <= AllRoles(c)
    && (Hosts(s) != {} && p == Provision ==> KnownHosts in before)
    && (s.Create? ==> s.role in AllRoles(c))
    && (s.Init? ==> p == Workers && Create(s.role) in before)
    && (s.Drain? ==> p == Workers && Create(s.role) in before && Init(s.role) in before)
    && (s.Forget? ==> s.role in AllRoles(c))
    && (s.MakeStaging? || s.KnownHosts? ==> p == Provision)
    && (s.Runtime? ==> p == Configure)
    && (s.Job? ==> Writes(p))
  }

  ghost predicate WellOrdered(c: Config, p: Phase, before: seq<Step>, plan: seq<Step>)
  {
    forall i :: 0 <= i < |plan| ==> Ordered(c, p, before + plan[..i], plan[i])
  }

  lemma {:induction false} CanaryMembers(n: nat, k: nat)
    requires 1 <= k <= n
    ensures Canary(k) in Canaries(n)
  {
    if k < n { CanaryMembers(n - 1, k); }
  }

  lemma {:induction false} OrderedConcat(c: Config, p: Phase, before: seq<Step>, a: seq<Step>, b: seq<Step>)
    requires WellOrdered(c, p, before, a) && WellOrdered(c, p, before + a, b)
    ensures WellOrdered(c, p, before, a + b)
  {
    hide Ordered;
    forall i | 0 <= i < |a + b| ensures Ordered(c, p, before + (a + b)[..i], (a + b)[i]) {
      if i < |a| {
        assert (a + b)[..i] == a[..i];
      } else {
        assert before + (a + b)[..i] == before + a + b[..i - |a|];
      }
    }
  }

  /** Steps that need nothing before them in their phase. */
  ghost predicate Plain(c: Config, p: Phase, s: Step)
  {
    p != Provision && Hosts(s) <= AllRoles(c) && (s.Task? || (s.Runtime? && p == Configure) || (s.Job? && Writes(p)))
  }

  lemma {:induction false} PlainOrdered(c: Config, p: Phase, before: seq<Step>, plan: seq<Step>)
    requires forall i :: 0 <= i < |plan| ==> Plain(c, p, plan[i])
    ensures WellOrdered(c, p, before, plan)
  {
    forall i | 0 <= i < |plan| ensures Ordered(c, p, before + plan[..i], plan[i]) {
      assert Plain(c, p, plan[i]);
    }
  }

  lemma {:induction false} SetUpOrdered(c: Config, r: Role, before: seq<Step>)
    requires r in AllRoles(c)
    ensures WellOrdered(c, Workers, before, SetUp(c, r))
  {
    hide AllRoles;
    var plan := SetUp(c, r);
    assert plan[0] == Create(r);
    forall i | 0 <= i < |plan| ensures Ordered(c, Workers, before + plan[..i], plan[i]) {
      assert i > 0 ==> (before + plan[..i])[|before|] == Create(r);
    }
  }

  lemma {:induction false} SetUpAllOrdered(c: Config, roles: seq<Role>, before: seq<Step>)
    requires forall r :: r in roles ==> r in AllRoles(c)
    ensures WellOrdered(c, Workers, before, SetUpAll(c, roles))
    ensures forall r :: r in roles ==> Create(r) in SetUpAll(c, roles) && Init(r) in SetUpAll(c, roles)
  {
    hide AllRoles, WellOrdered, SetUp;
    if roles == [] {
      PlainOrdered(c, Workers, before, []);
    } else {
      var front, last := roles[..|roles| - 1], roles[|roles| - 1];
      SetUpAllOrdered(c, front, before);
      SetUpOrdered(c, last, before + SetUpAll(c, front));
      OrderedConcat(c, Workers, before, SetUpAll(c, front), SetUp(c, last));
      SetUpHas(c, last);
    }
  }

  lemma {:induction false} SetUpHas(c: Config, r: Role)
    ensures Create(r) in SetUp(c, r) && Init(r) in SetUp(c, r) && Forget(r) in SetUp(c, r) && Ssh(r) in SetUp(c, r)
  {
    assert SetUp(c, r)[0] == Create(r) && SetUp(c, r)[1] == Forget(r) && SetUp(c, r)[2] == Ssh(r);
  }

  lemma {:induction false} DrainAllOrdered(c: Config, roles: seq<Role>, before: seq<Step>)
    requires forall r :: r in roles ==> r in AllRoles(c) && Create(r) in before && Init(r) in before
    ensures WellOrdered(c, Workers, before, DrainAll(roles))
  {
    hide AllRoles;
    if roles != [] {
      var front, last := roles[..|roles| - 1], roles[|roles| - 1];
      DrainAllOrdered(c, front, before);
      assert WellOrdered(c, Workers, before + DrainAll(front), [Drain(last)]);
      OrderedConcat(c, Workers, before, DrainAll(front), [Drain(last)]);
    }
  }

  lemma {:induction false} BenchesOrdered(c: Config, before: seq<Step>)
    requires c.workers >= 1
    ensures WellOrdered(c, Workers, before, Benches(c))
  {
    CanaryMembers(c.workers, 1);
    CanaryMembers(c.workers, c.workers);
    assert {Canary(1), Canary(c.workers)} <= AllRoles(c) && (c.baseline ==> Baseline in AllRoles(c)) by {
      assert forall r :: r in Canaries(c.workers) ==> r in WorkerRoles(c);
    }
    hide AllRoles;
    PlainOrdered(c, Workers, before, Benches(c));
  }

  lemma {:induction false} WorkersReadyOrdered(c: Config)
    ensures WellOrdered(c, Workers, [], WorkersReady(c))
    ensures forall r :: r in WorkerRoles(c) ==>
              r in AllRoles(c) && Create(r) in WorkersReady(c) && Init(r) in WorkersReady(c)
  {
    hide WellOrdered, WorkerRoles;
    PlainOrdered(c, Workers, [], Configs(c));
    SetUpAllOrdered(c, WorkerRoles(c), [] + Configs(c));
    OrderedConcat(c, Workers, [], Configs(c), SetUpAll(c, WorkerRoles(c)));
  }

  lemma {:induction false} WorkersOrdered(c: Config)
    requires c.workers >= 1
    ensures WellOrdered(c, Workers, [], WorkersPlan(c))
  {
    hide AllRoles, WorkerRoles, WellOrdered, Benches, WorkersReady, DrainAll;
    WorkersReadyOrdered(c);
    BenchesOrdered(c, [] + WorkersReady(c));
    OrderedConcat(c, Workers, [], WorkersReady(c), Benches(c));
    DrainAllOrdered(c, WorkerRoles(c), [] + (WorkersReady(c) + Benches(c)));
    OrderedConcat(c, Workers, [], WorkersReady(c) + Benches(c), DrainAll(WorkerRoles(c)));
  }

  /** The workers are the canaries 1 .. n, and the baseline worker if there is one. */
  lemma {:induction false} WorkersAre(c: Config, r: Role)
    ensures r in WorkerRoles(c) <==> (r.Canary? && 1 <= r.number <= c.workers) || (c.baseline && r == Baseline)
  {
    CanariesAre(c.workers, r);
  }

  lemma {:induction false} CanariesAre(n: nat, r: Role)
    ensures r in Canaries(n) <==> r.Canary? && 1 <= r.number <= n
  {
    if n > 0 { CanariesAre(n - 1, r); }
  }

  lemma {:induction false} SetUpCovers(c: Config, roles: seq<Role>, r: Role)
    requires r in roles
    ensures forall s :: s in SetUp(c, r) ==> s in SetUpAll(c, roles)
  {
    hide SetUp;
    var front, last := roles[..|roles| - 1], roles[|roles| - 1];
    assert roles == front + [last];
    if r != last { SetUpCovers(c, front, r); }
  }

  lemma {:induction false} DrainCovers(roles: seq<Role>, r: Role)
    ensures Drain(r) in DrainAll(roles) <==> r in roles
  {
    if roles != [] {
      var front, last := roles[..|roles| - 1], roles[|roles| - 1];
      assert roles == front + [last];
      DrainCovers(front, r);
    }
  }

  lemma {:induction false} SetUpDrains(c: Config, roles: seq<Role>, r: Role)
    ensures Drain(r) !in SetUpAll(c, roles)
  {
    if roles != [] { SetUpDrains(c, roles[..|roles| - 1], r); }
  }

  /** The workers phase creates, reaches and initialises every worker, and drains exactly the workers, if it benches. */
  lemma {:induction false} WorkersCovered(c: Config, r: Role)
    ensures r in WorkerRoles(c) ==>
              Create(r) in WorkersPlan(c) && Forget(r) in WorkersPlan(c) && Ssh(r) in WorkersPlan(c) && Init(r) in WorkersPlan(c)
    ensures Drain(r) in WorkersPlan(c) <==> r in WorkerRoles(c) && !c.skipBench
  {
    hide WorkerRoles, SetUp, SetUpAll, DrainAll, Benches, Configs;
    if r in WorkerRoles(c) {
      SetUpCovers(c, WorkerRoles(c), r);
      SetUpHas(c, r);
    }
    DrainCovers(WorkerRoles(c), r);
    SetUpDrains(c, WorkerRoles(c), r);
    OthersDrainNone(c, r);
  }

  lemma {:induction false} OthersDrainNone(c: Config, r: Role)
    ensures Drain(r) !in Benches(c) && Drain(r) !in Configs(c)
  {
  }

  lemma {:induction false} ProvisionOrdered(c: Config)
    ensures WellOrdered(c, Provision, [], PROVISION_PLAN)
  {
    hide WorkerRoles;
    forall i | 0 <= i < |PROVISION_PLAN| ensures Ordered(c, Provision, [] + PROVISION_PLAN[..i], PROVISION_PLAN[i]) {
      assert i > 3 ==> ([] + PROVISION_PLAN[..i])[3] == KnownHosts;
    }
  }

  /** In every plan a server is created before it is initialised, initialised before it is drained, and known_hosts is
      recorded before a host is contacted. */
  lemma {:induction false} PlanOrdered(c: Config, p: Phase)
    requires c.workers >= 1
    ensures WellOrdered(c, p, [], Plan(c, p))
  {
    hide WorkerRoles;
    match p {
      case Provision => ProvisionOrdered(c);
      case Workers => WorkersOrdered(c);
      case _ => PlainOrdered(c, p, [], Plan(c, p));
    }
  }
}
