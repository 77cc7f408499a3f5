/** The invariant of the gate driver and the changes that keep it: saves of the state file, effects on the world, and
    the actions noted in the history. */
module GateInvariant {
  import opened Wrappers
  import opened GateState

  /** The last of the two actions in the log is the cure, or the cause never happened. */
  ghost predicate Since(log: seq<Action>, cause: Action, cure: Action)
  {
    log == [] || (var last := log[|log| - 1];
                  last == cure || (last != cause && Since(log[..|log| - 1], cause, cure)))
  }

  ghost predicate AllConfirmed(log: seq<Action>)
  {
    forall r :: Since(log, Accepted(r), Confirmed(r))
  }

  predicate Tearing(log: seq<Action>)
  {
    Began(Teardown, false) in log || Began(Teardown, true) in log
  }

  /** The teardown under way keeps the store on purpose. */
  ghost predicate Keeping(log: seq<Action>)
  {
    Tearing(log) && Since(log, Began(Teardown, false), Began(Teardown, true))
  }

  /** S3 is cleared, or kept on purpose. */
  ghost predicate StoreSettled(log: seq<Action>)
  {
    Since(log, Keyed, Cleared) || Keeping(log)
  }

  /** A drain followed the last time the server was marked registered, and its last init. */
  ghost predicate DrainedSince(log: seq<Action>, r: Role)
  {
    Since(log, Registered(r), DrainOk(r)) && Since(log, InitCalled(r), DrainOk(r))
  }

  /** What the history before an action must show. */
  ghost predicate Justified(log: seq<Action>, a: Action)
  {
    match a
    case Accepted(r) => a !in log
    case DeleteCalled(r) => DrainedSince(log, r)
    case StagingRemoved => AllConfirmed(log) && StoreSettled(log)
    case TornDown => AllConfirmed(log) && StoreSettled(log) && Since(log, StagingMade, StagingRemoved)
    case Executed(p, s) => Recorded(p, s) !in log
    case Began(p, _) => Needs(p).Some? ==> Finished(Needs(p).value) in log
    case _ => true
  }

  /** Every action of the history was justified when it happened. */
  ghost predicate GoodLog(log: seq<Action>)
  {
    forall k :: 0 <= k < |log| ==> Justified(log[..k], log[k])
  }

  function Steps(f: File, p: Phase): set<Step>
  {
    if p in f.phases then f.phases[p].steps else {}
  }

  predicate IsDone(f: File, p: Phase)
  {
    p in f.phases && f.phases[p].status == Done
  }

  /** A teardown may delete it: never marked registered, or drained. */
  predicate Deletable(server: Server) { server.registered ==> server.drained }

  /** Servers are recorded while they exist, created once, and drained after they were last registered when marked so. */
  ghost predicate ServersOk(sys: Sys)
  {
    && (forall r :: r in sys.world.servers ==> r in sys.world.ledger && r in sys.disk.servers)
    && (forall r :: r in sys.disk.servers || Since(sys.log, Accepted(r), Confirmed(r)))
    && (forall r :: r in sys.disk.servers && Deletable(sys.disk.servers[r]) ==> DrainedSince(sys.log, r))
    && (!Tearing(sys.log) ==> ServersKept(sys))
  }

  /** Until a teardown servers only come. */
  ghost predicate ServersKept(sys: Sys)
  {
    && sys.world.ledger <= sys.world.servers
    && (forall r :: Accepted(r) in sys.log <==> r in sys.world.ledger)
    && (forall r :: InitCalled(r) in sys.log || Registered(r) in sys.log ==> r in sys.disk.servers)
    && (forall r :: r in sys.disk.servers && sys.disk.servers[r].created ==> r in sys.world.ledger)
    && (forall r :: r in sys.disk.servers && sys.disk.servers[r].drained ==> Init(r) in Steps(sys.disk, Workers))
  }

  /** Until a teardown, recorded steps have left their mark. */
  ghost predicate MarksOk(c: Config, sys: Sys)
  {
    !Tearing(sys.log) ==>
      && (forall p, r :: Create(r) in Steps(sys.disk, p) ==> r in sys.disk.servers && sys.disk.servers[r].created)
      && (forall r :: Init(r) in Steps(sys.disk, Workers) ==> r in sys.disk.servers && sys.disk.servers[r].registered)
      && (forall r :: r in sys.disk.servers && sys.disk.servers[r].drained ==> Drain(r) in Plan(c, Workers))
      && (forall r :: Drain(r) in Steps(sys.disk, Workers) ==> r in sys.disk.servers && sys.disk.servers[r].drained)
      && (forall r :: Runtime(r) in Steps(sys.disk, Configure) ==> sys.disk.s3)
      && (MakeStaging in Steps(sys.disk, Provision) ==> sys.disk.staging && sys.world.staging)
  }

  ghost predicate StepsOk(c: Config, sys: Sys)
  {
    && (forall p, s :: Recorded(p, s) in sys.log <==> s in Steps(sys.disk, p))
    && (forall p, s :: s in Steps(sys.disk, p) ==> s in Plan(c, p))
  }

  ghost predicate PhasesOk(c: Config, sys: Sys)
  {
    && (forall p :: Stable(p) && Finished(p) in sys.log ==> IsDone(sys.disk, p))
    && (forall p :: IsDone(sys.disk, p) ==> Finished(p) in sys.log)
    && (forall p :: p in sys.disk.phases && Needs(p).Some? ==> IsDone(sys.disk, Needs(p).value))
    && (forall p, s :: Stable(p) && IsDone(sys.disk, p) && s in Plan(c, p) ==> s in Steps(sys.disk, p))
  }

  /** Host keys are recorded before a host is contacted. */
  ghost predicate HostsOk(c: Config, sys: Sys)
  {
    && (sys.disk.knownHosts == {} || sys.disk.knownHosts == AllRoles(c))
    && sys.world.hostKeys <= AllRoles(c) && sys.disk.servers.Keys <= AllRoles(c)
    && (!Tearing(sys.log) ==>
          && sys.world.hostKeys <= sys.disk.knownHosts
          && (KnownHosts in Steps(sys.disk, Provision) ==> sys.disk.knownHosts == AllRoles(c)))
  }

  /** Staging is recorded before it can exist, and the S3 prefix before a host has the key. */
  ghost predicate StorageOk(sys: Sys)
  {
    && (sys.world.staging ==> sys.disk.staging)
    && (sys.disk.staging || Since(sys.log, StagingMade, StagingRemoved))
    && (sys.disk.s3 || Since(sys.log, Keyed, Cleared))
  }

  /** An action happened after the history was `a`. */
  ghost predicate Added(a: seq<Action>, b: seq<Action>, action: Action)
  {
    |a| <= |b| && action in b[|a|..]
  }

  /** Between the histories `a` and `b` a step was run to its end. */
  ghost predicate RanStep(c: Config, a: seq<Action>, b: seq<Action>, s: Step)
  {
    && (forall e :: e in Effects(c, s) ==> Added(a, b, e))
    && (s.Create? ==> Accepted(s.role) in b)
  }

  /** A step was executed, to its end. */
  ghost predicate Performed(c: Config, log: seq<Action>, p: Phase, s: Step)
  {
    exists i :: 0 <= i < |log| && log[i] == Executed(p, s) && RanStep(c, log[..i + 1], log, s)
  }

  /** Steps were recorded only after they had run to their end. */
  ghost predicate WorkOk(c: Config, log: seq<Action>)
  {
    forall k :: 0 <= k < |log| && log[k].Recorded? ==> Performed(c, log[..k], log[k].phase, log[k].step)
  }

  ghost predicate Ok(c: Config, sys: Sys)
  {
    && ServersOk(sys) && MarksOk(c, sys) && StepsOk(c, sys) && PhasesOk(c, sys) && HostsOk(c, sys) && StorageOk(sys)
    && GoodLog(sys.log) && WorkOk(c, sys.log)
  }

  /** Units run on live hosts, and until a teardown objects and units are covered by the recorded prefix. */
  ghost predicate BucketOk(sys: Sys, b: Bucket)
  {
    && b.jobs <= sys.world.servers * {Converter}
    && (!Tearing(sys.log) && (b.objects || b.jobs != {}) ==> sys.disk.s3)
  }

  const FRESH_FILE: File := File(map[], false, {}, false, map[])

  const FRESH: Sys := Sys(FRESH_FILE, World({}, {}, false, {}), [])

  lemma {:induction false} FreshOk(c: Config)
    ensures Ok(c, FRESH)
  {
  }

  // ---- the history grows ----

  lemma {:induction false} SinceNext(log: seq<Action>, a: Action, cause: Action, cure: Action)
    ensures Since(log + [a], cause, cure) <==> a == cure || (a != cause && Since(log, cause, cure))
  {
    assert (log + [a])[..|log|] == log;
  }

  lemma {:induction false} GoodNext(log: seq<Action>, a: Action)
    requires GoodLog(log) && Justified(log, a)
    ensures GoodLog(log + [a])
  {
    hide Justified;
    var next := log + [a];
    forall k | 0 <= k < |next| ensures Justified(next[..k], next[k]) {
      if k < |log| { assert next[..k] == log[..k]; } else { assert next[..k] == log; }
    }
  }

  lemma {:induction false} WorkNext(c: Config, log: seq<Action>, a: Action)
    requires WorkOk(c, log) && (a.Recorded? ==> Performed(c, log, a.phase, a.step))
    ensures WorkOk(c, log + [a])
  {
    hide Performed;
    var next := log + [a];
    forall k | 0 <= k < |next| && next[k].Recorded? ensures Performed(c, next[..k], next[k].phase, next[k].step) {
      if k < |log| { assert next[..k] == log[..k]; } else { assert next[..k] == log; }
    }
  }

  function Note(sys: Sys, a: Action): Sys
  {
    sys.(log := sys.log + [a])
  }

  lemma {:induction false} SinceAll(log: seq<Action>, a: Action)
    ensures forall x, y :: Since(log + [a], x, y) <==> a == y || (a != x && Since(log, x, y))
  {
    forall x, y ensures Since(log + [a], x, y) <==> a == y || (a != x && Since(log, x, y)) {
      SinceNext(log, a, x, y);
    }
  }

  lemma {:induction false} MemberAll(log: seq<Action>, a: Action)
    ensures forall b :: b in log + [a] <==> b in log || b == a
  {
  }

  /** Noting an action the invariant does not look at, or the start of a phase. */
  lemma {:induction false} NoteOk(c: Config, sys: Sys, a: Action)
    requires Ok(c, sys) && Justified(sys.log, a)
    requires || a.Executed? || a.DeleteCalled? || a.TornDown? || a.DrainOk? || a.Began? || a.StagingRemoved? || a.Cleared?
             || a.Reached? || a.Forgotten? || a.Started? || a.Ended? || a.DrainTried?
    ensures Ok(c, Note(sys, a))
  {
    hide GoodLog, ServersOk, MarksOk, StepsOk, PhasesOk, HostsOk, StorageOk, WorkOk, Justified;
    GoodNext(sys.log, a);
    WorkNext(c, sys.log, a);
    ServersNoted(sys, sys.world, a);
    MarksNoted(c, sys, sys.world, a);
    StepsNoted(c, sys, sys.world, a);
    StorageHeld(sys);
    StorageNoted(sys, sys.world, a);
  }

  /** What is said of servers looks at their creates, confirmations, registrations, inits and drains. */
  lemma {:induction false} ServersNoted(sys: Sys, w: World, a: Action)
    requires ServersOk(sys) && !a.Accepted? && !a.Registered? && !a.InitCalled?
    requires w.servers == sys.world.servers && w.ledger == sys.world.ledger
    ensures ServersOk(Note(sys.(world := w), a))
  {
    hide Since, Steps;
    SinceAll(sys.log, a);
    MemberAll(sys.log, a);
  }

  lemma {:induction false} MarksNoted(c: Config, sys: Sys, w: World, a: Action)
    requires MarksOk(c, sys) && (sys.world.staging ==> w.staging)
    ensures MarksOk(c, Note(sys.(world := w), a))
  {
    hide Plan, Steps;
    MemberAll(sys.log, a);
  }

  lemma {:induction false} StepsNoted(c: Config, sys: Sys, w: World, a: Action)
    requires StepsOk(c, sys) && PhasesOk(c, sys) && HostsOk(c, sys) && !a.Recorded? && !a.Finished?
    requires w.hostKeys == sys.world.hostKeys
    ensures var next := Note(sys.(world := w), a); StepsOk(c, next) && PhasesOk(c, next) && HostsOk(c, next)
  {
    hide Plan, AllRoles, Steps, IsDone;
    MemberAll(sys.log, a);
    var next := Note(sys.(world := w), a);
    assert StepsOk(c, next);
    assert PhasesOk(c, next);
  }

  lemma {:induction false} StorageHeld(sys: Sys)
    requires StorageOk(sys)
    ensures sys.world.staging ==> sys.disk.staging
  {
  }

  lemma {:induction false} StorageNoted(sys: Sys, w: World, a: Action)
    requires StorageOk(sys) && (w.staging ==> sys.disk.staging)
    requires (a == StagingMade ==> sys.disk.staging) && (a == Keyed ==> sys.disk.s3)
    ensures StorageOk(Note(sys.(world := w), a))
  {
    hide Since;
    SinceNext(sys.log, a, StagingMade, StagingRemoved);
    SinceNext(sys.log, a, Keyed, Cleared);
  }

  // ---- saves ----

  function Saved(sys: Sys, f: File): Sys
  {
    sys.(disk := f)
  }

  lemma {:induction false} SamePhases(f: File, g: File)
    requires f.phases == g.phases
    ensures forall p :: Steps(f, p) == Steps(g, p) && (IsDone(f, p) <==> IsDone(g, p))
  {
  }

  /** Recording staging, the S3 prefix or the known hosts before they exist. */
  lemma {:induction false} IntentOk(c: Config, sys: Sys, f: File)
    requires Ok(c, sys)
    requires f == sys.disk.(staging := f.staging, s3 := f.s3, knownHosts := f.knownHosts)
    requires (sys.disk.staging ==> f.staging) && (sys.disk.s3 ==> f.s3)
    requires f.knownHosts == sys.disk.knownHosts || f.knownHosts == AllRoles(c)
    ensures Ok(c, Saved(sys, f))
  {
    hide Since, Plan, AllRoles, GoodLog, WorkOk, Steps, IsDone;
    SamePhases(sys.disk, f);
  }

  function WithServer(f: File, r: Role, server: Server): File
  {
    f.(servers := f.servers[r := server])
  }

  const REQUESTED: Server := Server(false, false, false)

  /** A server's record is saved before it is created. */
  lemma {:induction false} RequestOk(c: Config, sys: Sys, r: Role)
    requires Ok(c, sys) && !Tearing(sys.log) && r in AllRoles(c) && r !in sys.disk.servers
    ensures Ok(c, Saved(sys, WithServer(sys.disk, r, REQUESTED)))
  {
    hide Since, Plan, AllRoles, GoodLog, WorkOk, Steps, IsDone;
    SamePhases(sys.disk, WithServer(sys.disk, r, REQUESTED));
    RequestedServers(sys, r);
    hide ServersOk;
  }

  lemma {:induction false} RequestedServers(sys: Sys, r: Role)
    requires ServersOk(sys) && !Tearing(sys.log) && r !in sys.disk.servers
    ensures ServersOk(Saved(sys, WithServer(sys.disk, r, REQUESTED)))
  {
    hide Since, Steps;
    SamePhases(sys.disk, WithServer(sys.disk, r, REQUESTED));
    NeverSince(sys.log, InitCalled(r), DrainOk(r));
    NeverSince(sys.log, Registered(r), DrainOk(r));
  }

  lemma {:induction false} NeverSince(log: seq<Action>, cause: Action, cure: Action)
    requires cause !in log
    ensures Since(log, cause, cure)
  {
    if log != [] { NeverSince(log[..|log| - 1], cause, cure); }
  }

  /** Its id is filled in, from the ledger. */
  lemma {:induction false} CreatedOk(c: Config, sys: Sys, r: Role)
    requires Ok(c, sys) && r in sys.disk.servers && r in sys.world.ledger
    ensures Ok(c, Saved(sys, WithServer(sys.disk, r, sys.disk.servers[r].(created := true))))
  {
    hide Since, Plan, AllRoles, GoodLog, WorkOk, Steps, IsDone, DrainedSince;
    var f := WithServer(sys.disk, r, sys.disk.servers[r].(created := true));
    SamePhases(sys.disk, f);
    assert f.servers.Keys == sys.disk.servers.Keys;
    hide StepsOk, PhasesOk, StorageOk;
    RestSaved(c, sys, f);
  }

  /** What is said apart from servers and marks does not look at the server records. */
  lemma {:induction false} RestSaved(c: Config, sys: Sys, f: File)
    requires StepsOk(c, sys) && PhasesOk(c, sys) && HostsOk(c, sys) && StorageOk(sys)
    requires f == sys.disk.(servers := f.servers) && f.servers.Keys <= AllRoles(c)
    ensures StepsOk(c, Saved(sys, f)) && PhasesOk(c, Saved(sys, f)) && HostsOk(c, Saved(sys, f))
    ensures StorageOk(Saved(sys, f))
  {
    hide Since, Plan, AllRoles, Steps, IsDone;
    SamePhases(sys.disk, f);
  }

  function Registering(sys: Sys, r: Role): Sys
    requires r in sys.disk.servers
  {
    Note(Saved(sys, WithServer(sys.disk, r, sys.disk.servers[r].(registered := true))), Registered(r))
  }

  /** It is marked registered, not having been drained. */
  lemma {:induction false} RegisterOk(c: Config, sys: Sys, r: Role)
    requires Ok(c, sys) && r in sys.disk.servers && !sys.disk.servers[r].drained
    ensures Ok(c, Registering(sys, r))
  {
    hide GoodLog, WorkOk, ServersOk, MarksOk, StepsOk, PhasesOk, HostsOk, StorageOk, Since, AllRoles;
    var f := WithServer(sys.disk, r, sys.disk.servers[r].(registered := true));
    assert f.servers.Keys == sys.disk.servers.Keys;
    RegisteredServers(sys, r);
    RegisteredMarks(c, sys, r);
    KeysListed(c, sys);
    RestSaved(c, sys, f);
    StepsNoted(c, Saved(sys, f), sys.world, Registered(r));
    StorageHeld(Saved(sys, f));
    StorageNoted(Saved(sys, f), sys.world, Registered(r));
    GoodNext(sys.log, Registered(r));
    WorkNext(c, sys.log, Registered(r));
  }

  lemma {:induction false} KeysListed(c: Config, sys: Sys)
    requires HostsOk(c, sys)
    ensures sys.disk.servers.Keys <= AllRoles(c)
  {
  }

  lemma {:induction false} RegisteredServers(sys: Sys, r: Role)
    requires ServersOk(sys) && r in sys.disk.servers && !sys.disk.servers[r].drained
    ensures ServersOk(Registering(sys, r))
  {
    hide Since, Steps, DrainedSince, ServersKept;
    var next := Registering(sys, r);
    if !Tearing(sys.log) { RegisteredKept(sys, r); }
    MemberAll(sys.log, Registered(r));
    forall q ensures q in next.disk.servers || Since(next.log, Accepted(q), Confirmed(q)) {
      SinceNext(sys.log, Registered(r), Accepted(q), Confirmed(q));
    }
    forall q | q in next.disk.servers && Deletable(next.disk.servers[q]) ensures DrainedSince(next.log, q) {
      StillDrained(sys.log, Registered(r), q);
    }
  }

  lemma {:induction false} RegisteredKept(sys: Sys, r: Role)
    requires ServersKept(sys) && r in sys.disk.servers
    ensures ServersKept(Registering(sys, r))
  {
    hide Steps;
    SamePhases(sys.disk, Registering(sys, r).disk);
    MemberAll(sys.log, Registered(r));
  }

  lemma {:induction false} StillDrained(log: seq<Action>, a: Action, q: Role)
    requires DrainedSince(log, q) && a != Registered(q) && a != InitCalled(q)
    ensures DrainedSince(log + [a], q)
  {
    hide Since;
    SinceNext(log, a, Registered(q), DrainOk(q));
    SinceNext(log, a, InitCalled(q), DrainOk(q));
  }

  lemma {:induction false} RegisteredMarks(c: Config, sys: Sys, r: Role)
    requires MarksOk(c, sys) && r in sys.disk.servers
    ensures MarksOk(c, Registering(sys, r))
  {
    hide Since, Steps, Plan;
    SamePhases(sys.disk, Registering(sys, r).disk);
    MemberAll(sys.log, Registered(r));
  }

  /** It is marked drained after a drain. */
  lemma {:induction false} DrainedOk(c: Config, sys: Sys, r: Role)
    requires Ok(c, sys) && r in sys.disk.servers && DrainedSince(sys.log, r)
    requires Tearing(sys.log) || (Init(r) in Steps(sys.disk, Workers) && Drain(r) in Plan(c, Workers))
    ensures Ok(c, Saved(sys, WithServer(sys.disk, r, sys.disk.servers[r].(drained := true))))
  {
    hide GoodLog, ServersOk, MarksOk, StepsOk, PhasesOk, HostsOk, StorageOk, Since, AllRoles, Plan, Steps, DrainedSince;
    var f := WithServer(sys.disk, r, sys.disk.servers[r].(drained := true));
    assert f.servers.Keys == sys.disk.servers.Keys;
    KeysListed(c, sys);
    DrainedServers(sys, r);
    DrainedMarks(c, sys, r);
    RestSaved(c, sys, f);
  }

  lemma {:induction false} DrainedServers(sys: Sys, r: Role)
    requires ServersOk(sys) && r in sys.disk.servers && DrainedSince(sys.log, r)
    requires Tearing(sys.log) || Init(r) in Steps(sys.disk, Workers)
    ensures ServersOk(Saved(sys, WithServer(sys.disk, r, sys.disk.servers[r].(drained := true))))
  {
    hide Since, Steps, DrainedSince;
    SamePhases(sys.disk, WithServer(sys.disk, r, sys.disk.servers[r].(drained := true)));
  }

  lemma {:induction false} DrainedMarks(c: Config, sys: Sys, r: Role)
    requires MarksOk(c, sys) && r in sys.disk.servers && (Tearing(sys.log) || Drain(r) in Plan(c, Workers))
    ensures MarksOk(c, Saved(sys, WithServer(sys.disk, r, sys.disk.servers[r].(drained := true))))
  {
    hide Steps, Plan;
    SamePhases(sys.disk, WithServer(sys.disk, r, sys.disk.servers[r].(drained := true)));
  }

  function Dropped(sys: Sys, r: Role): Sys
  {
    Note(Saved(sys, sys.disk.(servers := sys.disk.servers - {r})), Confirmed(r))
  }

  /** Its record is dropped once it is gone. */
  lemma {:induction false} DropOk(c: Config, sys: Sys, r: Role)
    requires Ok(c, sys) && Tearing(sys.log) && r !in sys.world.servers
    ensures Ok(c, Dropped(sys, r))
  {
    hide Since, Plan, AllRoles, GoodLog, WorkOk, Steps, IsDone;
    DroppedServers(sys, r);
    hide ServersOk;
    SamePhases(sys.disk, Dropped(sys, r).disk);
    GoodNext(sys.log, Confirmed(r));
    WorkNext(c, sys.log, Confirmed(r));
    SinceAll(sys.log, Confirmed(r));
    MemberAll(sys.log, Confirmed(r));
  }

  lemma {:induction false} DroppedServers(sys: Sys, r: Role)
    requires ServersOk(sys) && Tearing(sys.log) && r !in sys.world.servers
    ensures ServersOk(Dropped(sys, r))
  {
    hide Since, Steps;
    SinceAll(sys.log, Confirmed(r));
    MemberAll(sys.log, Confirmed(r));
  }

  /** Staging, S3 and known hosts are struck off once they are gone. */
  lemma {:induction false} StrikeOk(c: Config, sys: Sys, f: File)
    requires Ok(c, sys) && Tearing(sys.log)
    requires f == sys.disk.(staging := f.staging, s3 := f.s3, knownHosts := f.knownHosts)
    requires f.staging == sys.disk.staging || (!sys.world.staging && Since(sys.log, StagingMade, StagingRemoved))
    requires f.s3 == sys.disk.s3 || Since(sys.log, Keyed, Cleared)
    requires f.knownHosts == sys.disk.knownHosts || f.knownHosts == {}
    ensures Ok(c, Saved(sys, f))
  {
    hide Since, Plan, AllRoles, GoodLog, WorkOk, Steps, IsDone;
    SamePhases(sys.disk, f);
  }

  function WithPhase(f: File, p: Phase, record: Record): File
  {
    f.(phases := f.phases[p := record])
  }

  /** A phase that may run is marked running or failed. */
  lemma {:induction false} StatusOk(c: Config, sys: Sys, p: Phase, status: Status)
    requires Ok(c, sys) && status != Done && (Stable(p) ==> !IsDone(sys.disk, p))
    requires Needs(p).Some? ==> IsDone(sys.disk, Needs(p).value)
    ensures Ok(c, Saved(sys, WithPhase(sys.disk, p, Record(status, Steps(sys.disk, p)))))
  {
    hide Since, Plan, AllRoles, GoodLog, WorkOk, ServersOk, MarksOk, HostsOk, StorageOk, PhasesOk;
    var f := WithPhase(sys.disk, p, Record(status, Steps(sys.disk, p)));
    assert forall q :: Steps(f, q) == Steps(sys.disk, q);
    PhasesMarked(c, sys, f, p);
    hide Steps;
    PhasesAlone(c, sys, f);
  }

  lemma {:induction false} PhasesMarked(c: Config, sys: Sys, f: File, p: Phase)
    requires PhasesOk(c, sys) && (Stable(p) ==> !IsDone(sys.disk, p)) && (Needs(p).Some? ==> IsDone(sys.disk, Needs(p).value))
    requires p in f.phases && f == WithPhase(sys.disk, p, f.phases[p]) && f.phases[p].status != Done
    requires f.phases[p].steps == Steps(sys.disk, p)
    ensures PhasesOk(c, Saved(sys, f))
  {
    hide Plan;
    assert forall q :: Steps(f, q) == Steps(sys.disk, q);
    assert forall q :: q != p ==> (IsDone(f, q) <==> IsDone(sys.disk, q));
    assert forall q :: Needs(q).Some? ==> Stable(Needs(q).value);
  }

  /** The rest looks only at the steps of phases. */
  lemma {:induction false} PhasesAlone(c: Config, sys: Sys, f: File)
    requires ServersOk(sys) && MarksOk(c, sys) && HostsOk(c, sys) && StorageOk(sys)
    requires f == sys.disk.(phases := f.phases) && forall q :: Steps(f, q) == Steps(sys.disk, q)
    ensures var next := Saved(sys, f); ServersOk(next) && MarksOk(c, next) && HostsOk(c, next) && StorageOk(next)
  {
    hide Steps, Since, Plan, AllRoles, DrainedSince;
  }

  /** What a step that ran has recorded besides itself. */
  ghost predicate LeftItsMark(c: Config, f: File, p: Phase, s: Step)
  {
    && (s.Create? ==> s.role in f.servers && f.servers[s.role].created)
    && (s.Init? ==> s.role in f.servers && f.servers[s.role].registered)
    && (s.Drain? ==> s.role in f.servers && f.servers[s.role].drained)
    && (s.Runtime? ==> f.s3) && (s == KnownHosts ==> f.knownHosts == AllRoles(c)) && (s == MakeStaging ==> f.staging)
  }

  /** A step is recorded after it ran. */
  lemma {:induction false} RecordOk(c: Config, sys: Sys, p: Phase, s: Step)
    requires Ok(c, sys) && p in sys.disk.phases && sys.disk.phases[p].status == Running && s in Plan(c, p)
    requires !Tearing(sys.log) && LeftItsMark(c, sys.disk, p, s) && (s == MakeStaging ==> sys.world.staging)
    requires Performed(c, sys.log, p, s)
    ensures Ok(c, Note(Saved(sys, WithPhase(sys.disk, p, Record(Running, Steps(sys.disk, p) + {s}))), Recorded(p, s)))
  {
    hide Since, Plan, AllRoles, GoodLog, WorkOk, Performed, ServersOk, MarksOk, StepsOk, PhasesOk, Steps, IsDone;
    var a := Recorded(p, s);
    var f := WithPhase(sys.disk, p, Record(Running, Steps(sys.disk, p) + {s}));
    RecordedSteps(sys.disk, f, p, s);
    GoodNext(sys.log, a);
    WorkNext(c, sys.log, a);
    SinceAll(sys.log, a);
    MemberAll(sys.log, a);
    assert ServersOk(Note(Saved(sys, f), a)) by { ServersLater(sys, f, a); }
    assert PhasesOk(c, Note(Saved(sys, f), a)) by { PhasesLater(c, sys, f, p, s); }
    assert StepsOk(c, Note(Saved(sys, f), a)) by { StepsLater(c, sys, f, p, s); }
    assert MarksOk(c, Note(Saved(sys, f), a)) by { MarksLater(c, sys, f, p, s); }
  }

  lemma {:induction false} RecordedSteps(f: File, g: File, p: Phase, s: Step)
    requires p in f.phases && f.phases[p].status == Running
    requires g == WithPhase(f, p, Record(Running, Steps(f, p) + {s}))
    ensures forall q :: IsDone(g, q) <==> IsDone(f, q)
    ensures forall q, t :: t in Steps(g, q) <==> t in Steps(f, q) || (q == p && t == s)
    ensures forall q :: q in g.phases <==> q in f.phases
  {
  }

  /** Neutral actions and further steps leave what is said of servers. */
  lemma {:induction false} ServersLater(sys: Sys, f: File, a: Action)
    requires ServersOk(sys) && (a.Recorded? || a.Finished?)
    requires f.servers == sys.disk.servers && forall p, s :: s in Steps(sys.disk, p) ==> s in Steps(f, p)
    ensures ServersOk(Note(Saved(sys, f), a))
  {
    hide Since, Steps;
    SinceAll(sys.log, a);
    MemberAll(sys.log, a);
  }

  lemma {:induction false} PhasesLater(c: Config, sys: Sys, f: File, p: Phase, s: Step)
    requires PhasesOk(c, sys)
    requires forall q :: IsDone(f, q) <==> IsDone(sys.disk, q)
    requires forall q, t :: t in Steps(f, q) <==> t in Steps(sys.disk, q) || (q == p && t == s)
    requires forall q :: q in f.phases <==> q in sys.disk.phases
    ensures PhasesOk(c, Note(Saved(sys, f), Recorded(p, s)))
  {
    hide Plan, Steps, IsDone;
    MemberAll(sys.log, Recorded(p, s));
  }

  lemma {:induction false} StepsLater(c: Config, sys: Sys, f: File, p: Phase, s: Step)
    requires StepsOk(c, sys) && s in Plan(c, p)
    requires forall q, t :: t in Steps(f, q) <==> t in Steps(sys.disk, q) || (q == p && t == s)
    ensures StepsOk(c, Note(Saved(sys, f), Recorded(p, s)))
  {
    hide Plan, Steps;
    MemberAll(sys.log, Recorded(p, s));
  }

  lemma {:induction false} MarksLater(c: Config, sys: Sys, f: File, p: Phase, s: Step)
    requires MarksOk(c, sys) && f.servers == sys.disk.servers && f.s3 == sys.disk.s3 && f.staging == sys.disk.staging
    requires LeftItsMark(c, f, p, s) && (s == MakeStaging ==> sys.world.staging)
    requires forall q, t :: t in Steps(f, q) <==> t in Steps(sys.disk, q) || (q == p && t == s)
    ensures MarksOk(c, Note(Saved(sys, f), Recorded(p, s)))
  {
    hide Plan, Steps, AllRoles;
    MemberAll(sys.log, Recorded(p, s));
  }

  /** A phase is done once its whole plan is recorded. */
  lemma {:induction false} FinishOk(c: Config, sys: Sys, p: Phase)
    requires Ok(c, sys) && p in sys.disk.phases
    requires forall s :: s in Plan(c, p) ==> s in Steps(sys.disk, p)
    ensures Ok(c, Note(Saved(sys, WithPhase(sys.disk, p, Record(Done, Steps(sys.disk, p)))), Finished(p)))
  {
    hide Since, Plan, AllRoles, GoodLog, WorkOk, ServersOk, MarksOk, PhasesOk, Steps, IsDone;
    var a := Finished(p);
    var f := WithPhase(sys.disk, p, Record(Done, Steps(sys.disk, p)));
    FinishedSteps(sys.disk, f, p);
    GoodNext(sys.log, a);
    WorkNext(c, sys.log, a);
    SinceAll(sys.log, a);
    MemberAll(sys.log, a);
    assert ServersOk(Note(Saved(sys, f), a)) by { ServersLater(sys, f, a); }
    assert PhasesOk(c, Note(Saved(sys, f), a)) by { PhasesFinished(c, sys, f, p); }
    assert MarksOk(c, Note(Saved(sys, f), a)) by { MarksFinished(c, sys, f, a); }
  }

  lemma {:induction false} MarksFinished(c: Config, sys: Sys, f: File, a: Action)
    requires MarksOk(c, sys) && f == sys.disk.(phases := f.phases) && forall q :: Steps(f, q) == Steps(sys.disk, q)
    ensures MarksOk(c, Note(Saved(sys, f), a))
  {
    hide Plan, Steps;
    MemberAll(sys.log, a);
  }

  lemma {:induction false} FinishedSteps(f: File, g: File, p: Phase)
    requires p in f.phases && g == WithPhase(f, p, Record(Done, Steps(f, p)))
    ensures forall q :: IsDone(g, q) <==> IsDone(f, q) || q == p
    ensures forall q :: Steps(g, q) == Steps(f, q)
    ensures forall q :: q in g.phases <==> q in f.phases
  {
  }

  lemma {:induction false} PhasesFinished(c: Config, sys: Sys, f: File, p: Phase)
    requires PhasesOk(c, sys) && forall s :: s in Plan(c, p) ==> s in Steps(sys.disk, p)
    requires forall q :: IsDone(f, q) <==> IsDone(sys.disk, q) || q == p
    requires forall q :: Steps(f, q) == Steps(sys.disk, q)
    requires forall q :: q in f.phases <==> q in sys.disk.phases
    ensures PhasesOk(c, Note(Saved(sys, f), Finished(p)))
  {
    hide Plan, Steps, IsDone;
    MemberAll(sys.log, Finished(p));
  }

  // ---- effects ----

  /** The provider accepts a create, and the ledger has it. */
  lemma {:induction false} AcceptOk(c: Config, sys: Sys, r: Role)
    requires Ok(c, sys) && !Tearing(sys.log) && r in sys.disk.servers && r !in sys.world.ledger
    ensures var w := sys.world.(servers := sys.world.servers + {r}, ledger := sys.world.ledger + {r});
            Ok(c, Note(sys.(world := w), Accepted(r)))
  {
    hide GoodLog, WorkOk, ServersOk, MarksOk, StepsOk, PhasesOk, HostsOk, StorageOk, Justified;
    NotYetAccepted(sys, r);
    GoodNext(sys.log, Accepted(r));
    WorkNext(c, sys.log, Accepted(r));
    AcceptedServers(sys, r);
    var w := sys.world.(servers := sys.world.servers + {r}, ledger := sys.world.ledger + {r});
    MarksNoted(c, sys, w, Accepted(r));
    StepsNoted(c, sys, w, Accepted(r));
    StorageHeld(sys);
    StorageNoted(sys, w, Accepted(r));
  }

  lemma {:induction false} NotYetAccepted(sys: Sys, r: Role)
    requires ServersOk(sys) && !Tearing(sys.log) && r !in sys.world.ledger
    ensures Justified(sys.log, Accepted(r))
  {
    hide Since, Steps;
  }

  lemma {:induction false} AcceptedServers(sys: Sys, r: Role)
    requires ServersOk(sys) && r in sys.disk.servers
    ensures var w := sys.world.(servers := sys.world.servers + {r}, ledger := sys.world.ledger + {r});
            ServersOk(Note(sys.(world := w), Accepted(r)))
  {
    var w := sys.world.(servers := sys.world.servers + {r}, ledger := sys.world.ledger + {r});
    hide Since, Steps, DrainedSince, ServersKept;
    var next := Note(sys.(world := w), Accepted(r));
    if !Tearing(sys.log) { AcceptedKept(sys, r); }
    MemberAll(sys.log, Accepted(r));
    forall q ensures q in next.disk.servers || Since(next.log, Accepted(q), Confirmed(q)) {
      SinceNext(sys.log, Accepted(r), Accepted(q), Confirmed(q));
    }
    forall q | q in next.disk.servers && Deletable(next.disk.servers[q]) ensures DrainedSince(next.log, q) {
      StillDrained(sys.log, Accepted(r), q);
    }
  }

  lemma {:induction false} AcceptedKept(sys: Sys, r: Role)
    requires ServersKept(sys)
    ensures var w := sys.world.(servers := sys.world.servers + {r}, ledger := sys.world.ledger + {r});
            ServersKept(Note(sys.(world := w), Accepted(r)))
  {
    hide Steps;
    MemberAll(sys.log, Accepted(r));
  }

  /** Calling VM init on a recorded server keeps the invariant exactly if it is saved as registered and not drained. */
  lemma {:induction false} InitOk(c: Config, sys: Sys, r: Role)
    requires Ok(c, sys) && r in sys.disk.servers
    ensures Ok(c, Note(sys, InitCalled(r))) <==> sys.disk.servers[r].registered && !sys.disk.servers[r].drained
  {
    hide GoodLog, WorkOk, ServersOk, MarksOk, StepsOk, PhasesOk, HostsOk, StorageOk;
    if sys.disk.servers[r].registered && !sys.disk.servers[r].drained {
      GoodNext(sys.log, InitCalled(r));
      WorkNext(c, sys.log, InitCalled(r));
      InitServers(sys, r);
      MarksNoted(c, sys, sys.world, InitCalled(r));
      StepsNoted(c, sys, sys.world, InitCalled(r));
      StorageHeld(sys);
      StorageNoted(sys, sys.world, InitCalled(r));
    } else {
      InitForbidden(sys, r);
    }
  }

  lemma {:induction false} InitForbidden(sys: Sys, r: Role)
    requires r in sys.disk.servers && Deletable(sys.disk.servers[r])
    ensures !ServersOk(Note(sys, InitCalled(r)))
  {
    hide Steps;
    SinceNext(sys.log, InitCalled(r), InitCalled(r), DrainOk(r));
    assert !DrainedSince(Note(sys, InitCalled(r)).log, r);
  }

  lemma {:induction false} InitServers(sys: Sys, r: Role)
    requires ServersOk(sys) && r in sys.disk.servers
    requires sys.disk.servers[r].registered && !sys.disk.servers[r].drained
    ensures ServersOk(Note(sys, InitCalled(r)))
  {
    var next := Note(sys, InitCalled(r));
    MemberAll(sys.log, InitCalled(r));
    assert !Tearing(sys.log) ==> ServersKept(next);
    hide Since, Steps, DrainedSince, ServersKept;
    forall q ensures q in next.disk.servers || Since(next.log, Accepted(q), Confirmed(q)) {
      SinceNext(sys.log, InitCalled(r), Accepted(q), Confirmed(q));
    }
    forall q | q in next.disk.servers && Deletable(next.disk.servers[q]) ensures DrainedSince(next.log, q) {
      StillDrained(sys.log, InitCalled(r), q);
    }
  }

  /** Staging is made, or a host gets the S3 key, after either is recorded. */
  lemma {:induction false} MadeOk(c: Config, sys: Sys, w: World, a: Action)
    requires Ok(c, sys) && w == sys.world.(staging := w.staging) && (a == StagingMade || a == Keyed)
    requires if a == StagingMade then sys.disk.staging && w.staging else sys.disk.s3 && w == sys.world
    ensures Ok(c, Note(sys.(world := w), a))
  {
    hide GoodLog, WorkOk, ServersOk, MarksOk, StepsOk, PhasesOk, HostsOk, StorageOk;
    GoodNext(sys.log, a);
    WorkNext(c, sys.log, a);
    ServersNoted(sys, w, a);
    MarksNoted(c, sys, w, a);
    StepsNoted(c, sys, w, a);
    StorageHeld(sys);
    StorageNoted(sys, w, a);
  }

  /** Things disappear, or host keys the driver may store appear. */
  lemma {:induction false} WorldOk(c: Config, sys: Sys, w: World)
    requires Ok(c, sys)
    requires w.servers <= sys.world.servers && w.servers <= w.ledger && w.ledger <= sys.world.ledger
    requires (w.ledger == sys.world.ledger && w.servers == sys.world.servers) || Tearing(sys.log)
    requires (w.staging == sys.world.staging || (!w.staging && Tearing(sys.log))) && w.hostKeys <= AllRoles(c)
    requires w.hostKeys <= sys.world.hostKeys || w.hostKeys <= sys.disk.knownHosts || Tearing(sys.log)
    ensures Ok(c, sys.(world := w))
  {
    hide Since, Plan, AllRoles, GoodLog, WorkOk, Steps, IsDone;
  }
}
