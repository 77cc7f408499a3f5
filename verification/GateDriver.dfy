/** The gate driver of scripts/chunk_store_gate.py. Every command and every save is one tick of an environment that
    may succeed, fail, lose the gateway or kill the process there; a killed method returns `Killed` at once, so what
    holds on every `Killed` exit holds at every crash point. Between two ticks the detached units on the gate's hosts
    may write S3 objects or end. */
module GateDriver {
  import opened Wrappers
  import opened GateState
  import opened GateInvariant

  /** `reached` tells whether a failed command took effect. */
  datatype Reply = Kill | Success | Failure(reached: bool) | Unreachable

  /** How a command, a step or a phase ends; `Incomplete` is the GateError that lists a teardown's failures. */
  datatype Exit = Fine | GateError | Incomplete | NoGateway | Killed

  function ExitOf(reply: Reply): Exit
  {
    match reply case Kill => Killed case Success => Fine case Failure(_) => GateError case Unreachable => NoGateway
  }

  predicate TookEffect(reply: Reply) { reply == Success || reply == Failure(true) }

  /** The history grew; a teardown still is or is not under way, and keeps or does not keep the store. */
  ghost predicate SameMode(a: seq<Action>, b: seq<Action>)
  {
    && a <= b
    && (Tearing(a) <==> Tearing(b))
    && (Since(a, Began(Teardown, false), Began(Teardown, true)) <==>
        Since(b, Began(Teardown, false), Began(Teardown, true)))
  }

  lemma {:induction false} NoteMode(log: seq<Action>, a: Action)
    requires !a.Began?
    ensures SameMode(log, log + [a])
  {
    SinceNext(log, a, Began(Teardown, false), Began(Teardown, true));
  }

  /** What a step may change besides its own record. */
  ghost predicate StepFrame(a: Sys, b: Sys)
  {
    && b.disk.phases == a.disk.phases && SameMode(a.log, b.log)
    && a.disk.servers.Keys <= b.disk.servers.Keys
  }

  /** Only host keys of `hosts` were stored. */
  ghost predicate Contacted(a: Sys, b: Sys, hosts: set<Role>)
  {
    && b == a.(world := a.world.(hostKeys := b.world.hostKeys), log := b.log) && SameMode(a.log, b.log)
    && a.world.hostKeys <= b.world.hostKeys <= a.world.hostKeys + hosts
  }

  /** A host can be contacted: its address is recorded, or a teardown is under way. */
  ghost predicate Reachable(c: Config, sys: Sys, hosts: set<Role>)
  {
    hosts <= AllRoles(c) && (Tearing(sys.log) || hosts <= sys.disk.knownHosts)
  }

  /** What the parts of a teardown leave alone. */
  ghost predicate TearFrame(a: Sys, b: Sys)
  {
    b.disk.phases == a.disk.phases && SameMode(a.log, b.log)
  }

  /** No unit starts and no object is deleted; without a unit nothing is written. */
  ghost predicate Undeleted(a: Bucket, b: Bucket)
  {
    b.jobs <= a.jobs && (a.objects ==> b.objects) && (a.jobs == {} ==> b == a)
  }

  function Undrained(f: File): set<Role>
  {
    set r | r in f.servers && !Deletable(f.servers[r])
  }

  /** Settling S3 needs a host only if objects are recorded and not kept. */
  predicate CanClear(f: File, keepStore: bool)
  {
    keepStore || !f.s3 || Converter in f.servers || Store in f.servers
  }

  /** Nothing the driver checks itself keeps a phase from succeeding. */
  predicate CanStart(f: File, p: Phase, keepStore: bool)
  {
    (Needs(p).Some? ==> IsDone(f, Needs(p).value)) && (p == Teardown ==> CanClear(f, keepStore))
  }

  /** A teardown has no host to log in to. */
  predicate NoContact(f: File, keepStore: bool)
  {
    Undrained(f) == {} && (keepStore || !f.s3)
  }

  /** No record and no resource of the run is left, apart from what S3 holds. */
  ghost predicate Empty(sys: Sys, keepStore: bool)
  {
    && sys.disk.servers == map[] && !sys.disk.staging && sys.disk.knownHosts == {} && (keepStore || !sys.disk.s3)
    && sys.world.servers == {} && !sys.world.staging
  }

  class Gate {
    const c: Config
    /** The reply at each tick, and what the units do then. A tick is passed once, so a method that sets these anew at some
        tick describes one environment, in pieces. */
    var env: nat -> Reply
    var moves: nat -> Move
    var tick: nat
    /** The process's copy of the state file. */
    var state: File
    var sys: Sys
    var bucket: Bucket

    ghost predicate Valid()
      reads this
    {
      c.workers >= 1 && Ok(c, sys) && BucketOk(sys, bucket) && state == sys.disk
    }

    /** The invariant survives a crash; a process still alive agrees with its file. */
    ghost predicate Left(exit: Exit)
      reads this
    {
      c.workers >= 1 && Ok(c, sys) && BucketOk(sys, bucket) && (exit != Killed ==> state == sys.disk)
    }

    /** Everything succeeds from a tick on. */
    ghost predicate Calm(t: nat)
      reads this`env
    {
      forall k: nat :: k >= t ==> env(k) == Success
    }

    /** Exactly one command fails, at a tick, without effect. */
    ghost predicate FailsAt(t: nat)
      reads this`env
    {
      env(t) == Failure(false) && Calm(t + 1)
    }

    /** One command succeeds and the process is killed at the next, units still running. */
    ghost predicate StartsThenKills(t: nat)
      reads this`env, this`moves
    {
      env(t) == Success && env(t + 1) == Kill && moves(t + 1) != End
    }

    /** Running units keep writing from a tick on. */
    ghost predicate Writing(t: nat)
      reads this`moves
    {
      forall k: nat :: k >= t ==> moves(k) == Write
    }

    constructor (c: Config, env: nat -> Reply, moves: nat -> Move)
      requires c.workers >= 1
      ensures Valid() && this.c == c && this.env == env && this.moves == moves
      ensures sys == FRESH && bucket == Bucket(false, {}) && tick == 0
    {
      this.c, this.env, this.moves := c, env, moves;
      tick, state, sys, bucket := 0, FRESH_FILE, FRESH, Bucket(false, {});
      FreshOk(c);
    }

    /** The next reply; meanwhile the units move. */
    method Ask() returns (reply: Reply)
      modifies this`tick, this`bucket
      ensures reply == env(old(tick)) && tick == old(tick) + 1 && bucket == Drift(old(bucket), moves(old(tick)))
    {
      reply := env(tick);
      bucket := Drift(bucket, moves(tick));
      tick := tick + 1;
    }

    /** save. */
    method Save() returns (killed: bool)
      modifies this`tick, this`sys, this`bucket
      ensures sys == if killed then old(sys) else Saved(old(sys), state)
      ensures killed == (env(old(tick)) == Kill) && tick == old(tick) + 1
      ensures bucket == Drift(old(bucket), moves(old(tick)))
    {
      var reply := Ask();
      killed := reply == Kill;
      if !killed { sys := Saved(sys, state); }
    }

    /** A command through the gateway, logging in to `hosts`. */
    method Command(hosts: set<Role>) returns (exit: Exit)
      requires Valid() && Reachable(c, sys, hosts)
      modifies this`tick, this`sys, this`bucket
      ensures Valid() && Contacted(old(sys), sys, hosts)
      ensures exit == ExitOf(env(old(tick))) && tick == old(tick) + 1
      ensures exit == Fine ==> sys.world.hostKeys == old(sys.world.hostKeys) + hosts
      ensures sys.log == if exit == Fine then old(sys.log) + [Reached(hosts)] else old(sys.log)
      ensures !TookEffect(env(old(tick))) ==> sys == old(sys)
      ensures bucket == Drift(old(bucket), moves(old(tick)))
    {
      hide Ok, AllRoles, Since, Tearing;
      var reply := Ask();
      ModeSame(sys.log);
      if TookEffect(reply) {
        ContactOk(c, sys, hosts);
        sys := sys.(world := sys.world.(hostKeys := sys.world.hostKeys + hosts));
      }
      if reply == Success {
        NoteOk(c, sys, Reached(hosts));
        NoteMode(sys.log, Reached(hosts));
        sys := Note(sys, Reached(hosts));
      }
      exit := ExitOf(reply);
    }

    /** The record of a server, saved before the server exists. */
    method RequestServer(r: Role) returns (exit: Exit)
      requires Valid() && !Tearing(sys.log) && r in AllRoles(c)
      modifies this`tick, this`state, this`sys, this`bucket
      ensures Left(exit) && StepFrame(old(sys), sys) && old(tick) <= tick && (Calm(old(tick)) ==> exit == Fine)
      ensures exit == Fine || exit == Killed
      ensures exit == Fine ==> r in sys.disk.servers && sys.log == old(sys.log) && sys.world == old(sys.world)
    {
      hide Ok, Since, Tearing, AllRoles;
      if r !in state.servers {
        RequestOk(c, sys, r);
        state := WithServer(state, r, REQUESTED);
      }
      var killed := Save();
      exit := if killed then Killed else Fine;
    }

    /** hz.py server, unless its ledger has an interrupted create to adopt. */
    method OrderServer(r: Role) returns (exit: Exit)
      requires Valid() && !Tearing(sys.log) && r in state.servers
      modifies this`tick, this`sys, this`bucket
      ensures Left(exit) && StepFrame(old(sys), sys) && old(tick) <= tick && (Calm(old(tick)) ==> exit == Fine)
      ensures sys.disk == old(sys.disk)
      ensures r in old(sys.world.ledger) ==> exit == Fine && sys == old(sys)
      ensures exit == Fine ==> r in sys.world.ledger
    {
      hide Ok, Since, Tearing;
      if r in sys.world.ledger { return Fine; }
      var reply := Ask();
      if reply == Kill { return Killed; }
      if !TookEffect(reply) { return GateError; }
      AcceptOk(c, sys, r);
      NoteMode(sys.log, Accepted(r));
      var w := sys.world.(servers := sys.world.servers + {r}, ledger := sys.world.ledger + {r});
      sys := Note(sys.(world := w), Accepted(r));
      exit := if reply == Success then Fine else GateError;
    }

    /** create_server. */
    method CreateServer(r: Role) returns (exit: Exit)
      requires Valid() && !Tearing(sys.log) && r in AllRoles(c)
      modifies this`tick, this`state, this`sys, this`bucket
      ensures Left(exit) && StepFrame(old(sys), sys) && old(tick) <= tick && (Calm(old(tick)) ==> exit == Fine)
      ensures exit == Fine ==> r in sys.disk.servers && sys.disk.servers[r].created && r in sys.world.servers
      ensures exit == Fine ==> Accepted(r) in sys.log
    {
      hide Ok, Since, Tearing, AllRoles;
      if r in state.servers && state.servers[r].created {
        CreatedExists(c, sys, r);
        return Fine;
      }
      exit := RequestServer(r);
      if exit != Fine { return; }
      exit := OrderServer(r);
      if exit != Fine { return; }
      CreatedOk(c, sys, r);
      state := WithServer(state, r, state.servers[r].(created := true));
      var killed := Save();
      if killed { return Killed; }
      CreatedExists(c, sys, r);
    }

    /** wait_ssh: retries a host until the deadline, `patience` tries away. */
    method WaitSsh(r: Role, patience: nat) returns (exit: Exit)
      requires Valid() && Reachable(c, sys, {r})
      modifies this`tick, this`sys, this`bucket
      ensures Valid() && Contacted(old(sys), sys, {r}) && old(tick) <= tick && (Calm(old(tick)) ==> exit == Fine)
      ensures exit == Fine ==> r in sys.world.hostKeys
      ensures sys.log == if exit == Fine then old(sys.log) + [Reached({r})] else old(sys.log)
      ensures forall k: nat :: old(tick) <= k < tick - 1 ==> env(k).Failure?
      ensures old(tick) < tick && exit == ExitOf(env(tick - 1)) && (exit == GateError ==> tick == old(tick) + patience + 1)
    {
      hide Ok, AllRoles, Since, Tearing;
      var tries := 0;
      exit := Command({r});
      while exit == GateError && tries < patience
        invariant Valid() && Contacted(old(sys), sys, {r}) && Reachable(c, sys, {r}) && old(tick) <= tick
        invariant Calm(old(tick)) ==> exit == Fine
        invariant exit == Fine ==> r in sys.world.hostKeys
        invariant sys.log == if exit == Fine then old(sys.log) + [Reached({r})] else old(sys.log)
        invariant tick == old(tick) + tries + 1 && tries <= patience && exit == ExitOf(env(tick - 1))
        invariant forall k: nat :: old(tick) <= k < tick - 1 ==> env(k).Failure?
      {
        exit := Command({r});
        tries := tries + 1;
      }
    }

    /** Staging is recorded, then made. */
    method MakeStagingDir() returns (exit: Exit)
      requires Valid() && !Tearing(sys.log)
      modifies this`tick, this`state, this`sys, this`bucket
      ensures Left(exit) && StepFrame(old(sys), sys) && old(tick) <= tick && (Calm(old(tick)) ==> exit == Fine)
      ensures sys.world.staging && !old(sys.world.staging) ==> sys.disk.staging
      ensures exit == Fine ==> sys.disk.staging && sys.world.staging && sys.log == old(sys.log) + [StagingMade]
    {
      hide Ok, Since, Tearing;
      IntentOk(c, sys, state.(staging := true));
      state := state.(staging := true);
      var killed := Save();
      if killed { return Killed; }
      var reply := Ask();
      if TookEffect(reply) {
        MadeOk(c, sys, sys.world.(staging := true), StagingMade);
        NoteMode(sys.log, StagingMade);
        sys := Note(sys.(world := sys.world.(staging := true)), StagingMade);
      }
      exit := ExitOf(reply);
    }

    /** Forgets stored host keys. */
    method ForgetHosts(hosts: set<Role>) returns (exit: Exit)
      requires Valid()
      modifies this`tick, this`sys, this`bucket
      ensures Valid() && tick == old(tick) + 1 && exit == ExitOf(env(old(tick)))
      ensures sys == old(sys).(world := old(sys).world.(hostKeys := sys.world.hostKeys), log := sys.log)
      ensures sys.world.hostKeys <= old(sys).world.hostKeys && SameMode(old(sys.log), sys.log)
      ensures exit == Fine ==> sys.world.hostKeys == old(sys).world.hostKeys - hosts
      ensures sys.log == if exit == Fine then old(sys.log) + [Forgotten(hosts)] else old(sys.log)
      ensures bucket == Drift(old(bucket), moves(old(tick)))
    {
      hide Ok, Since, Tearing;
      var reply := Ask();
      ModeSame(sys.log);
      if TookEffect(reply) {
        ForgetOk(c, sys, hosts);
        sys := sys.(world := sys.world.(hostKeys := sys.world.hostKeys - hosts));
      }
      if reply == Success {
        NoteOk(c, sys, Forgotten(hosts));
        NoteMode(sys.log, Forgotten(hosts));
        sys := Note(sys, Forgotten(hosts));
      }
      exit := ExitOf(reply);
    }

    /** Every planned address is recorded, then forgotten. */
    method RecordHosts() returns (exit: Exit)
      requires Valid() && !Tearing(sys.log)
      modifies this`tick, this`state, this`sys, this`bucket
      ensures Left(exit) && StepFrame(old(sys), sys) && old(tick) <= tick && (Calm(old(tick)) ==> exit == Fine)
      ensures exit == Fine ==> sys.disk.knownHosts == AllRoles(c) && sys.world.hostKeys == {}
      ensures exit == Fine ==> sys.log == old(sys.log) + [Forgotten(AllRoles(c))]
    {
      hide Ok, Since, Tearing, AllRoles;
      HostsKnown(c, sys);
      ServersListed(c, sys);
      IntentOk(c, sys, state.(knownHosts := state.knownHosts + AllRoles(c)));
      state := state.(knownHosts := state.knownHosts + AllRoles(c));
      var killed := Save();
      if killed { return Killed; }
      exit := ForgetHosts(AllRoles(c));
    }

    /** install_runtime: the S3 prefix is recorded before a host gets the key. */
    method InstallRuntime(r: Role) returns (exit: Exit)
      requires Valid() && Reachable(c, sys, {r}) && !Tearing(sys.log)
      modifies this`tick, this`state, this`sys, this`bucket
      ensures Left(exit) && StepFrame(old(sys), sys) && old(tick) <= tick && (Calm(old(tick)) ==> exit == Fine)
      ensures sys.log == old(sys.log) || (old(sys.log) + [Keyed] <= sys.log && sys.disk.s3)
      ensures exit == Fine ==>
                sys.disk.s3 && r in sys.world.hostKeys && sys.log == old(sys.log) + [Keyed] + [Reached({r})]
    {
      hide Ok, Since, Tearing, AllRoles;
      IntentOk(c, sys, state.(s3 := true));
      state := state.(s3 := true);
      var killed := Save();
      if killed { return Killed; }
      MadeOk(c, sys, sys.world, Keyed);
      NoteMode(sys.log, Keyed);
      sys := Note(sys, Keyed);
      exit := Command({r});
    }

    /** Saves a worker as registered. */
    method RegisterWorker(r: Role) returns (exit: Exit)
      requires Valid() && r in state.servers && !state.servers[r].drained
      modifies this`tick, this`state, this`sys, this`bucket
      ensures Left(exit) && StepFrame(old(sys), sys) && tick == old(tick) + 1 && (Calm(old(tick)) ==> exit == Fine)
      ensures if exit == Fine then sys == Registering(old(sys), r) else exit == Killed && sys == old(sys)
    {
      hide Ok, Since, Tearing;
      RegisterOk(c, sys, r);
      NoteMode(sys.log, Registered(r));
      state := WithServer(state, r, state.servers[r].(registered := true));
      var reply := Ask();
      if reply == Kill { return Killed; }
      sys := Note(Saved(sys, state), Registered(r));
      exit := Fine;
    }

    /** init_worker: marked registered before it may heartbeat. */
    method InitWorker(r: Role) returns (exit: Exit)
      requires Valid() && Reachable(c, sys, {r}) && !Tearing(sys.log)
      requires r in state.servers && Init(r) !in Steps(state, Workers)
      modifies this`tick, this`state, this`sys, this`bucket
      ensures Left(exit) && StepFrame(old(sys), sys) && old(tick) <= tick && (Calm(old(tick)) ==> exit == Fine)
      ensures exit != Killed ==> sys.log == old(sys.log) + [Registered(r)] + [InitCalled(r)]
                                            + if exit == Fine then [Reached({r})] else []
      ensures exit != Killed ==> r in sys.disk.servers && sys.disk.servers[r].registered && !sys.disk.servers[r].drained
    {
      hide Ok, Since, Tearing, AllRoles, Steps;
      NotDrained(c, sys, r);
      exit := RegisterWorker(r);
      if exit != Fine { return; }
      InitOk(c, sys, r);
      NoteMode(sys.log, InitCalled(r));
      sys := Note(sys, InitCalled(r));
      exit := Command({r});
    }

    /** A step that starts a detached unit on the converter and waits until it finished. The driver may be killed or give
        up meanwhile; the unit then runs on. */
    method RunJob(name: string) returns (exit: Exit)
      requires Valid() && Reachable(c, sys, {Converter}) && !Tearing(sys.log) && CanWrite(sys)
      modifies this`tick, this`sys, this`bucket
      ensures Left(exit) && Contacted(old(sys), sys, {Converter})
      ensures old(tick) <= tick && (Calm(old(tick)) ==> exit == Fine)
      ensures exit == Fine ==> bucket.jobs == {}
      ensures exit == Fine ==> sys.log == old(sys.log) + JobLog(name)
      ensures StartsThenKills(old(tick)) ==> exit == Killed && bucket.jobs == {Converter}
    {
      hide Ok, AllRoles, Tearing, Since;
      exit := StartUnit(name);
      if exit != Fine { return; }
      exit := Command({Converter});
      if exit != Fine { return; }
      NoteNeutral(c, sys, Ended(name));
      bucket, sys := bucket.(jobs := {}), Note(sys, Ended(name));
      exit := Command({Converter});
    }

    /** start_job. */
    method StartUnit(name: string) returns (exit: Exit)
      requires Valid() && Reachable(c, sys, {Converter}) && !Tearing(sys.log) && CanWrite(sys)
      modifies this`tick, this`sys, this`bucket
      ensures Valid() && Contacted(old(sys), sys, {Converter}) && tick == old(tick) + 1
      ensures exit == ExitOf(env(old(tick)))
      ensures exit == Fine ==> bucket.jobs == {Converter} && sys.log == old(sys.log) + [Reached({Converter}), Started(name)]
    {
      hide Ok, AllRoles, Tearing, Since;
      var took := TookEffect(env(tick));
      exit := Command({Converter});
      if took { bucket := bucket.(jobs := {Converter}); }
      if exit != Fine { return; }
      NoteNeutral(c, sys, Started(name));
      sys := Note(sys, Started(name));
    }

    /** drain: staged on the host, drained, then marked. */
    method DrainWorker(r: Role) returns (exit: Exit)
      requires Valid() && Reachable(c, sys, {r}) && r in state.servers
      requires Tearing(sys.log) || (Init(r) in Steps(state, Workers) && Drain(r) in Plan(c, Workers))
      modifies this`tick, this`state, this`sys, this`bucket
      ensures Left(exit) && StepFrame(old(sys), sys) && old(tick) < tick && (Calm(old(tick)) ==> exit == Fine)
      ensures exit == Fine ==>
                sys.disk == WithServer(old(sys).disk, r, old(sys).disk.servers[r].(drained := true))
      ensures exit != Fine ==> sys.disk == old(sys).disk
      ensures exit == Fine ==> Added(old(sys.log), sys.log, Reached({r})) && Added(old(sys.log), sys.log, DrainOk(r))
      ensures sys.world == old(sys).world.(hostKeys := sys.world.hostKeys)
      ensures old(sys).world.hostKeys <= sys.world.hostKeys && (exit == Fine ==> r in sys.world.hostKeys)
      ensures exit != Incomplete
      ensures env(old(tick)) == Failure(false) ==> exit == GateError && tick == old(tick) + 1
      ensures Added(old(sys.log), sys.log, DrainTried(r))
      ensures Undeleted(old(bucket), bucket) && (Writing(old(tick)) ==> bucket.jobs == old(bucket.jobs))
    {
      hide Ok, Since, Tearing, AllRoles, Steps, Plan, Added, SameMode;
      exit := CallDrain(r);
      ModeFacts(old(sys.log), sys.log);
      ghost var called := sys.log;
      TriedAdded(old(sys.log), called, r);
      if exit != Fine { return; }
      exit := MarkDrained(r);
      ModeTrans(old(sys.log), called, sys.log);
      DrainAdded(old(sys.log), called, r);
      AddedLater(old(sys.log), called, sys.log, DrainTried(r));
    }

    /** The helper is staged, then called. */
    method CallDrain(r: Role) returns (exit: Exit)
      requires Valid() && Reachable(c, sys, {r})
      modifies this`tick, this`sys, this`bucket
      ensures Valid() && Contacted(old(sys), sys, {r}) && old(tick) < tick && (Calm(old(tick)) ==> exit == Fine)
      ensures exit != Incomplete && old(sys.log) + [DrainTried(r)] <= sys.log
      ensures exit == Fine ==>
                r in sys.world.hostKeys && |old(sys.log)| < |sys.log| && sys.log[|sys.log| - 1] == Reached({r})
      ensures env(old(tick)) == Failure(false) ==> exit == GateError && tick == old(tick) + 1
      ensures Undeleted(old(bucket), bucket) && (Writing(old(tick)) ==> bucket.jobs == old(bucket.jobs))
    {
      hide Ok, AllRoles, Tearing, Since;
      NoteNeutral(c, sys, DrainTried(r));
      sys := Note(sys, DrainTried(r));
      exit := ReachTwice(r);
      if exit != Fine { return; }
      exit := Command({r});
    }

    /** The drain succeeded; it is noted and saved. */
    method MarkDrained(r: Role) returns (exit: Exit)
      requires Valid() && r in state.servers
      requires Tearing(sys.log) || (Init(r) in Steps(state, Workers) && Drain(r) in Plan(c, Workers))
      modifies this`tick, this`state, this`sys, this`bucket
      ensures Left(exit) && StepFrame(old(sys), sys) && tick == old(tick) + 1 && (Calm(old(tick)) ==> exit == Fine)
      ensures exit == Fine || exit == Killed
      ensures sys.disk == if exit == Fine then WithServer(old(sys).disk, r, old(sys).disk.servers[r].(drained := true))
                          else old(sys).disk
      ensures sys.world == old(sys).world && bucket == Drift(old(bucket), moves(old(tick)))
      ensures sys.log == old(sys.log) + [DrainOk(r)]
    {
      hide Ok, Since, Tearing, AllRoles, Steps, Plan;
      DrainNoted(c, sys, r);
      NoteMode(sys.log, DrainOk(r));
      sys := Note(sys, DrainOk(r));
      state := WithServer(state, r, state.servers[r].(drained := true));
      var killed := Save();
      exit := if killed then Killed else Fine;
    }

    /** The helper is staged before the drain: a directory, then the file. */
    method ReachTwice(r: Role) returns (exit: Exit)
      requires Valid() && Reachable(c, sys, {r})
      modifies this`tick, this`sys, this`bucket
      ensures Valid() && Contacted(old(sys), sys, {r}) && old(tick) < tick && (Calm(old(tick)) ==> exit == Fine)
      ensures exit != Incomplete
      ensures env(old(tick)) == Failure(false) ==> exit == GateError && sys == old(sys) && tick == old(tick) + 1
      ensures Undeleted(old(bucket), bucket) && (Writing(old(tick)) ==> bucket.jobs == old(bucket.jobs))
    {
      hide Ok, AllRoles, Tearing, Since;
      exit := Command({r});
      if exit != Fine { return; }
      exit := Command({r});
    }

    /** The body of a step. */
    method Execute(p: Phase, step: Step, patience: nat) returns (exit: Exit)
      requires Valid() && !Tearing(sys.log) && Reachable(c, sys, Hosts(step))
      requires step.Create? ==> step.role in AllRoles(c)
      requires step.Job? ==> CanWrite(sys)
      requires step.Init? || step.Drain? ==> step.role in state.servers
      requires step.Init? ==> step !in Steps(state, Workers)
      requires step.Drain? ==> Init(step.role) in Steps(state, Workers) && step in Plan(c, Workers)
      modifies this`tick, this`state, this`sys, this`bucket
      ensures Left(exit) && StepFrame(old(sys), sys) && old(tick) <= tick && (Calm(old(tick)) ==> exit == Fine)
      ensures exit == Fine ==> LeftItsMark(c, sys.disk, p, step) && (step == MakeStaging ==> sys.world.staging)
      ensures exit == Fine ==> RanStep(c, old(sys.log), sys.log, step)
      ensures step.Job? && StartsThenKills(old(tick)) ==> exit == Killed && bucket.jobs == {Converter}
    {
      hide Ok, Since, Tearing, AllRoles, Steps, Plan, RanStep, JobLog;
      match step {
        case Task(_, hosts) => exit := Command(hosts);
        case Job(name) => exit := RunJob(name);
        case MakeStaging => exit := MakeStagingDir();
        case KnownHosts => exit := RecordHosts();
        case Create(r) => exit := CreateServer(r);
        case Ssh(r) => exit := WaitSsh(r, patience);
        case Runtime(r) => exit := InstallRuntime(r);
        case Forget(r) => exit := ForgetHosts({r});
        case Init(r) => exit := InitWorker(r);
        case Drain(r) => exit := DrainWorker(r);
      }
      if exit == Fine { StepRan(c, old(sys.log), sys.log, step); }
    }

    /** step: skipped when recorded, else executed and recorded. */
    method RunStep(p: Phase, step: Step, patience: nat) returns (exit: Exit)
      requires Valid() && !Tearing(sys.log) && CanRun(c, sys, p, step)
      modifies this`tick, this`state, this`sys, this`bucket
      ensures Left(exit) && StepsFrame(old(sys), sys, p) && old(tick) <= tick && (Calm(old(tick)) ==> exit == Fine)
      ensures exit == Fine ==> Steps(sys.disk, p) == Steps(old(sys.disk), p) + {step}
      ensures step.Job? && step !in Steps(old(sys.disk), p) && StartsThenKills(old(tick)) ==>
                exit == Killed && bucket.jobs == {Converter}
    {
      hide Ok, Since, Tearing, AllRoles, Steps, Plan, IsDone, LeftItsMark, RanStep, Performed;
      if step in Steps(state, p) {
        assert Steps(state, p) == Steps(state, p) + {step};
        return Fine;
      }
      ExecuteReady(c, sys, p, step);
      NoteMode(sys.log, Executed(p, step));
      sys := Note(sys, Executed(p, step));
      exit := Execute(p, step, patience);
      FrameSteps(old(sys), sys, p);
      if exit != Fine { return; }
      StepPerformed(c, old(sys.log), sys.log, p, step);
      RecordOk(c, sys, p, step);
      RecordMode(sys, p, step);
      state := WithPhase(state, p, Record(Running, Steps(state, p) + {step}));
      var reply := Ask();
      if reply == Kill { return Killed; }
      sys := Note(Saved(sys, state), Recorded(p, step));
    }

    /** The steps of a plan, in order. */
    method RunPlan(p: Phase, patience: nat) returns (exit: Exit)
      requires Valid() && !Tearing(sys.log) && p != Teardown
      requires p in state.phases && state.phases[p].status == Running
      modifies this`tick, this`state, this`sys, this`bucket
      ensures Left(exit) && StepsFrame(old(sys), sys, p) && old(tick) <= tick && (Calm(old(tick)) ==> exit == Fine)
      ensures exit == Fine ==> forall s :: s in Plan(c, p) ==> s in Steps(sys.disk, p)
    {
      hide Ok, BucketOk, Since, Tearing, AllRoles, Steps, Plan, IsDone, StepsFrame, WellOrdered;
      var plan := Plan(c, p);
      PlanOrdered(c, p);
      FrameSame(sys, p);
      exit := Fine;
      var i := 0;
      while i < |plan|
        invariant 0 <= i <= |plan| && exit == Fine && old(tick) <= tick
        invariant Valid() && StepsFrame(old(sys), sys, p)
        invariant forall j :: 0 <= j < i ==> plan[j] in Steps(sys.disk, p)
      {
        FrameFacts(old(sys), sys, p);
        StepReady(c, sys, p, i);
        ghost var before := sys;
        exit := RunStep(p, plan[i], patience);
        FrameFacts(before, sys, p);
        FrameTrans(old(sys), before, sys, p);
        if exit != Fine { return; }
        i := i + 1;
      }
    }

    /** The body of a phase: what it does before its steps, then the steps of its plan. */
    method RunSteps(p: Phase, patience: nat) returns (exit: Exit)
      requires Valid() && !Tearing(sys.log) && p != Teardown
      requires p in state.phases && state.phases[p].status == Running
      modifies this`tick, this`state, this`sys, this`bucket
      ensures Left(exit) && StepsFrame(old(sys), sys, p) && old(tick) <= tick && (Calm(old(tick)) ==> exit == Fine)
      ensures exit == Fine ==> forall s :: s in Plan(c, p) ==> s in Steps(sys.disk, p)
      ensures exit == Fine && p == Convert ==> old(sys.log) + [Reached({Converter})] <= sys.log
    {
      hide Ok, Since, Tearing, AllRoles, Steps, Plan, IsDone;
      FrameSame(sys, p);
      if p == Convert {
        ConvertReady(c, sys);
        exit := Command({Converter});
        FrameSteps(old(sys), sys, p);
        if exit != Fine { return; }
      }
      ghost var before := sys;
      exit := RunPlan(p, patience);
      FrameTrans(old(sys), before, sys, p);
    }

    // ---- teardown ----

    /** Drains the registered servers that are not drained; the ones that could not be are kept. */
    method DrainServers() returns (undrained: set<Role>, exit: Exit)
      requires Valid() && Tearing(sys.log)
      modifies this`tick, this`state, this`sys, this`bucket
      ensures Left(exit) && TearFrame(old(sys), sys) && exit != GateError && exit != Incomplete && old(tick) <= tick
      ensures exit == Fine ==> DrainedBut(old(sys), sys, {}, undrained)
      ensures exit == Fine ==> forall r :: r in Undrained(old(sys.disk)) ==> Added(old(sys.log), sys.log, DrainTried(r))
      ensures Undrained(old(sys.disk)) == {} ==> sys == old(sys) && tick == old(tick)
      ensures Calm(old(tick)) ==> exit == Fine && undrained == {}
      ensures FailsAt(old(tick)) && Undrained(old(sys.disk)) != {} ==> exit == Fine && undrained != {} && Calm(tick)
      ensures Undeleted(old(bucket), bucket) && (Writing(old(tick)) ==> bucket.jobs == old(bucket.jobs))
    {
      hide Ok, Since, Tearing, AllRoles, DrainedBut, Added, Undrained;
      undrained, exit := {}, Fine;
      var todo := Undrained(state);
      NothingDrained(sys);
      while todo != {}
        invariant Valid() && TearFrame(old(sys), sys) && old(tick) <= tick && exit == Fine
        invariant DrainedBut(old(sys), sys, todo, undrained)
        invariant forall r :: r in Undrained(old(sys.disk)) && r !in todo ==> Added(old(sys.log), sys.log, DrainTried(r))
        invariant Undrained(old(sys.disk)) == {} ==> todo == {} && sys == old(sys) && tick == old(tick)
        invariant Calm(old(tick)) ==> undrained == {}
        invariant FailsAt(old(tick)) && Undrained(old(sys.disk)) != {} ==>
                    if tick == old(tick) then todo != {} else undrained != {}
        invariant Undeleted(old(bucket), bucket) && (Writing(old(tick)) ==> bucket.jobs == old(bucket.jobs))
        decreases todo
      {
        var r :| r in todo;
        ghost var before := sys.log;
        exit := DrainOne(r, old(sys), todo, undrained);
        forall q | Added(old(sys.log), before, DrainTried(q)) || q == r ensures Added(old(sys.log), sys.log, DrainTried(q)) {
          AddedLater(old(sys.log), before, sys.log, DrainTried(q));
        }
        if exit == NoGateway || exit == Killed { return; }
        if exit == GateError { undrained, exit := undrained + {r}, Fine; }
        todo := todo - {r};
      }
    }

    /** One drain of the loop. */
    method DrainOne(r: Role, ghost start: Sys, ghost todo: set<Role>, ghost undrained: set<Role>) returns (exit: Exit)
      requires Valid() && DrainedBut(start, sys, todo, undrained) && r in todo && TearFrame(start, sys)
      modifies this`tick, this`state, this`sys, this`bucket
      ensures Left(exit) && TearFrame(start, sys) && exit != Incomplete && old(tick) < tick
      ensures old(sys.log) <= sys.log && Added(old(sys.log), sys.log, DrainTried(r))
      ensures exit == Fine ==> DrainedBut(start, sys, todo - {r}, undrained)
      ensures exit == GateError ==> DrainedBut(start, sys, todo - {r}, undrained + {r})
      ensures Calm(old(tick)) ==> exit == Fine
      ensures env(old(tick)) == Failure(false) ==> exit == GateError && tick == old(tick) + 1
      ensures Undeleted(old(bucket), bucket) && (Writing(old(tick)) ==> bucket.jobs == old(bucket.jobs))
    {
      hide Ok, Since, Tearing, AllRoles, DrainedBut, Added;
      DrainReady(c, start, sys, todo, undrained, r);
      exit := DrainWorker(r);
      if exit == Fine || exit == GateError { DrainNext(start, old(sys), sys, todo, undrained, r, exit == Fine); }
    }

    /** One try at deleting the S3 objects from a host. */
    method ClearFrom(r: Role) returns (exit: Exit)
      requires Valid() && Tearing(sys.log) && r in state.servers
      modifies this`tick, this`state, this`sys, this`bucket
      ensures Left(exit) && TearFrame(old(sys), sys) && old(tick) <= tick && (Calm(old(tick)) ==> exit == Fine)
      ensures exit != Incomplete
      ensures exit == Fine ==> sys.disk == old(sys.disk).(s3 := false) && r in sys.world.hostKeys
      ensures exit == GateError ==> sys.disk == old(sys.disk) && Undeleted(old(bucket), bucket)
      ensures FailsAt(old(tick)) ==> exit == GateError && Calm(tick)
      ensures sys.world.servers == old(sys.world.servers) && old(sys.world.hostKeys) <= sys.world.hostKeys
      ensures bucket.jobs <= old(bucket.jobs) && (Writing(old(tick)) ==> bucket.jobs == old(bucket.jobs))
      ensures exit == Fine && old(bucket.jobs) == {} ==> !bucket.objects
      ensures exit == Fine && old(bucket.jobs) != {} && Writing(old(tick)) ==> bucket.objects
    {
      hide Ok, Since, Tearing, AllRoles;
      RecordedReachable(c, sys, r);
      exit := Command({r});
      if exit != Fine { return; }
      ClearOk(c, sys);
      NoteMode(sys.log, Cleared);
      sys := Note(sys, Cleared);
      bucket := bucket.(objects := false);
      state := state.(s3 := false);
      var killed := Save();
      if killed { exit := Killed; }
    }

    /** S3 is settled when it is kept on purpose, was never used, or is deleted from the converter or the store. */
    method ClearStore(keepStore: bool) returns (settled: bool, failed: bool, exit: Exit)
      requires Valid() && Tearing(sys.log)
      modifies this`tick, this`state, this`sys, this`bucket
      ensures Left(exit) && TearFrame(old(sys), sys) && exit != GateError && exit != Incomplete && old(tick) <= tick
      ensures exit == Fine ==> sys.disk == old(sys.disk).(s3 := sys.disk.s3) && (settled <==> keepStore || !sys.disk.s3)
      ensures sys.world.servers == old(sys.world.servers) && old(sys.world.hostKeys) <= sys.world.hostKeys
      ensures keepStore || !old(sys.disk.s3) ==> sys == old(sys) && bucket == old(bucket) && exit == Fine && !failed
      ensures Calm(old(tick)) && CanClear(old(sys.disk), keepStore) ==> exit == Fine && settled && !failed
      ensures Calm(old(tick)) && !keepStore && old(sys.disk.s3) && Converter in old(sys.disk.servers) ==>
                Converter in sys.world.hostKeys
      ensures FailsAt(old(tick)) && !keepStore && old(sys.disk.s3) && {Converter, Store} <= old(sys.disk.servers).Keys ==>
                exit == Fine && settled && failed && Store in sys.world.hostKeys
      ensures !keepStore && old(sys.disk.s3) && exit == Fine && settled ==>
                && sys.world.hostKeys != {}
                && (old(bucket.jobs) == {} ==> !bucket.objects)
                && (old(bucket.jobs) != {} && Writing(old(tick)) ==> bucket.objects)
      ensures bucket.jobs <= old(bucket.jobs)
    {
      hide Ok, Since, Tearing, AllRoles;
      settled, failed, exit := keepStore || !state.s3, false, Fine;
      if settled { return; }
      if Converter in state.servers {
        exit := ClearFrom(Converter);
        if exit == Fine { return true, failed, Fine; }
        if exit != GateError { return; }
        failed, exit := true, Fine;
      }
      if Store in state.servers {
        exit := ClearFrom(Store);
        if exit == Fine { return true, failed, Fine; }
        if exit != GateError { return; }
        failed, exit := true, Fine;
      }
    }

    /** hz.py delete-server: whether the server is known to be gone. A server missing from the ledger was never
        accepted or is deleted; one the provider does not have answers 404. A unit ends with its host. */
    method DeleteCall(r: Role) returns (gone: bool, exit: Exit)
      requires Valid() && Tearing(sys.log) && r in state.servers && Deletable(state.servers[r])
      modifies this`tick, this`sys, this`bucket
      ensures Valid() && TearFrame(old(sys), sys) && sys.disk == old(sys.disk) && old(tick) <= tick
      ensures exit == Fine || exit == Killed
      ensures exit == Fine && gone ==> r !in sys.world.servers
      ensures exit == Fine && gone ==> r !in old(sys.world.ledger) || TookEffect(env(old(tick)))
      ensures exit == Fine && r in old(sys.world.servers) ==> (gone <==> env(old(tick)) == Success)
      ensures sys.world.hostKeys == old(sys.world.hostKeys) && sys.world.servers <= old(sys.world.servers)
      ensures Calm(old(tick)) ==> exit == Fine && gone
      ensures Undeleted(old(bucket), bucket) && sys.log == old(sys.log) + [DeleteCalled(r)]
    {
      hide Ok, Since, Tearing, AllRoles;
      DeleteJustified(c, sys, r);
      NoteMode(sys.log, DeleteCalled(r));
      sys := Note(sys, DeleteCalled(r));
      var reply := Ask();
      if reply == Kill { return false, Killed; }
      gone, exit := false, Fine;
      if r !in sys.world.ledger {
        gone := true;
        LedgerKnows(c, sys, r);
      } else if r !in sys.world.servers {
        gone := TookEffect(reply);
      } else if TookEffect(reply) {
        gone := reply == Success;
        var w := sys.world.(servers := sys.world.servers - {r},
                            ledger := if gone then sys.world.ledger - {r} else sys.world.ledger);
        DeletedOk(c, sys, r, w);
        sys, bucket := sys.(world := w), bucket.(jobs := bucket.jobs - {r});
      }
    }

    /** Deletes one server and strikes it off once it is gone. */
    method DeleteServer(r: Role) returns (gone: bool, exit: Exit)
      requires Valid() && Tearing(sys.log) && r in state.servers && Deletable(state.servers[r])
      modifies this`tick, this`state, this`sys, this`bucket
      ensures Left(exit) && TearFrame(old(sys), sys) && (exit == Fine || exit == Killed) && old(tick) <= tick
      ensures exit == Fine ==>
                sys.disk == if gone then old(sys.disk).(servers := old(sys.disk.servers) - {r}) else old(sys.disk)
      ensures sys.world.hostKeys == old(sys.world.hostKeys)
      ensures Calm(old(tick)) ==> exit == Fine && gone
      ensures Undeleted(old(bucket), bucket)
      ensures sys.log == old(sys.log) + [DeleteCalled(r)] + if exit == Fine && gone then [Confirmed(r)] else []
    {
      hide Ok, Since, Tearing, AllRoles;
      gone, exit := DeleteCall(r);
      if exit == Killed || !gone { return; }
      DropOk(c, sys, r);
      NoteMode(sys.log, Confirmed(r));
      state := state.(servers := state.servers - {r});
      var reply := Ask();
      if reply == Kill { return gone, Killed; }
      sys := Note(Saved(sys, state), Confirmed(r));
    }

    /** Workers first; the store node and the converter last. */
    method DeleteServers(undrained: set<Role>) returns (failed: bool, exit: Exit)
      requires Valid() && Tearing(sys.log) && undrained <= state.servers.Keys
      requires forall r :: r in state.servers && r !in undrained ==> Deletable(state.servers[r])
      modifies this`tick, this`state, this`sys, this`bucket
      ensures Left(exit) && TearFrame(old(sys), sys) && (exit == Fine || exit == Killed) && old(tick) <= tick
      ensures exit == Fine ==> sys.disk == old(sys.disk).(servers := sys.disk.servers)
      ensures exit == Fine && undrained == {} && !failed ==> sys.disk.servers == map[]
      ensures exit == Fine ==> forall r :: r in undrained ==>
                r in sys.disk.servers && sys.disk.servers[r] == old(sys.disk.servers)[r]
      ensures exit == Fine ==> forall r :: r in old(sys.disk.servers) && r !in undrained ==>
                Added(old(sys.log), sys.log, DeleteCalled(r))
      ensures WorkersFirst(old(sys.log), sys.log)
      ensures sys.world.hostKeys == old(sys.world.hostKeys)
      ensures Calm(old(tick)) ==> exit == Fine && !failed
      ensures Undeleted(old(bucket), bucket)
    {
      hide Ok, BucketOk, Since, Tearing, AllRoles, Added, WorkersFirst, DeletedBut, SameMode, Deletable;
      failed, exit := false, Fine;
      var todo := state.servers.Keys - undrained;
      NothingDeleted(sys, todo, undrained);
      ModeSame(sys.log);
      while todo != {}
        invariant Valid() && TearFrame(old(sys), sys) && exit == Fine && old(tick) <= tick
        invariant DeletedBut(old(sys), sys, todo, undrained, failed)
        invariant Calm(old(tick)) ==> !failed
        invariant Undeleted(old(bucket), bucket)
        decreases todo
      {
        var workers := todo - STORE_AND_CONVERTER;
        var r: Role;
        if workers != {} { r :| r in workers; } else { r :| r in todo; }
        DeleteReady(old(sys), sys, todo, undrained, failed, r);
        var gone: bool;
        ghost var before := sys;
        gone, exit := DeleteServer(r);
        ModeTrans(old(sys.log), before.log, sys.log);
        DeletesInOrder(old(sys), before, sys, todo, undrained, failed, r, exit == Fine && gone);
        if exit == Killed { return; }
        DeleteNext(old(sys), before, sys, todo, undrained, failed, r, gone);
        failed := failed || !gone;
        todo := todo - {r};
      }
      DeletedFacts(old(sys), sys, undrained, failed);
    }

    /** Removes the staging directory, which the caller allows only with no server left and S3 settled. */
    method RemoveStaging() returns (exit: Exit)
      requires Valid() && Tearing(sys.log) && state.staging && state.servers == map[] && StoreSettled(sys.log)
      modifies this`tick, this`state, this`sys, this`bucket
      ensures Left(exit) && TearFrame(old(sys), sys) && old(tick) <= tick && (Calm(old(tick)) ==> exit == Fine)
      ensures exit == Fine ==> sys.disk == old(sys.disk).(staging := false)
      ensures sys.world.hostKeys == old(sys.world.hostKeys) && sys.world.servers == old(sys.world.servers)
      ensures exit != Incomplete
      ensures Undeleted(old(bucket), bucket)
    {
      hide Ok, Since, Tearing, StoreSettled;
      var reply := Ask();
      if !TookEffect(reply) { return ExitOf(reply); }
      StagingGone(c, sys);
      NoteMode(sys.log, StagingRemoved);
      sys := Note(sys.(world := sys.world.(staging := false)), StagingRemoved);
      if reply != Success { return GateError; }
      state := state.(staging := false);
      var killed := Save();
      exit := if killed then Killed else Fine;
    }

    /** Forgets the recorded addresses. */
    method ForgetRecorded() returns (exit: Exit)
      requires Valid() && Tearing(sys.log)
      modifies this`tick, this`state, this`sys, this`bucket
      ensures Left(exit) && TearFrame(old(sys), sys) && old(tick) <= tick && (Calm(old(tick)) ==> exit == Fine)
      ensures exit == Fine ==> sys.disk == old(sys.disk).(knownHosts := {})
      ensures exit == Fine && old(sys.disk.knownHosts) != {} ==> sys.world.hostKeys == {}
      ensures exit == Fine && old(sys.disk.knownHosts) == {} ==> sys == old(sys)
      ensures exit != Incomplete
      ensures Undeleted(old(bucket), bucket)
    {
      hide Ok, Since, Tearing, AllRoles;
      if state.knownHosts == {} { return Fine; }
      KeysCovered(c, sys);
      exit := ForgetHosts(state.knownHosts);
      if exit != Fine { return; }
      StrikeOk(c, sys, state.(knownHosts := {}));
      state := state.(knownHosts := {});
      var killed := Save();
      if killed { exit := Killed; }
    }

    /** The end of a teardown: staging if nothing else is left, then the addresses. */
    method TidyGateway(settled: bool) returns (exit: Exit)
      requires Valid() && Tearing(sys.log) && (settled ==> StoreSettled(sys.log))
      modifies this`tick, this`state, this`sys, this`bucket
      ensures Left(exit) && TearFrame(old(sys), sys) && old(tick) <= tick && (Calm(old(tick)) ==> exit == Fine)
      ensures exit == Fine ==>
                && sys.disk == old(sys.disk).(staging := sys.disk.staging, knownHosts := {})
                && (settled && sys.disk.servers == map[] ==> !sys.disk.staging)
                && sys.world.hostKeys == if old(sys.disk.knownHosts) != {} then {} else old(sys.world.hostKeys)
      ensures exit != Incomplete
      ensures Undeleted(old(bucket), bucket)
    {
      hide Ok, Since, Tearing, AllRoles, StoreSettled;
      if state.staging && settled && state.servers == map[] {
        exit := RemoveStaging();
        if exit != Fine { return; }
      }
      exit := ForgetRecorded();
    }

    /** The part of a teardown that works on servers and S3; `complete` if nothing failed and nothing was kept back. */
    method SettleServers(keepStore: bool) returns (settled: bool, complete: bool, exit: Exit)
      requires Valid() && Tearing(sys.log)
      modifies this`tick, this`state, this`sys, this`bucket
      ensures Left(exit) && TearFrame(old(sys), sys) && exit != GateError && exit != Incomplete && old(tick) <= tick
      ensures exit == Fine ==> sys.disk == old(sys.disk).(servers := sys.disk.servers, s3 := sys.disk.s3)
      ensures exit == Fine ==> (settled <==> keepStore || !sys.disk.s3)
      ensures exit == Fine && complete ==> settled && sys.disk.servers == map[]
      ensures bucket.jobs <= old(bucket.jobs)
      ensures exit == Fine && complete ==>
                (sys.world.hostKeys == {} <==> old(sys.world.hostKeys) == {} && NoContact(old(sys.disk), keepStore))
      ensures exit == Fine && complete && !keepStore ==> ObjectsAfter(old(sys.disk), old(bucket), bucket, Writing(old(tick)))
      ensures Calm(old(tick)) && CanClear(old(sys.disk), keepStore) ==> exit == Fine && complete
      ensures FailsAt(old(tick)) && Undrained(old(sys.disk)) != {} && CanClear(old(sys.disk), keepStore) ==>
                exit == Fine && !complete && settled && Undrained(sys.disk) != {} && Calm(tick)
    {
      hide Ok, BucketOk, Since, Tearing, AllRoles, SameMode, DrainedBut;
      var undrained, failed, undeleted;
      settled, complete := false, false;
      ModeSame(sys.log);
      undrained, exit := DrainServers();
      if exit != Fine { return; }
      ghost var drained := sys;
      DrainedFacts(old(sys), sys, undrained);
      ModeTearing(old(sys.log), drained.log);
      settled, failed, exit := ClearStore(keepStore);
      ModeTrans(old(sys.log), drained.log, sys.log);
      if exit != Fine { return; }
      ghost var cleared := sys;
      ModeTearing(old(sys.log), cleared.log);
      undeleted, exit := DeleteServers(undrained);
      ModeTrans(old(sys.log), cleared.log, sys.log);
      if exit != Fine { return; }
      complete := undrained == {} && !failed && !undeleted && settled;
      if undrained != {} {
        var r :| r in undrained;
        assert r in Undrained(sys.disk);
      }
    }

    /** teardown. Success leaves no record of a server, of staging or of a known host, and no server at the provider.
        Host keys on the gateway are all gone exactly when addresses were still recorded at the start, or nothing had
        to be contacted and none was stored. Without a running unit S3 objects are left only if they were unrecorded;
        a unit that keeps writing leaves objects behind. */
    method TearDown(keepStore: bool) returns (exit: Exit)
      requires Valid() && Tearing(sys.log) && (keepStore ==> Keeping(sys.log))
      modifies this`tick, this`state, this`sys, this`bucket
      ensures Left(exit) && TearFrame(old(sys), sys) && old(tick) <= tick
      ensures exit == Fine ==> Empty(sys, keepStore)
      ensures exit == Incomplete ==> sys.disk.knownHosts == {}
      ensures exit == Fine ==> (sys.world.hostKeys == {} <==>
                old(sys.disk.knownHosts) != {} || (old(sys.world.hostKeys) == {} && NoContact(old(sys.disk), keepStore)))
      ensures exit == Fine && !keepStore ==> ObjectsAfter(old(sys.disk), old(bucket), bucket, Writing(old(tick)))
      ensures Calm(old(tick)) && CanClear(old(sys.disk), keepStore) ==> exit == Fine
      ensures FailsAt(old(tick)) && Undrained(old(sys.disk)) != {} && CanClear(old(sys.disk), keepStore) ==>
                exit == Incomplete && Undrained(sys.disk) != {} && (keepStore || !sys.disk.s3)
    {
      hide Ok, Since, Tearing, AllRoles, StoreSettled, Keeping;
      var settled, complete;
      settled, complete, exit := SettleServers(keepStore);
      if exit != Fine { return; }
      if settled { Settled(c, old(sys.log), sys, keepStore); }
      exit := TidyGateway(settled);
      if exit != Fine { return; }
      if !complete { return Incomplete; }
      Settled(c, old(sys.log), sys, keepStore);
      TornDownOk(c, sys);
      NoteMode(sys.log, TornDown);
      sys := Note(sys, TornDown);
    }

    // ---- phases ----

    /** Marks a phase running, and notes that its body starts. */
    method BeginPhase(p: Phase, keepStore: bool) returns (exit: Exit)
      requires Valid() && (p != Teardown ==> !Tearing(sys.log))
      requires (Needs(p).Some? ==> IsDone(state, Needs(p).value)) && (Stable(p) ==> !IsDone(state, p))
      modifies this`tick, this`state, this`sys, this`bucket
      ensures Left(exit) && exit == (if env(old(tick)) == Kill then Killed else Fine) && old(sys.log) <= sys.log
      ensures exit == Killed ==> sys == old(sys)
      ensures exit == Fine ==> sys.log == old(sys.log) + [Began(p, keepStore)]
      ensures exit == Fine ==> sys.disk == WithPhase(old(sys.disk), p, Record(Running, Steps(old(sys.disk), p)))
      ensures exit == Fine ==> sys.world == old(sys.world) && (Tearing(sys.log) <==> p == Teardown)
      ensures exit == Fine && p == Teardown && keepStore ==> Keeping(sys.log)
      ensures tick == old(tick) + 1 && bucket == Drift(old(bucket), moves(old(tick)))
    {
      hide Ok, Since;
      StatusOk(c, sys, p, Running);
      BeginNoted(c, Saved(sys, WithPhase(sys.disk, p, Record(Running, Steps(sys.disk, p)))), p, keepStore);
      state := WithPhase(state, p, Record(Running, Steps(state, p)));
      var killed := Save();
      if killed { return Killed; }
      sys := Note(sys, Began(p, keepStore));
      exit := Fine;
    }

    /** Marks a phase done or failed. */
    method EndPhase(p: Phase, ended: Exit) returns (exit: Exit)
      requires Valid() && ended != Killed && p in state.phases && state.phases[p].status == Running
      requires Needs(p).Some? ==> IsDone(state, Needs(p).value)
      requires ended == Fine ==> forall s :: s in Plan(c, p) ==> s in Steps(state, p)
      modifies this`tick, this`state, this`sys, this`bucket
      ensures Left(exit) && exit == (if env(old(tick)) == Kill then Killed else ended) && old(sys.log) <= sys.log
      ensures Tearing(sys.log) <==> Tearing(old(sys.log))
      ensures exit == Fine ==> IsDone(sys.disk, p)
      ensures exit != Killed && exit != Fine ==> p in sys.disk.phases && sys.disk.phases[p].status == Failed
      ensures sys.disk == old(sys.disk).(phases := sys.disk.phases) && sys.world == old(sys.world)
      ensures sys.disk.phases.Keys == old(sys.disk.phases.Keys)
      ensures tick == old(tick) + 1 && Undeleted(old(bucket), bucket)
    {
      hide Ok, Since, Plan, Steps;
      exit := ended;
      if ended == Fine {
        FinishOk(c, sys, p);
        state := WithPhase(state, p, Record(Done, Steps(state, p)));
        var reply := Ask();
        if reply == Kill { return Killed; }
        sys := Note(Saved(sys, state), Finished(p));
      } else {
        StatusOk(c, sys, p, Failed);
        state := WithPhase(state, p, Record(Failed, Steps(state, p)));
        var killed := Save();
        if killed { exit := Killed; }
      }
    }

    /** run_phase for the phases before teardown. */
    method RunStable(p: Phase, patience: nat) returns (exit: Exit)
      requires Valid() && p != Teardown && !Tearing(sys.log)
      modifies this`tick, this`state, this`sys, this`bucket
      ensures Left(exit) && old(sys.log) <= sys.log && !Tearing(sys.log) && old(tick) <= tick
      ensures exit == Fine && Stable(p) ==> IsDone(sys.disk, p)
      ensures Needs(p).Some? && !IsDone(old(sys.disk), Needs(p).value) ==> exit == GateError && sys == old(sys)
      ensures Stable(p) && IsDone(old(sys.disk), p) && (Needs(p).Some? ==> IsDone(old(sys.disk), Needs(p).value)) ==>
                exit == Fine && sys == old(sys)
      ensures (Needs(p).Some? ==> IsDone(old(sys.disk), Needs(p).value)) && (Stable(p) ==> !IsDone(old(sys.disk), p)) ==>
                && (exit == Killed || old(sys.log) + [Began(p, false)] <= sys.log)
                && (exit == Fine || exit == Killed || (p in sys.disk.phases && sys.disk.phases[p].status == Failed))
      ensures forall q :: q != p ==> (q in sys.disk.phases <==> q in old(sys.disk.phases))
      ensures Calm(old(tick)) && (Needs(p).Some? ==> IsDone(old(sys.disk), Needs(p).value)) ==> exit == Fine
    {
      hide Ok, BucketOk, Since, Plan, AllRoles, Steps, Keeping;
      if Needs(p).Some? && !IsDone(state, Needs(p).value) { return GateError; }
      if IsDone(state, p) && Stable(p) { return Fine; }
      exit := RunBody(p, patience);
    }

    /** A phase that may run: marked running, run, and marked done or failed. */
    method RunBody(p: Phase, patience: nat) returns (exit: Exit)
      requires Valid() && p != Teardown && !Tearing(sys.log)
      requires (Needs(p).Some? ==> IsDone(state, Needs(p).value)) && (Stable(p) ==> !IsDone(state, p))
      modifies this`tick, this`state, this`sys, this`bucket
      ensures Left(exit) && old(sys.log) <= sys.log && !Tearing(sys.log) && old(tick) <= tick
      ensures exit == Fine ==> IsDone(sys.disk, p)
      ensures exit == Killed || old(sys.log) + [Began(p, false)] <= sys.log
      ensures exit == Fine || exit == Killed || (p in sys.disk.phases && sys.disk.phases[p].status == Failed)
      ensures forall q :: q != p ==> (q in sys.disk.phases <==> q in old(sys.disk.phases))
      ensures Calm(old(tick)) ==> exit == Fine
    {
      hide Ok, BucketOk, Since, Plan, AllRoles, Steps, Keeping;
      exit := BeginPhase(p, false);
      if exit == Killed { return; }
      ghost var begun := sys;
      exit := RunSteps(p, patience);
      PhasesKept(begun, sys, p);
      if exit == Killed { return; }
      exit := EndPhase(p, exit);
    }

    /** run_phase for teardown, with what TearDown says of it. */
    method RunTeardown(keepStore: bool) returns (exit: Exit)
      requires Valid()
      modifies this`tick, this`state, this`sys, this`bucket
      ensures Left(exit) && old(sys.log) <= sys.log && old(tick) <= tick
      ensures exit == Fine ==> Empty(sys, keepStore)
      ensures exit == Incomplete ==> sys.disk.knownHosts == {}
      ensures exit == Fine ==> (sys.world.hostKeys == {} <==>
                old(sys.disk.knownHosts) != {} || (old(sys.world.hostKeys) == {} && NoContact(old(sys.disk), keepStore)))
      ensures exit == Fine && !keepStore ==> ObjectsAfter(old(sys.disk), old(bucket), bucket, Writing(old(tick)))
      ensures Calm(old(tick)) && CanClear(old(sys.disk), keepStore) ==> exit == Fine
      ensures env(old(tick)) == Success && FailsAt(old(tick) + 1) && Undrained(old(sys.disk)) != {}
              && CanClear(old(sys.disk), keepStore)
              ==> exit == Incomplete && Undrained(sys.disk) != {} && (keepStore || !sys.disk.s3)
    {
      hide Ok, BucketOk, Since, Plan, AllRoles, Steps, Keeping, Undrained, CanClear, NoContact, Tearing;
      exit := BeginPhase(Teardown, keepStore);
      if exit == Killed { return; }
      SameResources(old(sys.disk), sys.disk, keepStore);
      NoPlan(c);
      exit := TearDown(keepStore);
      if exit == Killed { return; }
      ghost var torn := sys.disk;
      TornUnits(sys, bucket);
      exit := EndPhase(Teardown, exit);
      SameResources(torn, sys.disk, keepStore);
    }

    /** run_phase. A process killed or failing anywhere leaves the invariant. */
    method RunPhase(p: Phase, keepStore: bool, patience: nat) returns (exit: Exit)
      requires Valid() && (p != Teardown ==> !Tearing(sys.log))
      modifies this`tick, this`state, this`sys, this`bucket
      ensures Left(exit) && old(sys.log) <= sys.log && old(tick) <= tick
      ensures p != Teardown ==> !Tearing(sys.log)
      ensures exit == Fine && Stable(p) ==> IsDone(sys.disk, p)
      ensures exit == Fine && p == Teardown ==> Empty(sys, keepStore)
      ensures Calm(old(tick)) && CanStart(old(sys.disk), p, keepStore) ==> exit == Fine
    {
      hide Ok, Since;
      if p == Teardown { exit := RunTeardown(keepStore); } else { exit := RunStable(p, patience); }
    }

    /** A whole history: processes running one phase each, killed anywhere or not, then teardowns retried. */
    method Drive(phases: seq<Phase>, teardowns: seq<bool>, patience: nat)
      requires Valid() && sys == FRESH && Teardown !in phases
      modifies this`tick, this`state, this`sys, this`bucket
      ensures Ok(c, sys) && BucketOk(sys, bucket)
    {
      hide Ok, BucketOk;
      var exit;
      for i := 0 to |phases|
        invariant c.workers >= 1 && Ok(c, sys) && BucketOk(sys, bucket) && !Tearing(sys.log)
      {
        state := sys.disk;
        exit := RunPhase(phases[i], false, patience);
      }
      for i := 0 to |teardowns|
        invariant c.workers >= 1 && Ok(c, sys) && BucketOk(sys, bucket)
      {
        state := sys.disk;
        exit := RunPhase(Teardown, teardowns[i], patience);
      }
    }

    /** A teardown that had to keep an undrained worker has already struck off the addresses, so whenever a retry
        succeeds it leaves a host key on the gateway. */
    method RetryLeavesKeys(keepStore: bool) returns (first: Exit, second: Exit, kept: set<Role>)
      requires Valid()
      modifies this`tick, this`state, this`sys, this`bucket
      ensures first == Incomplete && kept != {} && second == Fine ==>
                sys.world.hostKeys != {} && sys.disk.knownHosts == {}
    {
      hide Ok, BucketOk;
      first := RunTeardown(keepStore);
      state := sys.disk;
      kept := Undrained(state);
      second := RunTeardown(keepStore);
    }
  }

  /** The history of a unit that was started, waited for and whose result was fetched. */
  function JobLog(name: string): seq<Action>
  {
    [Reached({Converter}), Started(name), Reached({Converter}), Ended(name), Reached({Converter})]
  }

  lemma {:induction false} NoteNeutral(c: Config, sys: Sys, a: Action)
    requires Ok(c, sys) && (a.Started? || a.Ended? || a.DrainTried?)
    ensures Ok(c, Note(sys, a)) && SameMode(sys.log, Note(sys, a).log)
  {
    hide Ok, Since;
    NoteOk(c, sys, a);
    NoteMode(sys.log, a);
  }

  lemma {:induction false} DrainAdded(a: seq<Action>, b: seq<Action>, r: Role)
    requires |a| < |b| && b[|b| - 1] == Reached({r})
    ensures var log := b + [DrainOk(r)]; Added(a, log, Reached({r})) && Added(a, log, DrainOk(r))
  {
    var log := b + [DrainOk(r)];
    assert log[|a|..][|b| - 1 - |a|] == Reached({r}) && log[|a|..][|b| - |a|] == DrainOk(r);
  }

  lemma {:induction false} TriedAdded(a: seq<Action>, b: seq<Action>, r: Role)
    requires a + [DrainTried(r)] <= b
    ensures Added(a, b, DrainTried(r))
  {
    assert b[|a|..][0] == DrainTried(r);
  }

  lemma {:induction false} AddedLater(a: seq<Action>, b: seq<Action>, d: seq<Action>, e: Action)
    requires a <= b <= d && (Added(a, b, e) || Added(b, d, e))
    ensures Added(a, d, e)
  {
    if Added(a, b, e) {
      var i :| 0 <= i < |b[|a|..]| && b[|a|..][i] == e;
      assert d[|a|..][i] == e;
    } else {
      var i :| 0 <= i < |d[|b|..]| && d[|b|..][i] == e;
      assert d[|a|..][i + |b| - |a|] == e;
    }
  }

  /** After a delete-server for the store node or the converter come only theirs. */
  ghost predicate WorkersFirst(a: seq<Action>, b: seq<Action>)
  {
    forall i, j :: |a| <= i < j < |b| && b[i].DeleteCalled? && b[i].role in STORE_AND_CONVERTER && b[j].DeleteCalled? ==>
      b[j].role in STORE_AND_CONVERTER
  }

  /** No delete-server for the store node or the converter. */
  ghost predicate NoneCalled(a: seq<Action>, b: seq<Action>)
  {
    forall i :: |a| <= i < |b| && b[i].DeleteCalled? ==> b[i].role !in STORE_AND_CONVERTER
  }

  /** Of the servers outside `undrained` those outside `todo` were tried, and are struck off unless one `failed`. */
  ghost predicate DeletedBut(a: Sys, b: Sys, todo: set<Role>, undrained: set<Role>, failed: bool)
  {
    && b.disk == a.disk.(servers := b.disk.servers) && b.world.hostKeys == a.world.hostKeys
    && todo !! undrained && todo + undrained <= b.disk.servers.Keys && undrained <= a.disk.servers.Keys
    && (forall r :: r in todo ==> Deletable(b.disk.servers[r]))
    && (forall r :: r in undrained ==> b.disk.servers[r] == a.disk.servers[r])
    && (!failed ==> b.disk.servers.Keys <= todo + undrained)
    && (forall r :: r in a.disk.servers && r !in undrained && r !in todo ==> Added(a.log, b.log, DeleteCalled(r)))
    && a.log <= b.log && WorkersFirst(a.log, b.log) && (todo - STORE_AND_CONVERTER != {} ==> NoneCalled(a.log, b.log))
    && Tearing(b.log)
  }

  lemma {:induction false} NothingDeleted(sys: Sys, todo: set<Role>, undrained: set<Role>)
    requires Tearing(sys.log) && undrained <= sys.disk.servers.Keys && todo == sys.disk.servers.Keys - undrained
    requires forall r :: r in sys.disk.servers && r !in undrained ==> Deletable(sys.disk.servers[r])
    ensures DeletedBut(sys, sys, todo, undrained, false)
  {
    hide Tearing;
    NoneCalledYet(sys.log);
  }

  lemma {:induction false} DeleteReady(a: Sys, b: Sys, todo: set<Role>, undrained: set<Role>, failed: bool, r: Role)
    requires DeletedBut(a, b, todo, undrained, failed) && r in todo
    ensures r in b.disk.servers && Deletable(b.disk.servers[r]) && Tearing(b.log)
  {
    hide Tearing, Added, WorkersFirst, NoneCalled, Deletable;
  }

  lemma {:induction false} DeletesInOrder(a: Sys, b: Sys, d: Sys, todo: set<Role>, undrained: set<Role>, failed: bool,
                                          r: Role, gone: bool)
    requires DeletedBut(a, b, todo, undrained, failed) && r in todo
    requires todo - STORE_AND_CONVERTER != {} ==> r !in STORE_AND_CONVERTER
    requires d.log == b.log + [DeleteCalled(r)] + if gone then [Confirmed(r)] else []
    ensures WorkersFirst(a.log, d.log) && b.world.hostKeys == a.world.hostKeys
  {
    hide Tearing, Added, WorkersFirst, NoneCalled, Deletable;
    if r !in STORE_AND_CONVERTER { assert r in todo - STORE_AND_CONVERTER; }
    DeleteLogged(a.log, b.log, d.log, r, gone);
  }

  lemma {:induction false} DeleteNext(a: Sys, b: Sys, d: Sys, todo: set<Role>, undrained: set<Role>, failed: bool,
                                      r: Role, gone: bool)
    requires DeletedBut(a, b, todo, undrained, failed) && r in todo && SameMode(b.log, d.log)
    requires todo - STORE_AND_CONVERTER != {} ==> r !in STORE_AND_CONVERTER
    requires d.disk == if gone then b.disk.(servers := b.disk.servers - {r}) else b.disk
    requires d.world.hostKeys == b.world.hostKeys
    requires d.log == b.log + [DeleteCalled(r)] + if gone then [Confirmed(r)] else []
    ensures DeletedBut(a, d, todo - {r}, undrained, failed || !gone)
  {
    hide Tearing, Added, WorkersFirst, NoneCalled, Deletable, Since;
    if r !in STORE_AND_CONVERTER { assert r in todo - STORE_AND_CONVERTER; }
    DeleteLogged(a.log, b.log, d.log, r, gone);
    if todo - {r} - STORE_AND_CONVERTER != {} {
      var q :| q in todo - {r} - STORE_AND_CONVERTER;
      assert q in todo - STORE_AND_CONVERTER;
    }
  }

  lemma {:induction false} DeletedFacts(a: Sys, b: Sys, undrained: set<Role>, failed: bool)
    requires DeletedBut(a, b, {}, undrained, failed)
    ensures b.disk == a.disk.(servers := b.disk.servers) && b.world.hostKeys == a.world.hostKeys
    ensures undrained == {} && !failed ==> b.disk.servers == map[]
    ensures forall r :: r in undrained ==>
              r in a.disk.servers && r in b.disk.servers && b.disk.servers[r] == a.disk.servers[r]
    ensures forall r :: r in a.disk.servers && r !in undrained ==> Added(a.log, b.log, DeleteCalled(r))
    ensures WorkersFirst(a.log, b.log)
  {
    hide Tearing, Added, WorkersFirst, NoneCalled, Deletable;
  }

  lemma {:induction false} NoneCalledYet(a: seq<Action>)
    ensures WorkersFirst(a, a) && NoneCalled(a, a)
  {
  }

  lemma {:induction false} DeleteLogged(a: seq<Action>, b: seq<Action>, d: seq<Action>, r: Role, gone: bool)
    requires a <= b && d == b + [DeleteCalled(r)] + if gone then [Confirmed(r)] else []
    requires WorkersFirst(a, b) && (r !in STORE_AND_CONVERTER ==> NoneCalled(a, b))
    ensures WorkersFirst(a, d) && (r !in STORE_AND_CONVERTER ==> NoneCalled(a, d)) && Added(a, d, DeleteCalled(r))
    ensures forall q :: Added(a, b, DeleteCalled(q)) ==> Added(a, d, DeleteCalled(q))
  {
    assert d[|a|..][|b| - |a|] == DeleteCalled(r);
    assert forall i :: 0 <= i < |b| ==> d[i] == b[i];
    assert d[|b|] == DeleteCalled(r) && (|d| > |b| + 1 ==> d[|b| + 1] == Confirmed(r));
    forall q | Added(a, b, DeleteCalled(q)) ensures Added(a, d, DeleteCalled(q)) { AddedLater(a, b, d, DeleteCalled(q)); }
  }

  /** What the methods add to the history covers the effects of their steps. */
  ghost predicate Ran(c: Config, a: seq<Action>, b: seq<Action>, s: Step)
  {
    match s
    case Task(_, hosts) => b == a + [Reached(hosts)]
    case Job(name) => b == a + JobLog(name)
    case MakeStaging => b == a + [StagingMade]
    case KnownHosts => b == a + [Forgotten(AllRoles(c))]
    case Create(r) => Accepted(r) in b
    case Ssh(r) => b == a + [Reached({r})]
    case Runtime(r) => b == a + [Keyed] + [Reached({r})]
    case Forget(r) => b == a + [Forgotten({r})]
    case Init(r) => b == a + [Registered(r)] + [InitCalled(r)] + [Reached({r})]
    case Drain(r) => Added(a, b, Reached({r})) && Added(a, b, DrainOk(r))
  }

  lemma {:induction false} StepRan(c: Config, a: seq<Action>, b: seq<Action>, s: Step)
    requires Ran(c, a, b, s)
    ensures RanStep(c, a, b, s)
  {
    hide AllRoles;
    match s {
      case Job(name) =>
        assert b[|a|..] == JobLog(name);
        assert JobLog(name)[0] == Reached({Converter}) && JobLog(name)[1] == Started(name) && JobLog(name)[3] == Ended(name);
      case Runtime(r) =>
        assert b[|a|..] == [Keyed, Reached({r})];
      case Init(r) =>
        assert b[|a|..] == [Registered(r), InitCalled(r), Reached({r})];
      case Create(_) =>
      case Drain(_) =>
      case _ =>
        assert b[|a|..] == [b[|a|]];
    }
  }

  lemma {:induction false} StepPerformed(c: Config, a: seq<Action>, b: seq<Action>, p: Phase, s: Step)
    requires a + [Executed(p, s)] <= b && RanStep(c, a + [Executed(p, s)], b, s)
    ensures Performed(c, b, p, s)
  {
    hide RanStep;
    assert b[|a|] == Executed(p, s) && b[..|a| + 1] == a + [Executed(p, s)];
  }

  /** A unit may write: the converter exists and the prefix is recorded. */
  ghost predicate CanWrite(sys: Sys)
  {
    Converter in sys.world.servers && sys.disk.s3
  }

  lemma {:induction false} CreatedExists(c: Config, sys: Sys, r: Role)
    requires Ok(c, sys) && !Tearing(sys.log) && r in sys.disk.servers && sys.disk.servers[r].created
    ensures r in sys.world.servers && Accepted(r) in sys.log
  {
    hide Since, Steps, WorkOk;
  }

  lemma {:induction false} NotDrained(c: Config, sys: Sys, r: Role)
    requires Ok(c, sys) && !Tearing(sys.log) && r in sys.disk.servers && Init(r) !in Steps(sys.disk, Workers)
    ensures !sys.disk.servers[r].drained
  {
    hide Since, Steps;
  }

  lemma {:induction false} DrainNoted(c: Config, sys: Sys, r: Role)
    requires Ok(c, sys) && r in sys.disk.servers
    requires Tearing(sys.log) || (Init(r) in Steps(sys.disk, Workers) && Drain(r) in Plan(c, Workers))
    ensures var next := Note(sys, DrainOk(r));
            Ok(c, next) && Ok(c, Saved(next, WithServer(sys.disk, r, sys.disk.servers[r].(drained := true))))
  {
    hide Ok, Since, AllRoles, Steps, Plan;
    NoteOk(c, sys, DrainOk(r));
    SinceNext(sys.log, DrainOk(r), InitCalled(r), DrainOk(r));
    SinceNext(sys.log, DrainOk(r), Registered(r), DrainOk(r));
    NoteMode(sys.log, DrainOk(r));
    DrainedOk(c, Note(sys, DrainOk(r)), r);
  }

  lemma {:induction false} HostsKnown(c: Config, sys: Sys)
    requires Ok(c, sys)
    ensures sys.disk.knownHosts + AllRoles(c) == AllRoles(c)
  {
  }

  lemma {:induction false} ForgetOk(c: Config, sys: Sys, hosts: set<Role>)
    requires Ok(c, sys)
    ensures Ok(c, sys.(world := sys.world.(hostKeys := sys.world.hostKeys - hosts)))
  {
    hide AllRoles, Since;
    WorldOk(c, sys, sys.world.(hostKeys := sys.world.hostKeys - hosts));
  }

  lemma {:induction false} ContactOk(c: Config, sys: Sys, hosts: set<Role>)
    requires Ok(c, sys) && Reachable(c, sys, hosts)
    ensures Ok(c, sys.(world := sys.world.(hostKeys := sys.world.hostKeys + hosts)))
  {
    hide Since;
    var w := sys.world.(hostKeys := sys.world.hostKeys + hosts);
    assert Tearing(sys.log) || w.hostKeys <= sys.disk.knownHosts;
    WorldOk(c, sys, w);
  }

  /** A step of a running phase may run: what its plan puts before it is recorded. */
  ghost predicate CanRun(c: Config, sys: Sys, p: Phase, step: Step)
  {
    && step in Plan(c, p) && p in sys.disk.phases && sys.disk.phases[p].status == Running
    && Reachable(c, sys, Hosts(step)) && (step.Create? ==> step.role in AllRoles(c)) && (step.Job? ==> CanWrite(sys))
    && (step.Init? ==> p == Workers && Create(step.role) in Steps(sys.disk, p))
    && (step.Drain? ==> p == Workers && Create(step.role) in Steps(sys.disk, p) && Init(step.role) in Steps(sys.disk, p))
  }

  /** What running steps of a phase may change. */
  ghost predicate StepsFrame(a: Sys, b: Sys, p: Phase)
  {
    && SameMode(a.log, b.log) && a.disk.servers.Keys <= b.disk.servers.Keys
    && p in a.disk.phases && p in b.disk.phases && b.disk.phases[p].status == a.disk.phases[p].status
    && Steps(a.disk, p) <= Steps(b.disk, p)
    && forall q :: q != p ==> (q in a.disk.phases <==> q in b.disk.phases)
                              && (q in a.disk.phases ==> a.disk.phases[q] == b.disk.phases[q])
  }

  lemma {:induction false} FrameSteps(a: Sys, b: Sys, p: Phase)
    requires StepFrame(a, b) && p in a.disk.phases
    ensures StepsFrame(a, b, p) && Steps(a.disk, p) == Steps(b.disk, p)
  {
  }

  lemma {:induction false} FrameSame(a: Sys, p: Phase)
    requires p in a.disk.phases
    ensures StepsFrame(a, a, p)
  {
  }

  lemma {:induction false} FrameTrans(a: Sys, b: Sys, d: Sys, p: Phase)
    requires StepsFrame(a, b, p) && StepsFrame(b, d, p)
    ensures StepsFrame(a, d, p)
  {
    hide Since, Steps, Tearing;
  }

  lemma {:induction false} FrameFacts(a: Sys, b: Sys, p: Phase)
    requires StepsFrame(a, b, p)
    ensures (Tearing(a.log) <==> Tearing(b.log)) && Steps(a.disk, p) <= Steps(b.disk, p)
    ensures p in a.disk.phases && p in b.disk.phases && b.disk.phases[p].status == a.disk.phases[p].status
  {
  }

  lemma {:induction false} ExecuteReady(c: Config, sys: Sys, p: Phase, step: Step)
    requires Ok(c, sys) && !Tearing(sys.log) && CanRun(c, sys, p, step) && step !in Steps(sys.disk, p)
    ensures Ok(c, Note(sys, Executed(p, step)))
    ensures step.Init? || step.Drain? ==> step.role in sys.disk.servers
  {
    NotRecorded(c, sys, p, step);
    hide Ok, Since, AllRoles, Plan;
    NoteOk(c, sys, Executed(p, step));
  }

  lemma {:induction false} NotRecorded(c: Config, sys: Sys, p: Phase, step: Step)
    requires Ok(c, sys) && !Tearing(sys.log) && CanRun(c, sys, p, step) && step !in Steps(sys.disk, p)
    ensures Recorded(p, step) !in sys.log
    ensures step.Init? || step.Drain? ==> step.role in sys.disk.servers
  {
    hide Since, AllRoles, Plan, ServersOk, PhasesOk, HostsOk, StorageOk, GoodLog, WorkOk;
  }

  lemma {:induction false} RecordMode(sys: Sys, p: Phase, step: Step)
    requires p in sys.disk.phases && sys.disk.phases[p].status == Running
    ensures var next := Note(Saved(sys, WithPhase(sys.disk, p, Record(Running, Steps(sys.disk, p) + {step}))),
                             Recorded(p, step));
            StepsFrame(sys, next, p) && Steps(next.disk, p) == Steps(sys.disk, p) + {step}
  {
    hide Since;
    NoteMode(sys.log, Recorded(p, step));
  }

  /** Later phases run after provision, so every address is recorded and the converter exists. */
  lemma {:induction false} AfterProvision(c: Config, sys: Sys, p: Phase)
    requires Ok(c, sys) && !Tearing(sys.log) && p in sys.disk.phases && Needs(p).Some?
    ensures sys.disk.knownHosts == AllRoles(c) && Converter in sys.world.servers
  {
    hide Since, AllRoles, StepsOk, StorageOk, GoodLog, WorkOk, DrainedSince, PhasesOk, Tearing, Steps;
    ProvisionDone(c, sys, p);
  }

  lemma {:induction false} ProvisionDone(c: Config, sys: Sys, p: Phase)
    requires PhasesOk(c, sys) && p in sys.disk.phases && Needs(p).Some?
    ensures KnownHosts in Steps(sys.disk, Provision) && Create(Converter) in Steps(sys.disk, Provision)
  {
    hide Steps;
    assert IsDone(sys.disk, Provision);
    assert PROVISION_PLAN[3] == KnownHosts && PROVISION_PLAN[5] == Create(Converter);
    assert KnownHosts in Plan(c, Provision) && Create(Converter) in Plan(c, Provision);
  }

  /** Phases that write run after configure, so the S3 prefix is recorded. */
  lemma {:induction false} AfterConfigure(c: Config, sys: Sys, p: Phase)
    requires Ok(c, sys) && !Tearing(sys.log) && p in sys.disk.phases && Writes(p)
    ensures sys.disk.s3
  {
    hide Since, AllRoles, StepsOk, StorageOk, GoodLog, WorkOk, HostsOk, ServersOk;
    assert IsDone(sys.disk, Configure);
    assert CONFIGURE_PLAN[3] == Runtime(Store);
    assert Runtime(Store) in Plan(c, Configure);
    assert Runtime(Store) in Steps(sys.disk, Configure);
  }

  /** The converter can be reached when the convert phase starts. */
  lemma {:induction false} ConvertReady(c: Config, sys: Sys)
    requires Ok(c, sys) && !Tearing(sys.log) && Convert in sys.disk.phases
    ensures Reachable(c, sys, {Converter})
  {
    hide Ok, Since, WorkerRoles;
    AfterProvision(c, sys, Convert);
  }

  lemma {:induction false} StepReady(c: Config, sys: Sys, p: Phase, i: nat)
    requires Ok(c, sys) && !Tearing(sys.log) && p != Teardown
    requires p in sys.disk.phases && sys.disk.phases[p].status == Running
    requires WellOrdered(c, p, [], Plan(c, p)) && i < |Plan(c, p)|
    requires forall j :: 0 <= j < i ==> Plan(c, p)[j] in Steps(sys.disk, p)
    ensures CanRun(c, sys, p, Plan(c, p)[i])
  {
    hide Since, AllRoles, ServersOk, MarksOk, StepsOk, PhasesOk, StorageOk, GoodLog, WorkOk, Steps, Plan;
    var before, step := Plan(c, p)[..i], Plan(c, p)[i];
    assert [] + before == before;
    assert Ordered(c, p, before, step);
    if Needs(p).Some? { AfterProvision(c, sys, p); }
    if Writes(p) { AfterConfigure(c, sys, p); }
    ReportEmpty(c, p, i);
  }

  lemma {:induction false} ReportEmpty(c: Config, p: Phase, i: nat)
    requires i < |Plan(c, p)|
    ensures p == Provision || Needs(p).Some?
  {
  }

  // ---- teardown ----

  /** Servers outside `todo` and `undrained` may be deleted; nothing but drained marks and host keys changed. */
  ghost predicate DrainedBut(a: Sys, b: Sys, todo: set<Role>, undrained: set<Role>)
  {
    && b.disk == a.disk.(servers := b.disk.servers) && b.disk.servers.Keys == a.disk.servers.Keys
    && todo + undrained <= b.disk.servers.Keys && todo !! undrained
    && (forall r :: r in b.disk.servers ==> (Deletable(b.disk.servers[r]) <==> r !in todo + undrained))
    && b.world == a.world.(hostKeys := b.world.hostKeys) && a.world.hostKeys <= b.world.hostKeys
    && (undrained == {} && b.world.hostKeys == {} ==> todo == Undrained(a.disk))
    && Tearing(b.log)
  }

  lemma {:induction false} NothingDrained(sys: Sys)
    requires Tearing(sys.log)
    ensures DrainedBut(sys, sys, Undrained(sys.disk), {})
  {
  }

  lemma {:induction false} DrainReady(c: Config, a: Sys, sys: Sys, todo: set<Role>, undrained: set<Role>, r: Role)
    requires Ok(c, sys) && DrainedBut(a, sys, todo, undrained) && r in todo
    ensures r in sys.disk.servers && Reachable(c, sys, {r}) && Tearing(sys.log)
  {
    hide AllRoles, Since, Tearing;
    RecordedReachable(c, sys, r);
  }

  lemma {:induction false} DrainNext(a: Sys, b: Sys, d: Sys, todo: set<Role>, undrained: set<Role>, r: Role, drained: bool)
    requires DrainedBut(a, b, todo, undrained) && r in todo && r in b.disk.servers && StepFrame(b, d)
    requires d.disk == if drained then WithServer(b.disk, r, b.disk.servers[r].(drained := true)) else b.disk
    requires d.world == b.world.(hostKeys := d.world.hostKeys) && b.world.hostKeys <= d.world.hostKeys
    requires drained ==> r in d.world.hostKeys
    ensures DrainedBut(a, d, todo - {r}, if drained then undrained else undrained + {r})
  {
    hide Since, Tearing;
  }

  lemma {:induction false} DrainedFacts(a: Sys, b: Sys, undrained: set<Role>)
    requires DrainedBut(a, b, {}, undrained)
    ensures b.disk == a.disk.(servers := b.disk.servers) && b.disk.servers.Keys == a.disk.servers.Keys
    ensures undrained <= b.disk.servers.Keys
    ensures forall r :: r in b.disk.servers ==> (Deletable(b.disk.servers[r]) <==> r !in undrained)
    ensures b.world == a.world.(hostKeys := b.world.hostKeys) && a.world.hostKeys <= b.world.hostKeys
    ensures undrained == {} && b.world.hostKeys == {} ==> Undrained(a.disk) == {}
  {
    hide Since, Tearing;
  }

  /** What S3 holds after a teardown that does not keep it. */
  ghost predicate ObjectsAfter(f: File, a: Bucket, b: Bucket, writing: bool)
  {
    && (a.jobs == {} ==> b.objects == (a.objects && !f.s3))
    && (a.jobs != {} && f.s3 && writing ==> b.objects)
  }

  lemma {:induction false} ModeSame(log: seq<Action>)
    ensures SameMode(log, log)
  {
  }

  lemma {:induction false} ModeFacts(a: seq<Action>, b: seq<Action>)
    requires SameMode(a, b)
    ensures a <= b && (Tearing(a) <==> Tearing(b))
  {
  }

  lemma {:induction false} ModeTrans(a: seq<Action>, b: seq<Action>, d: seq<Action>)
    requires SameMode(a, b) && SameMode(b, d)
    ensures SameMode(a, d)
  {
    hide Since, Tearing;
  }

  lemma {:induction false} ModeTearing(a: seq<Action>, b: seq<Action>)
    requires Tearing(a) && SameMode(a, b)
    ensures Tearing(b)
  {
  }

  lemma {:induction false} RecordedReachable(c: Config, sys: Sys, r: Role)
    requires Ok(c, sys) && Tearing(sys.log) && r in sys.disk.servers
    ensures Reachable(c, sys, {r})
  {
    hide AllRoles, Since;
  }

  lemma {:induction false} ClearOk(c: Config, sys: Sys)
    requires Ok(c, sys) && Tearing(sys.log)
    ensures var next := Note(sys, Cleared); Ok(c, next) && Ok(c, Saved(next, sys.disk.(s3 := false)))
  {
    hide Ok, Since, Tearing, AllRoles;
    NoteOk(c, sys, Cleared);
    SinceNext(sys.log, Cleared, Keyed, Cleared);
    NoteMode(sys.log, Cleared);
    StrikeOk(c, Note(sys, Cleared), sys.disk.(s3 := false));
  }

  lemma {:induction false} ServersListed(c: Config, sys: Sys)
    requires Ok(c, sys)
    ensures sys.world.servers <= sys.world.ledger && sys.world.hostKeys <= AllRoles(c)
  {
    hide Since;
  }

  lemma {:induction false} DeleteJustified(c: Config, sys: Sys, r: Role)
    requires Ok(c, sys) && r in sys.disk.servers && Deletable(sys.disk.servers[r])
    ensures Ok(c, Note(sys, DeleteCalled(r)))
  {
    hide Since;
    assert DrainedSince(sys.log, r);
    hide Ok, DrainedSince;
    NoteOk(c, sys, DeleteCalled(r));
  }

  lemma {:induction false} LedgerKnows(c: Config, sys: Sys, r: Role)
    requires Ok(c, sys) && r !in sys.world.ledger
    ensures r !in sys.world.servers
  {
    hide Since;
  }

  lemma {:induction false} DeletedOk(c: Config, sys: Sys, r: Role, w: World)
    requires Ok(c, sys) && Tearing(sys.log)
    requires w == sys.world.(servers := sys.world.servers - {r}, ledger := w.ledger)
    requires w.ledger == sys.world.ledger || w.ledger == sys.world.ledger - {r}
    ensures Ok(c, sys.(world := w))
  {
    ServersListed(c, sys);
    hide Ok, Since;
    WorldOk(c, sys, w);
  }

  lemma {:induction false} StagingGone(c: Config, sys: Sys)
    requires Ok(c, sys) && Tearing(sys.log) && sys.disk.servers == map[] && StoreSettled(sys.log)
    ensures var next := Note(sys.(world := sys.world.(staging := false)), StagingRemoved);
            Ok(c, next) && Ok(c, Saved(next, sys.disk.(staging := false)))
  {
    hide Since;
    var w := sys.world.(staging := false);
    ServersListed(c, sys);
    NoServers(c, sys);
    hide Ok, Tearing, AllRoles, StoreSettled, AllConfirmed;
    WorldOk(c, sys, w);
    NoteOk(c, sys.(world := w), StagingRemoved);
    SinceNext(sys.log, StagingRemoved, StagingMade, StagingRemoved);
    NoteMode(sys.log, StagingRemoved);
    StrikeOk(c, Note(sys.(world := w), StagingRemoved), sys.disk.(staging := false));
  }

  lemma {:induction false} NoServers(c: Config, sys: Sys)
    requires Ok(c, sys) && sys.disk.servers == map[]
    ensures AllConfirmed(sys.log) && sys.world.servers == {}
  {
    hide Since;
    forall r ensures Since(sys.log, Accepted(r), Confirmed(r)) && r !in sys.world.servers {
      assert r !in sys.disk.servers;
    }
  }

  lemma {:induction false} KeysCovered(c: Config, sys: Sys)
    requires Ok(c, sys) && sys.disk.knownHosts != {}
    ensures sys.world.hostKeys - sys.disk.knownHosts == {}
  {
    hide Since;
  }

  lemma {:induction false} Settled(c: Config, log: seq<Action>, sys: Sys, keepStore: bool)
    requires Ok(c, sys) && (keepStore || !sys.disk.s3) && (keepStore ==> Keeping(log)) && SameMode(log, sys.log)
    ensures StoreSettled(sys.log)
  {
    hide Since, Tearing;
  }

  lemma {:induction false} TornDownOk(c: Config, sys: Sys)
    requires Ok(c, sys) && sys.disk.servers == map[] && !sys.disk.staging && StoreSettled(sys.log)
    ensures Ok(c, Note(sys, TornDown))
    ensures sys.world.servers == {} && !sys.world.staging
  {
    hide Since;
    NoServers(c, sys);
    assert Since(sys.log, StagingMade, StagingRemoved);
    hide AllConfirmed, StoreSettled;
    NoteOk(c, sys, TornDown);
  }

  // ---- phases ----

  /** Phase records do not matter to what a teardown finds. */
  lemma {:induction false} SameResources(f: File, g: File, keepStore: bool)
    requires g == f.(phases := g.phases)
    ensures Undrained(f) == Undrained(g) && (CanClear(f, keepStore) <==> CanClear(g, keepStore))
    ensures NoContact(f, keepStore) <==> NoContact(g, keepStore)
  {
  }

  /** Units end with their hosts. */
  lemma {:induction false} TornUnits(sys: Sys, b: Bucket)
    requires BucketOk(sys, b)
    ensures sys.world.servers == {} ==> b.jobs == {}
  {
  }

  lemma {:induction false} NoPlan(c: Config)
    ensures forall s :: s in Plan(c, Teardown) ==> false
  {
  }

  lemma {:induction false} PhasesKept(a: Sys, b: Sys, p: Phase)
    requires StepsFrame(a, b, p)
    ensures Needs(p).Some? && IsDone(a.disk, Needs(p).value) ==> IsDone(b.disk, Needs(p).value)
    ensures b.disk.phases.Keys == a.disk.phases.Keys
  {
  }

  lemma {:induction false} BeginNoted(c: Config, sys: Sys, p: Phase, keepStore: bool)
    requires Ok(c, sys) && (Needs(p).Some? ==> IsDone(sys.disk, Needs(p).value))
    ensures Ok(c, Note(sys, Began(p, keepStore)))
    ensures p == Teardown && keepStore ==> Keeping(Note(sys, Began(p, keepStore)).log)
  {
    hide Since, ServersOk, MarksOk, StepsOk, HostsOk, StorageOk, GoodLog, WorkOk;
    NoteOk(c, sys, Began(p, keepStore));
    SinceNext(sys.log, Began(p, keepStore), Began(Teardown, false), Began(Teardown, true));
  }

  // ---- runs that leave something behind ----

  /** Workers set up without benches are registered and not drained, and the converter is recorded. */
  lemma {:induction false} WorkersStay(c: Config, sys: Sys)
    requires Ok(c, sys) && !Tearing(sys.log) && IsDone(sys.disk, Workers) && c.skipBench && c.workers >= 1
    ensures Undrained(sys.disk) != {} && Converter in sys.disk.servers
  {
    hide Since, AllRoles, StepsOk, StorageOk, GoodLog, WorkOk, HostsOk;
    var r := Canary(1);
    CanaryMembers(c.workers, 1);
    assert r in WorkerRoles(c);
    WorkersReadyOrdered(c);
    SetUpDrains(c, WorkerRoles(c), r);
    assert Init(r) in Plan(c, Workers) && Drain(r) !in Plan(c, Workers);
    hide Plan;
    assert Init(r) in Steps(sys.disk, Workers);
    assert r in Undrained(sys.disk);
    AfterProvision(c, sys, Workers);
  }

  /** Every phase up to the workers, without a failure. */
  method SetUpWorkers() returns (g: Gate)
    ensures fresh(g) && g.Valid() && Undrained(g.sys.disk) != {} && Converter in g.sys.disk.servers
  {
    hide Ok, BucketOk, Plan, AllRoles, Since, Tearing;
    g := new Gate(Config(1, false, false, true), k => Success, k => Idle);
    NotTearing();
    var exit := g.RunStable(Provision, 0);
    exit := g.RunStable(Configure, 0);
    exit := g.RunStable(Convert, 0);
    exit := g.RunStable(Workers, 0);
    WorkersStay(g.c, g.sys);
  }

  /** A run in which exactly one command fails: workers are set up, the drain of one fails in the first teardown, and the
      retry succeeds. A host key stays on the gateway, and no record of it. */
  method KeysOutliveTeardown() returns (g: Gate, first: Exit, second: Exit)
    ensures first == Incomplete && second == Fine
    ensures g.sys.world.hostKeys != {} && g.sys.disk.knownHosts == {}
  {
    hide Ok, BucketOk, Since, Tearing, ObjectsAfter;
    g := SetUpWorkers();
    var drain := g.tick + 1;
    g.env := k => if k == drain then Failure(false) else Success;
    first := g.RunTeardown(false);
    g.state, g.env := g.sys.disk, k => Success;
    second := g.RunTeardown(false);
  }

  /** A run in which the driver is killed while its convert unit runs: the teardown then succeeds, and the unit, which
      nothing stops before its host is deleted, has written objects after they were deleted. */
  method ObjectsOutliveTeardown() returns (g: Gate, killed: Exit, torn: Exit)
    ensures killed == Killed && torn == Fine
    ensures Empty(g.sys, false) && g.bucket.objects
  {
    hide Ok, Since, AllRoles, Tearing, WellOrdered;
    g := new Gate(Config(1, false, false, true), k => Success, k => Idle);
    NotTearing();
    var exit := g.RunStable(Provision, 0);
    exit := g.RunStable(Configure, 0);
    exit := g.BeginPhase(Convert, false);
    killed := ConvertKilled(g);
    ConverterRecorded(g.c, g.sys, g.bucket);
    g.state, g.env, g.moves := g.sys.disk, k => Success, k => Write;
    torn := g.RunTeardown(false);
  }

  /** The convert phase up to its convert unit, in whose wait the driver is killed. */
  method ConvertKilled(g: Gate) returns (exit: Exit)
    requires g.Valid() && !Tearing(g.sys.log) && g.Calm(g.tick)
    requires Convert in g.state.phases && g.state.phases[Convert] == Record(Running, {})
    modifies g
    ensures exit == Killed && g.Left(exit) && !Tearing(g.sys.log) && g.bucket.jobs == {Converter}
  {
    hide Ok, BucketOk, Since, AllRoles, Tearing, WellOrdered, StepsFrame;
    ConvertPrepared(g);
    PlanOrdered(g.c, Convert);
    StepReady(g.c, g.sys, Convert, 2);
    ghost var before := g.sys;
    var wait := g.tick + 1;
    g.env, g.moves := k => if k == wait then Kill else Success, k => Idle;
    exit := g.RunStep(Convert, Plan(g.c, Convert)[2], 0);
    FrameFacts(before, g.sys, Convert);
  }

  /** The convert phase up to its convert unit. */
  method ConvertPrepared(g: Gate)
    requires g.Valid() && !Tearing(g.sys.log) && g.Calm(g.tick)
    requires Convert in g.state.phases && g.state.phases[Convert] == Record(Running, {})
    modifies g`tick, g`state, g`sys, g`bucket
    ensures g.Left(Fine) && g.state == g.sys.disk && !Tearing(g.sys.log)
    ensures Convert in g.state.phases && g.state.phases[Convert].status == Running
    ensures Steps(g.sys.disk, Convert) == {Plan(g.c, Convert)[0], Plan(g.c, Convert)[1]}
  {
    hide Ok, BucketOk, Since, AllRoles, Tearing, WellOrdered, StepsFrame;
    var plan := Plan(g.c, Convert);
    PlanOrdered(g.c, Convert);
    ConvertReady(g.c, g.sys);
    var exit := g.Command({Converter});
    StepReady(g.c, g.sys, Convert, 0);
    ghost var before := g.sys;
    exit := g.RunStep(Convert, plan[0], 0);
    FrameFacts(before, g.sys, Convert);
    StepReady(g.c, g.sys, Convert, 1);
    before := g.sys;
    exit := g.RunStep(Convert, plan[1], 0);
    FrameFacts(before, g.sys, Convert);
  }

  lemma {:induction false} NotTearing()
    ensures !Tearing(FRESH.log)
  {
  }

  lemma {:induction false} ConverterRecorded(c: Config, sys: Sys, b: Bucket)
    requires Ok(c, sys) && BucketOk(sys, b) && !Tearing(sys.log) && b.jobs == {Converter}
    ensures sys.disk.s3 && Converter in sys.disk.servers
  {
    hide Since;
    assert Converter in b.jobs;
  }

  // ---- what the invariant says ----

  /** At every crash point a server of the run at the provider has a record in the state file. */
  lemma {:induction false} ServersRecorded(c: Config, sys: Sys)
    requires Ok(c, sys)
    ensures sys.world.servers <= sys.disk.servers.Keys
  {
  }

  lemma {:induction false} ActionJustified(c: Config, sys: Sys, k: nat)
    requires Ok(c, sys) && k < |sys.log|
    ensures Justified(sys.log[..k], sys.log[k])
  {
    hide Justified;
  }

  /** No history creates a second server for a role. */
  lemma {:induction false} CreatedOnce(c: Config, sys: Sys, i: nat, j: nat)
    requires Ok(c, sys) && i < j < |sys.log| && sys.log[i].Accepted?
    ensures sys.log[j] != sys.log[i]
  {
    ActionJustified(c, sys, j);
    assert sys.log[..j][i] == sys.log[i];
  }

  lemma {:induction false} CureFollows(log: seq<Action>, cause: Action, cure: Action, i: nat) returns (j: nat)
    requires Since(log, cause, cure) && i < |log| && log[i] == cause && cause != cure
    ensures i < j < |log| && log[j] == cure && forall k :: j < k < |log| ==> log[k] != cause
  {
    j := |log| - 1;
    if log[j] != cure {
      var front := log[..|log| - 1];
      assert front[i] == cause;
      j := CureFollows(front, cause, cure, i);
      assert forall k :: 0 <= k < |front| ==> log[k] == front[k];
    }
  }

  /** Between any save of a worker as registered, or init of it, and a delete-server for it, a drain of it succeeded. */
  lemma {:induction false} DeletedOnlyAfterDrain(c: Config, sys: Sys, i: nat, k: nat) returns (j: nat)
    requires Ok(c, sys) && i < k < |sys.log| && (sys.log[i].Registered? || sys.log[i].InitCalled?)
    requires sys.log[k] == DeleteCalled(sys.log[i].role)
    ensures i < j < k && sys.log[j] == DrainOk(sys.log[i].role)
  {
    hide Ok;
    ActionJustified(c, sys, k);
    var prefix := sys.log[..k];
    assert prefix[i] == sys.log[i];
    j := CureFollows(prefix, sys.log[i], DrainOk(sys.log[i].role), i);
    assert sys.log[j] == prefix[j];
  }

  /** Staging is removed only after every accepted server's deletion was confirmed. */
  lemma {:induction false} StagingOutlivesServers(c: Config, sys: Sys, i: nat, k: nat) returns (j: nat)
    requires Ok(c, sys) && i < k < |sys.log| && sys.log[i].Accepted? && sys.log[k] == StagingRemoved
    ensures i < j < k && sys.log[j] == Confirmed(sys.log[i].role)
  {
    hide Ok;
    ActionJustified(c, sys, k);
    var prefix := sys.log[..k];
    assert prefix[i] == sys.log[i];
    assert Since(prefix, Accepted(sys.log[i].role), Confirmed(sys.log[i].role));
    j := CureFollows(prefix, sys.log[i], Confirmed(sys.log[i].role), i);
    assert sys.log[j] == prefix[j];
  }

  lemma {:induction false} LastBegan(log: seq<Action>) returns (j: nat)
    requires Keeping(log)
    ensures j < |log| && log[j] == Began(Teardown, true) && forall k :: j < k < |log| ==> log[k] != Began(Teardown, false)
  {
    j := |log| - 1;
    if log[j] != Began(Teardown, true) {
      var front := log[..|log| - 1];
      assert log == front + [log[j]];
      j := LastBegan(front);
      assert forall k :: 0 <= k < |front| ==> log[k] == front[k];
    }
  }

  /** Staging is removed only after S3 was cleared since a host last got the key, or in a teardown that keeps the store
      on purpose. */
  lemma {:induction false} StagingOutlivesStore(c: Config, sys: Sys, i: nat, k: nat) returns (j: nat)
    requires Ok(c, sys) && i < k < |sys.log| && sys.log[i] == Keyed && sys.log[k] == StagingRemoved
    ensures j < k
    ensures || (i < j && sys.log[j] == Cleared)
            || (sys.log[j] == Began(Teardown, true) && forall l :: j < l < k ==> sys.log[l] != Began(Teardown, false))
  {
    hide Ok;
    ActionJustified(c, sys, k);
    var prefix := sys.log[..k];
    assert forall l :: 0 <= l < k ==> prefix[l] == sys.log[l];
    if Since(prefix, Keyed, Cleared) {
      j := CureFollows(prefix, Keyed, Cleared, i);
    } else {
      j := LastBegan(prefix);
    }
  }

  /** A step's record is saved only after the step was executed to its end: each of its effects lies between. */
  lemma {:induction false} RecordedWasDone(c: Config, sys: Sys, k: nat) returns (i: nat)
    requires Ok(c, sys) && k < |sys.log| && sys.log[k].Recorded?
    ensures var s := sys.log[k].step;
            && i < k && sys.log[i] == Executed(sys.log[k].phase, s)
            && (forall e :: e in Effects(c, s) ==> exists j :: i < j < k && sys.log[j] == e)
            && (s.Create? ==> exists j :: 0 <= j < k && sys.log[j] == Accepted(s.role))
  {
    hide ServersOk, MarksOk, StepsOk, PhasesOk, HostsOk, StorageOk, GoodLog, RanStep, Effects;
    var prefix, s := sys.log[..k], sys.log[k].step;
    assert Performed(c, prefix, sys.log[k].phase, s);
    i :| 0 <= i < |prefix| && prefix[i] == Executed(sys.log[k].phase, s) && RanStep(c, prefix[..i + 1], prefix, s);
    EffectsBetween(c, prefix, i, s);
    assert forall j :: 0 <= j < k ==> prefix[j] == sys.log[j];
  }

  lemma {:induction false} EffectsBetween(c: Config, log: seq<Action>, i: nat, s: Step)
    requires i < |log| && RanStep(c, log[..i + 1], log, s)
    ensures forall e :: e in Effects(c, s) ==> exists j :: i < j < |log| && log[j] == e
    ensures s.Create? ==> exists j :: 0 <= j < |log| && log[j] == Accepted(s.role)
  {
    hide Effects;
    forall e | e in Effects(c, s) ensures exists j :: i < j < |log| && log[j] == e {
      assert Added(log[..i + 1], log, e);
      var j :| 0 <= j < |log[i + 1..]| && log[i + 1..][j] == e;
      assert log[i + 1 + j] == e;
    }
  }

  /** A worker's drain step is recorded only after the worker was drained. */
  lemma {:induction false} DrainStepDrained(c: Config, sys: Sys, k: nat, r: Role) returns (j: nat)
    requires Ok(c, sys) && k < |sys.log| && sys.log[k] == Recorded(Workers, Drain(r))
    ensures j < k && sys.log[j] == DrainOk(r)
  {
    hide Ok;
    var i := RecordedWasDone(c, sys, k);
    assert DrainOk(r) in Effects(c, Drain(r));
    j :| i < j < k && sys.log[j] == DrainOk(r);
  }

  /** Until a teardown, what recorded steps have done is on file and in place. */
  lemma {:induction false} StepsLeaveMarks(c: Config, sys: Sys, p: Phase, s: Step)
    requires Ok(c, sys) && c.workers >= 1 && !Tearing(sys.log) && s in Steps(sys.disk, p)
    ensures s.Create? ==> s.role in sys.world.servers && s.role in sys.disk.servers && sys.disk.servers[s.role].created
    ensures s.Init? ==> s.role in sys.disk.servers && sys.disk.servers[s.role].registered
    ensures s.Drain? ==> s.role in sys.disk.servers && sys.disk.servers[s.role].drained
    ensures s.Runtime? ==> sys.disk.s3
    ensures s == KnownHosts ==> sys.disk.knownHosts == AllRoles(c)
    ensures s == MakeStaging ==> sys.disk.staging && sys.world.staging
  {
    hide Since, AllRoles, Plan, PhasesOk, StorageOk, GoodLog, WorkOk, Steps;
    StepPhase(c, p, s);
  }

  /** Once the workers phase is done every worker is registered, and with benches every worker was drained. */
  lemma {:induction false} WorkersEndDrained(c: Config, sys: Sys, r: Role)
    requires Ok(c, sys) && c.workers >= 1 && !Tearing(sys.log) && IsDone(sys.disk, Workers) && r in WorkerRoles(c)
    ensures r in sys.disk.servers && sys.disk.servers[r].registered && r in sys.world.servers
    ensures sys.disk.servers[r].drained <==> !c.skipBench
  {
    WorkersCovered(c, r);
    hide Since, AllRoles, StepsOk, HostsOk, StorageOk, GoodLog, WorkOk, Steps, WorkersPlan, WorkerRoles;
    assert Stable(Workers) && Plan(c, Workers) == WorkersPlan(c);
    hide Plan;
    assert Create(r) in Steps(sys.disk, Workers) && Init(r) in Steps(sys.disk, Workers);
    StepsLeaveMarks(c, sys, Workers, Create(r));
    if !c.skipBench { assert Drain(r) in Steps(sys.disk, Workers); }
  }

  /** Steps that leave a mark belong to one phase, but for creates. */
  lemma {:induction false} StepPhase(c: Config, p: Phase, s: Step)
    requires s in Plan(c, p) && c.workers >= 1
    ensures s.Init? || s.Drain? ==> p == Workers
    ensures s.Runtime? ==> p == Configure
    ensures s == KnownHosts || s == MakeStaging ==> p == Provision
  {
    PlanOrdered(c, p);
    hide Plan, AllRoles;
    var i :| 0 <= i < |Plan(c, p)| && Plan(c, p)[i] == s;
    assert Ordered(c, p, [] + Plan(c, p)[..i], s);
  }

  /** A step whose record was saved never executes again. */
  lemma {:induction false} RecordedNeverReruns(c: Config, sys: Sys, i: nat, j: nat)
    requires Ok(c, sys) && i < j < |sys.log| && sys.log[i].Recorded?
    ensures sys.log[j] != Executed(sys.log[i].phase, sys.log[i].step)
  {
    ActionJustified(c, sys, j);
    assert sys.log[..j][i] == sys.log[i];
  }

  /** A phase's body starts only after its prerequisite was saved as done. */
  lemma {:induction false} StartsAfterPrerequisite(c: Config, sys: Sys, k: nat) returns (j: nat)
    requires Ok(c, sys) && k < |sys.log| && sys.log[k].Began? && Needs(sys.log[k].phase).Some?
    ensures j < k && sys.log[j] == Finished(Needs(sys.log[k].phase).value)
  {
    ActionJustified(c, sys, k);
    var prefix := sys.log[..k];
    j :| 0 <= j < |prefix| && prefix[j] == Finished(Needs(sys.log[k].phase).value);
  }

  /** Once saved as done a phase stays done, and whatever crashes it took, it has recorded exactly its plan. */
  lemma {:induction false} DoneIsStable(c: Config, sys: Sys, p: Phase)
    requires Ok(c, sys) && Stable(p) && Finished(p) in sys.log
    ensures IsDone(sys.disk, p) && Steps(sys.disk, p) == set s | s in Plan(c, p)
  {
    hide Since, Plan, AllRoles, GoodLog;
  }
}
