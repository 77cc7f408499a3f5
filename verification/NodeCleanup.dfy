/** cleanup_owned_sandboxes of scripts/benchmark_sandbox_density.py against a node that
    may still be creating the benchmark's sandboxes. Every API call may be preceded by
    any number of node steps, so the method covers every interleaving. */
module NodeCleanup {
  import opened Wrappers

  /** `creating` holds the creates counted by active_sandbox_creates, and whether each has been listed yet; `sent` the
      creates the benchmark sent, and may have given up waiting for, that the node does not count yet. */
  datatype Node = Node(listed: set<string>, creating: map<string, bool>, sent: set<string>)

  datatype Step =
    | Start(id: string)    // a create arrives and is counted
    | Refuse(id: string)   // a create the benchmark sent never starts
    | Show(id: string)     // a counted create appears in the inventory
    | Finish(id: string)   // a create that was listed stops being counted
    | Abort(id: string)    // a create fails: neither listed nor counted
    | Vanish(id: string)   // a sandbox ends on its own

  /** One node step. The benchmark sends nothing while it cleans up, so an owned create starts only if it was sent. */
  function Stepped(node: Node, step: Step, owned: set<string>): Node
  {
    match step
    case Start(id) =>
      if id in node.creating || (id in owned && id !in node.sent) then node
      else node.(creating := node.creating[id := false], sent := node.sent - {id})
    case Refuse(id) => node.(sent := node.sent - {id})
    case Show(id) =>
      if id in node.creating then node.(listed := node.listed + {id}, creating := node.creating[id := true]) else node
    case Finish(id) => if id in node.creating && node.creating[id] then node.(creating := node.creating - {id}) else node
    case Abort(id) =>
      if id in node.creating then node.(listed := node.listed - {id}, creating := node.creating - {id}) else node
    case Vanish(id) => node.(listed := node.listed - {id})
  }

  function After(node: Node, steps: seq<Step>, owned: set<string>): Node
    decreases |steps|
  {
    if steps == [] then node else After(Stepped(node, steps[0], owned), steps[1..], owned)
  }

  /** The owned creates that may still produce a sandbox. */
  ghost function Pending(node: Node, owned: set<string>): set<string>
  {
    (node.creating.Keys + node.sent) * owned
  }

  /** No owned sandbox exists and none is on its way. */
  ghost predicate Settled(node: Node, owned: set<string>)
  {
    node.listed !! owned && Pending(node, owned) == {}
  }

  lemma {:induction false} PendingStep(node: Node, step: Step, owned: set<string>)
    ensures Pending(Stepped(node, step, owned), owned) <= Pending(node, owned)
    ensures Settled(node, owned) ==> Settled(Stepped(node, step, owned), owned)
  {
    var next := Stepped(node, step, owned);
    forall id | id in owned
      ensures id in Pending(next, owned) ==> id in Pending(node, owned)
      ensures id in next.listed && id !in node.listed ==> id in Pending(node, owned)
    {
    }
  }

  /** Owned creates on their way only become fewer. */
  lemma {:induction false} PendingShrinks(node: Node, steps: seq<Step>, owned: set<string>)
    ensures Pending(After(node, steps, owned), owned) <= Pending(node, owned)
    decreases |steps|
  {
    if steps != [] {
      PendingStep(node, steps[0], owned);
      PendingShrinks(Stepped(node, steps[0], owned), steps[1..], owned);
    }
  }

  lemma {:induction false} SentShrinks(node: Node, steps: seq<Step>, owned: set<string>)
    ensures After(node, steps, owned).sent <= node.sent
    decreases |steps|
  {
    if steps != [] { SentShrinks(Stepped(node, steps[0], owned), steps[1..], owned); }
  }

  /** Settled is for ever. */
  lemma {:induction false} SettledForever(node: Node, steps: seq<Step>, owned: set<string>)
    requires Settled(node, owned)
    ensures Settled(After(node, steps, owned), owned)
    decreases |steps|
  {
    if steps != [] {
      PendingStep(node, steps[0], owned);
      SettledForever(Stepped(node, steps[0], owned), steps[1..], owned);
    }
  }

  /** A pending create can still show. */
  lemma {:induction false} PendingShows(node: Node, owned: set<string>, id: string) returns (later: seq<Step>)
    requires id in Pending(node, owned)
    ensures id in After(node, later, owned).listed
  {
    if id in node.creating {
      later := [Show(id)];
      assert later[1..] == [];
    } else {
      later := [Start(id), Show(id)];
      assert later[1..] == [Show(id)] && later[1..][1..] == [];
      var started := Stepped(node, Start(id), owned);
      assert id in started.creating;
      assert After(node, later, owned) == After(started, [Show(id)], owned);
      assert After(started, [Show(id)], owned) == After(Stepped(started, Show(id), owned), [], owned);
    }
  }

  /** No owned sandbox can appear, whatever the node does, exactly when none is on its way. */
  lemma {:induction false} NoneLaterIff(node: Node, owned: set<string>)
    requires node.listed !! owned
    ensures (forall later: seq<Step> :: After(node, later, owned).listed !! owned) <==> Pending(node, owned) == {}
  {
    if Pending(node, owned) == {} {
      forall later: seq<Step> ensures After(node, later, owned).listed !! owned {
        SettledForever(node, later, owned);
      }
    } else {
      var id :| id in Pending(node, owned);
      var later := PendingShows(node, owned, id);
      assert id in owned && id in After(node, later, owned).listed;
    }
  }

  /** Counter first, inventory second: after reading 0 and then no owned id, only a create the node had not counted at
      the first read can be on its way. */
  lemma {:induction false} CounterThenInventory(node: Node, steps: seq<Step>, owned: set<string>)
    requires |node.creating| == 0 && After(node, steps, owned).listed !! owned
    ensures Pending(After(node, steps, owned), owned) <= node.sent
    ensures node.sent !! owned ==> Settled(After(node, steps, owned), owned)
  {
    assert node.creating == map[];
    PendingShrinks(node, steps, owned);
  }

  /** With the two reads swapped there is a run that reads "none listed" and then 0, and leaks, although the node had
      counted every create. */
  lemma {:induction false} SwappedReadsLeak() returns (node: Node, steps: seq<Step>, owned: set<string>)
    ensures node.listed !! owned && node.sent == {}
    ensures |After(node, steps, owned).creating| == 0
    ensures exists id :: id in owned && id in After(node, steps, owned).listed
  {
    var id := "sandbox-0";
    node, steps, owned := Node({}, map[id := false], {}), [Show(id), Finish(id)], {id};
    var shown := Stepped(node, steps[0], owned);
    assert shown == Node({id}, map[id := true], {});
    assert steps[1..] == [Finish(id)] && steps[1..][1..] == [];
    var done := Stepped(shown, Finish(id), owned);
    assert done.creating == map[];
    assert After(node, steps, owned) == After(shown, [Finish(id)], owned) == After(done, [], owned) == done;
    assert id in done.listed;
  }

  // ---- storage ----

  datatype Metric = Number(value: real) | NotANumber

  datatype Heartbeat = Heartbeat(creates: Option<int>, native: bool, metrics: map<string, Metric>)

  const REQUIRED: seq<string> := ["storage_ublk_active_devices", "storage_error_volumes"]
  const OPTIONAL: seq<string> := ["storage_hard_reserved_mb"]

  function Unconfirmed(h: Heartbeat, key: string): bool
  {
    if key !in h.metrics then h.native && key in REQUIRED else h.metrics[key] != Number(0.0)
  }

  function Selected(h: Heartbeat, keys: seq<string>): (r: seq<string>)
    ensures forall k :: k in r <==> k in keys && Unconfirmed(h, k)
  {
    if keys == [] then []
    else (if Unconfirmed(h, keys[0]) then [keys[0]] else []) + Selected(h, keys[1..])
  }

  /** storage_quiescence_errors. */
  function StorageErrors(h: Heartbeat): seq<string> { Selected(h, REQUIRED + OPTIONAL) }

  /** Storage is idle: no counter is non-zero, and a native node reports both device counters. */
  ghost predicate StorageIdle(h: Heartbeat)
  {
    && (forall k :: k in REQUIRED + OPTIONAL && k in h.metrics ==> h.metrics[k] == Number(0.0))
    && (h.native ==> forall k :: k in REQUIRED ==> k in h.metrics)
  }

  lemma {:induction false} NoStorageErrorsIffIdle(h: Heartbeat)
    ensures StorageErrors(h) == [] <==> StorageIdle(h)
  {
    var keys := REQUIRED + OPTIONAL;
    var errors := StorageErrors(h);
    if errors != [] {
      assert errors[0] in keys && Unconfirmed(h, errors[0]);
    } else {
      forall k | k in keys ensures !Unconfirmed(h, k) && (k in REQUIRED || k in OPTIONAL) {
        assert k in errors <==> Unconfirmed(h, k);
      }
      assert forall k :: k in REQUIRED ==> k in keys;
    }
  }

  // ---- the cleanup loop ----

  /** What happens at one API call: node steps first, then the call fails or goes through,
      and a heartbeat reports the node's counter (or nothing) and its storage metrics. */
  datatype Turn = Turn(steps: seq<Step>, fails: bool, reports: bool, native: bool, metrics: map<string, Metric>)

  datatype Outcome = Clean(final: Heartbeat) | Errors(final: Heartbeat, list: seq<string>) | RaisedError

  function Beat(node: Node, turn: Turn): Heartbeat
  {
    Heartbeat(if turn.reports then Some(|node.creating|) else None, turn.native, turn.metrics)
  }

  /** A turn in which the node does nothing and answers, with idle storage. */
  predicate Quiet(turn: Turn)
  {
    && turn.steps == [] && !turn.fails && turn.reports
    && StorageErrors(Heartbeat(Some(0), turn.native, turn.metrics)) == []
  }

  ghost predicate QuietFrom(env: nat -> Turn, k: nat)
  {
    forall j: nat :: j >= k ==> Quiet(env(j))
  }

  /** The node after the steps of the first `k` turns, had nothing been deleted. Deletes do not touch what is being
      created. */
  ghost function Undisturbed(node: Node, env: nat -> Turn, owned: set<string>, k: nat): Node
  {
    if k == 0 then node else After(Undisturbed(node, env, owned, k - 1), env(k - 1).steps, owned)
  }

  ghost predicate SameCreates(a: Node, b: Node) { a.creating == b.creating && a.sent == b.sent }

  lemma {:induction false} CreatesAfter(a: Node, b: Node, steps: seq<Step>, owned: set<string>)
    requires SameCreates(a, b)
    ensures SameCreates(After(a, steps, owned), After(b, steps, owned))
    decreases |steps|
  {
    if steps != [] { CreatesAfter(Stepped(a, steps[0], owned), Stepped(b, steps[0], owned), steps[1..], owned); }
  }

  lemma {:induction false} TurnTaken(start: Node, node: Node, env: nat -> Turn, owned: set<string>, at: nat)
    requires SameCreates(node, Undisturbed(start, env, owned, at))
    ensures SameCreates(After(node, env(at).steps, owned), Undisturbed(start, env, owned, at + 1))
    ensures After(node, env(at).steps, owned).sent <= node.sent
    ensures Quiet(env(at)) ==> After(node, env(at).steps, owned) == node
  {
    CreatesAfter(node, Undisturbed(start, env, owned, at), env(at).steps, owned);
    SentShrinks(node, env(at).steps, owned);
  }

  lemma {:induction false} QuietLater(node: Node, env: nat -> Turn, owned: set<string>, k: nat, l: nat)
    requires QuietFrom(env, k) && k <= l
    ensures Undisturbed(node, env, owned, l) == Undisturbed(node, env, owned, k)
    decreases l
  {
    if k < l {
      QuietLater(node, env, owned, k, l - 1);
      assert Quiet(env(l - 1));
    }
  }

  /** The calls from `a` to `b` all fail, or all go through. */
  ghost predicate AllFail(env: nat -> Turn, a: nat, b: nat, fails: bool)
  {
    forall k :: a <= k < b ==> env(k).fails == fails
  }

  /** Deletes the listed owned sandboxes, in any order; a failed delete is remembered, and forgotten once one succeeds. */
  method DeleteOwned(node0: Node, found: set<string>, owned: set<string>, env: nat -> Turn, at0: nat,
                     errors0: map<string, string>, ghost start: Node)
    returns (node: Node, at: nat, errors: map<string, string>)
    requires SameCreates(node0, Undisturbed(start, env, owned, at0))
    ensures at == at0 + |found| && SameCreates(node, Undisturbed(start, env, owned, at))
    ensures forall id :: id !in found ==> (id in errors <==> id in errors0)
    ensures AllFail(env, at0, at, true) ==> found <= errors.Keys
    ensures AllFail(env, at0, at, false) ==> found !! errors.Keys
    ensures node.sent <= node0.sent
    ensures QuietFrom(env, at0) ==> node == node0.(listed := node0.listed - found)
  {
    hide After, Undisturbed, Quiet;
    node, at, errors := node0, at0, errors0;
    var todo := found;
    while todo != {}
      invariant todo <= found && at + |todo| == at0 + |found|
      invariant SameCreates(node, Undisturbed(start, env, owned, at))
      invariant forall id :: id !in found ==> (id in errors <==> id in errors0)
      invariant AllFail(env, at0, at, true) ==> found - todo <= errors.Keys
      invariant AllFail(env, at0, at, false) ==> found - todo !! errors.Keys
      invariant node.sent <= node0.sent
      invariant QuietFrom(env, at0) ==> node == node0.(listed := node0.listed - (found - todo))
      decreases |todo|
    {
      var id :| id in todo;
      todo := todo - {id};
      TurnTaken(start, node, env, owned, at);
      node := After(node, env(at).steps, owned);
      if QuietFrom(env, at0) { Answered(env, at0, at); }
      if env(at).fails {
        errors := errors[id := "delete " + id];
      } else {
        node := node.(listed := node.listed - {id});
        errors := errors - {id};
      }
      at := at + 1;
    }
  }

  /** The owned sandboxes an inventory read finds. */
  function Found(node: Node, turn: Turn, owned: set<string>): set<string>
  {
    After(node, turn.steps, owned).listed * owned
  }

  /** Of a round's calls, one that is not a delete fails. */
  predicate ReadFails(env: nat -> Turn, at: nat, deletes: nat)
  {
    env(at).fails || env(at + 1 + deletes).fails || env(at + 2 + deletes).fails
  }

  lemma {:induction false} ReadFailure(env: nat -> Turn, at: nat, n: nat)
    ensures ReadFails(env, at, n) <==> env(at).fails || env(at + 1 + n).fails || env(at + 1 + n + 1).fails
  {
  }

  lemma {:induction false} FoundListed(node: Node, turn: Turn, owned: set<string>)
    ensures After(node, turn.steps, owned).listed * owned == Found(node, turn, owned)
  {
  }

  lemma {:induction false} Answered(env: nat -> Turn, k: nat, at: nat)
    requires QuietFrom(env, k) && k <= at
    ensures Quiet(env(at)) && !env(at).fails && QuietFrom(env, at)
  {
  }

  /** One round: delete what is listed, read the counter, then the inventory. It takes three calls at least. */
  method Round(node0: Node, owned: set<string>, env: nat -> Turn, at0: nat, errors0: map<string, string>,
               ghost start: Node)
    returns (node: Node, at: nat, errors: map<string, string>, final: Heartbeat, remaining: set<string>, raised: bool)
    requires SameCreates(node0, Undisturbed(start, env, owned, at0))
    ensures raised <==> ReadFails(env, at0, |Found(node0, env(at0), owned)|)
    ensures !raised ==> forall id :: id !in Found(node0, env(at0), owned) ==> (id in errors <==> id in errors0)
    ensures node.sent <= node0.sent
    ensures !raised ==> at >= at0 + 3 && SameCreates(node, Undisturbed(start, env, owned, at))
    ensures !raised ==> remaining == node.listed * owned
    ensures !raised && final.creates == Some(0) && remaining == {} ==> Pending(node, owned) <= node0.sent
    ensures QuietFrom(env, at0) && node0.creating == map[] ==>
              && !raised && node == node0.(listed := node0.listed - owned)
              && final.creates == Some(0) && StorageIdle(final)
  {
    hide Pending, Stepped, Undisturbed, After, Quiet, QuietFrom, StorageIdle, StorageErrors, ReadFails, Found, AllFail;
    at, errors, final, remaining, raised := at0, errors0, Heartbeat(None, false, map[]), {}, true;
    TurnTaken(start, node0, env, owned, at);
    node := After(node0, env(at).steps, owned);
    ghost var n := |Found(node0, env(at0), owned)|;
    ReadFailure(env, at0, n);
    if QuietFrom(env, at0) { Answered(env, at0, at); }
    if env(at).fails { return; }
    at := at + 1;
    if QuietFrom(env, at0) { Answered(env, at0, at); }
    var found := node.listed * owned;
    FoundListed(node0, env(at0), owned);
    node, at, errors := DeleteOwned(node, found, owned, env, at, errors, start);
    if QuietFrom(env, at0) { Answered(env, at0, at); }
    node, at, final, remaining, raised := Sample(node, owned, env, at, start);
  }

  /** The counter is read before the inventory. */
  method Sample(node0: Node, owned: set<string>, env: nat -> Turn, at0: nat, ghost start: Node)
    returns (node: Node, at: nat, final: Heartbeat, remaining: set<string>, raised: bool)
    requires SameCreates(node0, Undisturbed(start, env, owned, at0))
    ensures raised <==> env(at0).fails || env(at0 + 1).fails
    ensures node.sent <= node0.sent
    ensures !raised ==> at == at0 + 2 && SameCreates(node, Undisturbed(start, env, owned, at))
    ensures !raised ==> remaining == node.listed * owned
    ensures !raised && final.creates == Some(0) && remaining == {} ==> Pending(node, owned) <= node0.sent
    ensures QuietFrom(env, at0) && node0.creating == map[] ==>
              !raised && node == node0 && final.creates == Some(0) && StorageIdle(final)
  {
    hide Pending, Stepped, Undisturbed, After, Quiet, QuietFrom, StorageIdle, StorageErrors, Settled;
    at, final, remaining, raised := at0, Heartbeat(None, false, map[]), {}, true;
    TurnTaken(start, node0, env, owned, at);
    node := After(node0, env(at).steps, owned);
    if QuietFrom(env, at0) { Answered(env, at0, at); }
    if env(at).fails { return; }
    final := Beat(node, env(at));
    if QuietFrom(env, at0) && node0.creating == map[] { IdleBeat(node, env(at)); }
    ghost var counted := node;
    at := at + 1;
    TurnTaken(start, node, env, owned, at);
    node := After(node, env(at).steps, owned);
    if QuietFrom(env, at0) { Answered(env, at0, at); }
    if env(at).fails { return; }
    remaining, raised := node.listed * owned, false;
    if final.creates == Some(0) && remaining == {} {
      Disjoint(node.listed, owned);
      CounterThenInventory(counted, env(at).steps, owned);
    }
    at := at + 1;
  }

  lemma {:induction false} IdleBeat(node: Node, turn: Turn)
    requires Quiet(turn) && node.creating == map[]
    ensures Beat(node, turn).creates == Some(0) && StorageIdle(Beat(node, turn))
  {
    NoStorageErrorsIffIdle(Beat(node, turn));
  }

  /** The loop, with `rounds` rounds before the last, after which the deadline has passed. After a clean return only a
      create that was never counted can still be on its way; if all were counted when it started, no owned sandbox
      exists or can appear. Errors are reported only after the last round. If the node comes to rest, with no counted
      create, before the last round, the return is clean. */
  method Cleanup(node0: Node, owned: set<string>, env: nat -> Turn, rounds: nat)
    returns (r: Outcome, node: Node, remaining: set<string>, calls: nat)
    ensures r.Clean? ==> node.listed !! owned && StorageIdle(r.final) && r.final.creates == Some(0)
    ensures r.Clean? ==> Pending(node, owned) <= node0.sent
    ensures r.Clean? && node0.sent !! owned ==> Settled(node, owned)
    ensures r.Clean? ==>
              ((forall later: seq<Step> :: After(node, later, owned).listed !! owned) <==> Pending(node, owned) == {})
    ensures r.Errors? ==> r.list != [] && ("owned sandboxes remain" in r.list <== remaining != {})
    ensures r.Errors? && r.final.creates != Some(0) ==> "create quiescence is unconfirmed" in r.list
    ensures r.Errors? ==> forall e :: e in StorageErrors(r.final) ==> e in r.list
    ensures r.Errors? ==> !(r.final.creates == Some(0) && remaining == {} && StorageIdle(r.final))
    ensures r.Errors? ==> calls >= 3 * (rounds + 1)
    ensures r.RaisedError? ==> exists k :: env(k).fails
    ensures forall k: nat :: QuietFrom(env, k) && k <= 3 * rounds && Undisturbed(node0, env, owned, k).creating == map[] ==>
              r.Clean? || r.RaisedError?
    ensures QuietFrom(env, 0) && node0.creating == map[] ==> r.Clean? && node == node0.(listed := node0.listed - owned)
  {
    hide Stepped, Unconfirmed, Selected, After, Undisturbed, Quiet, StorageIdle, StorageErrors;
    node, remaining, calls := node0, {}, 0;
    StartsSame(node0, env, owned);
    var round, lastErrors := 0, map[];
    while true
      invariant round <= rounds && node.sent <= node0.sent
      invariant calls >= 3 * round && SameCreates(node, Undisturbed(node0, env, owned, calls))
      invariant QuietFrom(env, 0) && node0.creating == map[] ==> round == 0 && node == node0 && calls == 0
      decreases rounds - round
    {
      ghost var before := calls;
      forall k: nat | QuietFrom(env, k) && k <= calls && Undisturbed(node0, env, owned, k).creating == map[]
        ensures QuietFrom(env, calls) && node.creating == map[]
      {
        QuietLater(node0, env, owned, k, calls);
        Answered(env, k, calls);
      }
      var final, raised;
      node, calls, lastErrors, final, remaining, raised := Round(node, owned, env, calls, lastErrors, node0);
      if raised { return RaisedError, node, remaining, calls; }
      var storage := StorageErrors(final);
      NoStorageErrorsIffIdle(final);
      if final.creates == Some(0) && remaining == {} && storage == [] {
        Disjoint(node.listed, owned);
        NoneLaterIff(node, owned);
        return Clean(final), node, remaining, calls;
      }
      if round == rounds {
        var list := Values(lastErrors);
        list := list + storage;
        if remaining != {} { list := list + ["owned sandboxes remain"]; }
        if final.creates != Some(0) { list := list + ["create quiescence is unconfirmed"]; }
        return Errors(final, list), node, remaining, calls;
      }
      round := round + 1;
    }
  }

  lemma {:induction false} StartsSame(node: Node, env: nat -> Turn, owned: set<string>)
    ensures Undisturbed(node, env, owned, 0) == node
  {
  }

  lemma {:induction false} Disjoint(a: set<string>, b: set<string>)
    requires a * b == {}
    ensures a !! b
  {
    forall x | x in a ensures x !in b { assert x in a * b <==> x in b; }
  }

  /** A turn in which the node does nothing and answers. */
  const STILL: Turn := Turn([], false, true, false, map[])

  lemma {:induction false} StillQuiet()
    ensures Quiet(STILL)
  {
    NoStorageErrorsIffIdle(Heartbeat(Some(0), false, map[]));
  }

  /** The condition is exact: with an owned create the node has not counted yet, a node that then stays still lets the
      cleanup return clean, and the sandbox can appear afterwards. */
  method UncountedCreateLeaks(node0: Node, owned: set<string>, rounds: nat)
    returns (r: Outcome, node: Node, ghost later: seq<Step>)
    requires node0.creating == map[] && !(node0.sent !! owned)
    ensures r.Clean? && !(After(node, later, owned).listed !! owned)
  {
    var remaining, calls;
    StillQuiet();
    r, node, remaining, calls := Cleanup(node0, owned, k => STILL, rounds);
    ghost var id :| id in node0.sent && id in owned;
    later := PendingShows(node, owned, id);
  }

  method Values(m: map<string, string>) returns (r: seq<string>)
    ensures |r| == |m|
    ensures (forall k :: k in m ==> m[k] in r) && forall e :: e in r ==> exists k :: k in m && m[k] == e
  {
    r := [];
    var keys := m.Keys;
    while keys != {}
      invariant keys <= m.Keys && |r| + |keys| == |m|
      invariant (forall k :: k in m && k !in keys ==> m[k] in r) && forall e :: e in r ==> exists k :: k in m && m[k] == e
      decreases |keys|
    {
      var k :| k in keys;
      r := r + [m[k]];
      keys := keys - {k};
    }
  }
}
