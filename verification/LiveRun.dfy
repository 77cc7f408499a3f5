/** Sandbox ownership in scripts/bench_rl_scale.py: worker threads creating and deleting sandboxes, as a machine
    whose steps are the lock's critical sections and the calls between them. */
module LiveRun {
  import opened Wrappers
  import opened Decimals
  import Reports

  // ---- ids ----

  /** The id `new_id` formats. */
  function Id(run: string, scenario: string, index: nat): string
  {
    run + "-" + scenario + "-" + Padded(index)
  }

  /** Whatever the run and scenario names are, different indexes give different ids. */
  lemma {:induction false} IdInjective(run: string, s: string, i: nat, t: string, j: nat)
    requires Id(run, s, i) == Id(run, t, j)
    ensures i == j
  {
    hide Padded;
    SameTail(run + "-" + s, Padded(i), run + "-" + t, Padded(j));
    PaddedRoundTrip(i);
    PaddedRoundTrip(j);
  }

  /** Text after the last dash is determined. */
  lemma {:induction false} SameTail(a: string, x: string, b: string, y: string)
    requires a + "-" + x == b + "-" + y
    requires (forall i :: 0 <= i < |x| ==> x[i] in DIGITS) && forall i :: 0 <= i < |y| ==> y[i] in DIGITS
    ensures x == y
  {
    var whole := a + "-" + x;
    assert whole == b + "-" + y;
    assert whole[|a|] == '-' && whole[|b|] == '-';
    assert '-' !in DIGITS;
    if |a| < |b| {
      assert false;
    } else if |b| < |a| {
      assert false;
    } else {
      assert x == whole[|a| + 1..] && y == (b + "-" + y)[|b| + 1..];
    }
  }

  // ---- threads ----

  datatype Ownership = Requested | Created | Deleted

  /** Where a call of `rollout_sandbox` or `create_ready` stands, named by what it does next. */
  datatype Pc = TakingId | Owning | Entering | Sending | Waiting | Marking | Working | Deleting | Removing | Leaving
              | Finished

  /** `rollout` calls keep the in-flight counters; `deletes` is `delete_after`; `inline` calls run on the main
      thread, where the interrupt can hit them; `priming` is the create of the warm scenario whose row is not counted.
      `replied` says that the create returned, `ok` is the row's. */
  datatype Call = Call(rollout: bool, deletes: bool, inline: bool, priming: bool, scenario: string, pc: Pc,
                       index: Option<nat>, live: bool, replied: bool, ok: bool)

  /** `sent` holds the ids of create requests in order; `requests` the ones the service has not decided on;
      `existing` the sandboxes the service has. */
  datatype State = State(run: string, calls: seq<Call>, counter: nat, owned: map<string, Ownership>, sent: seq<string>,
                         requests: set<string>, existing: set<string>, now: int, max: int, live: int, liveMax: int,
                         inlineErrors: nat, interrupted: bool)

  datatype Event =
    | Start(rollout: bool, deletes: bool, inline: bool, priming: bool, scenario: string)
    | Advance(call: nat)
    | Raise(call: nat)
    | Accept(id: string)
    | Refuse(id: string)
    | Interrupt(victim: Option<nat>, inTry: bool)

  /** The call's sandbox id, once it has one. */
  function CallId(s: State, c: Call): string
  {
    if c.index.None? then "" else Id(s.run, c.scenario, c.index.value)
  }

  function Max(a: int, b: int): int { if a >= b then a else b }

  function Initial(run: string): State
  {
    State(run, [], 0, map[], [], {}, {}, 0, 0, 0, 0, 0, false)
  }

  function At(s: State, a: nat, pc: Pc): State
    requires a < |s.calls|
  {
    s.(calls := s.calls[a := s.calls[a].(pc := pc)])
  }

  /** The next step of a call when nothing fails. Deleting answered "gone" or 404; a refused delete is a Raise, and a
      transient answer retries and changes nothing. */
  function Advanced(s: State, a: nat): State
    requires a < |s.calls|
  {
    var c := s.calls[a];
    var id := CallId(s, c);
    match c.pc
    case TakingId => s.(counter := s.counter + 1, calls := s.calls[a := c.(pc := Owning, index := Some(s.counter))])
    case Owning => At(s, a, if c.rollout then Entering else Sending).(owned := s.owned[id := Requested])
    case Entering => At(s, a, Sending).(now := s.now + 1, max := Max(s.max, s.now + 1))
    case Sending => At(s, a, Waiting).(sent := s.sent + [id], requests := s.requests + {id})
    case Waiting =>
      if id in s.requests then s
      else s.(calls := s.calls[a := c.(pc := Marking, replied := true)], now := if c.rollout then s.now - 1 else s.now)
    case Marking =>
      if c.rollout then
        s.(calls := s.calls[a := c.(pc := Working, live := true)], owned := s.owned[id := Created],
           live := s.live + 1, liveMax := Max(s.liveMax, s.live + 1))
      else At(s, a, Working).(owned := s.owned[id := Created])
    case Working => s.(calls := s.calls[a := c.(pc := AfterTry(c), ok := true)])
    case Deleting => At(s, a, Removing).(existing := s.existing - {id})
    case Removing => At(s, a, Leaving).(owned := s.owned[id := Deleted])
    case Leaving =>
      s.(calls := s.calls[a := c.(pc := Finished, live := false)], live := s.live - if c.live then 1 else 0)
    case Finished => s
  }

  function AfterTry(c: Call): Pc
  {
    if c.rollout || c.deletes then Deleting else Finished
  }

  /** An exception inside a call, or a delete that gives up. */
  function Raised(s: State, a: nat): State
    requires a < |s.calls|
  {
    var c := s.calls[a];
    At(s, a, RaisedTo(c)).(
      now := if c.pc in {Sending, Waiting} && c.rollout then s.now - 1 else s.now,
      inlineErrors := if c.pc == Deleting then s.inlineErrors + 1 else s.inlineErrors)
  }

  function RaisedTo(c: Call): Pc {
    match c.pc
    case Entering | Marking | Working => AfterTry(c)
    case Sending | Waiting => if c.rollout then Deleting else AfterTry(c)
    case Deleting => Leaving
    case _ => c.pc
  }

  function Fresh(rollout: bool, deletes: bool, inline: bool, priming: bool, scenario: string): Call
  {
    Call(rollout, deletes, inline && !rollout, priming, scenario, TakingId, None, false, false, false)
  }

  /** One atomic step; an event that is not enabled changes nothing. */
  function Next(s: State, e: Event): State
  {
    match e
    case Start(rollout, deletes, inline, priming, scenario) =>
      s.(calls := s.calls + [Fresh(rollout, deletes, inline, priming, scenario)])
    case Advance(a) => if a < |s.calls| then Advanced(s, a) else s
    case Raise(a) => if a < |s.calls| then Raised(s, a) else s
    case Accept(id) =>
      if id in s.requests then s.(requests := s.requests - {id}, existing := s.existing + {id}) else s
    case Refuse(id) => s.(requests := s.requests - {id})
    case Interrupt(victim, inTry) =>
      if s.interrupted then s
      else if victim.Some? && victim.value < |s.calls| && s.calls[victim.value].inline then
        (if inTry && s.calls[victim.value].pc in {Sending, Waiting, Marking, Working} then Raised(s, victim.value)
         else At(s, victim.value, Finished)).(interrupted := true)
      else s.(interrupted := true)
  }

  function After(run: string, events: seq<Event>): State
  {
    if events == [] then Initial(run) else Next(After(run, events[..|events| - 1]), events[|events| - 1])
  }

  // ---- what every step keeps ----

  /** What the shared tables say about a call's sandbox: its ownership, and whether its create was sent. */
  datatype View = View(owned: Option<Ownership>, sent: bool)

  function ViewOf(s: State, c: Call): View
  {
    if c.index.None? then View(None, false)
    else
      var id := CallId(s, c);
      View(if id in s.owned then Some(s.owned[id]) else None, id in s.sent)
  }

  /** Requested is recorded before sending, Created after the reply, Deleted after the delete. */
  ghost predicate CallOk(c: Call, v: View)
  {
    && (c.inline ==> !c.rollout)
    && (c.live ==> c.rollout && c.pc in {Working, Deleting, Removing, Leaving})
    && match c.pc
       case TakingId => c.index.None?
       case Owning => c.index.Some? && v == View(None, false)
       case Entering => c.index.Some? && c.rollout && v == View(Some(Requested), false)
       case Sending => c.index.Some? && v == View(Some(Requested), false)
       case Waiting => c.index.Some? && v == View(Some(Requested), true)
       case Marking => c.index.Some? && v == View(Some(Requested), true)
       case Working => c.index.Some? && v == View(Some(Created), true)
       case Deleting => c.index.Some? && v.owned.Some? && v.owned.value != Deleted
       case Removing => c.index.Some? && v.owned.Some? && v.owned.value != Deleted
       case Leaving => c.index.Some? && v.owned.Some?
       case Finished => true
  }

  ghost predicate CallsOk(s: State)
  {
    forall i :: 0 <= i < |s.calls| ==> CallOk(s.calls[i], ViewOf(s, s.calls[i]))
  }

  ghost predicate IndexesOk(calls: seq<Call>, counter: nat)
  {
    && (forall i :: 0 <= i < |calls| && calls[i].index.Some? ==> calls[i].index.value < counter)
    && forall i, j :: 0 <= i < j < |calls| && calls[i].index.Some? && calls[j].index.Some? ==>
         calls[i].index != calls[j].index
  }

  ghost predicate IsIssued(s: State, id: string)
  {
    exists scenario, index: nat :: index < s.counter && id == Id(s.run, scenario, index)
  }

  ghost predicate TablesOk(s: State)
  {
    && (forall id :: id in s.owned ==> IsIssued(s, id))
    && (forall k :: 0 <= k < |s.sent| ==> s.sent[k] in s.owned)
    && (forall k, l :: 0 <= k < l < |s.sent| ==> s.sent[k] != s.sent[l])
    && (forall id :: id in s.requests + s.existing ==> id in s.sent)
  }

  function Count(calls: seq<Call>, p: Call -> bool): nat
  {
    if calls == [] then 0 else Count(calls[..|calls| - 1], p) + if p(calls[|calls| - 1]) then 1 else 0
  }

  predicate InFlight(c: Call) { c.rollout && (c.pc == Sending || c.pc == Waiting) }

  predicate IsLive(c: Call) { c.live }

  /** The counters count calls; Created-and-not-yet-left calls for `live`. */
  ghost predicate CountsOk(s: State)
  {
    s.now == Count(s.calls, InFlight) <= s.max && s.live == Count(s.calls, IsLive) <= s.liveMax
  }

  ghost predicate Inv(s: State)
  {
    CallsOk(s) && IndexesOk(s.calls, s.counter) && TablesOk(s) && CountsOk(s)
  }

  // ---- one call moves ----

  lemma {:induction false} CountUpdate(calls: seq<Call>, a: nat, c: Call, p: Call -> bool)
    requires a < |calls|
    ensures Count(calls[a := c], p)
         == Count(calls, p) - (if p(calls[a]) then 1 else 0) + (if p(c) then 1 else 0)
  {
    var n := |calls| - 1;
    if a < n {
      CountUpdate(calls[..n], a, c, p);
      assert calls[a := c][..n] == calls[..n][a := c];
    } else {
      assert calls[a := c][..n] == calls[..n];
    }
  }

  lemma {:induction false} CountAppend(calls: seq<Call>, c: Call, p: Call -> bool)
    ensures Count(calls + [c], p) == Count(calls, p) + if p(c) then 1 else 0
  {
    assert (calls + [c])[..|calls|] == calls;
  }

  /** `t` is `s` after call `a` moved, touching the tables only at its own id. */
  ghost predicate OnlyTouches(s: State, t: State, a: nat)
    requires a < |s.calls|
  {
    && s.run == t.run && |t.calls| == |s.calls| && s.counter <= t.counter
    && t.calls == s.calls[a := t.calls[a]]
    && forall id :: id != CallId(t, t.calls[a]) ==>
         && (id in t.owned <==> id in s.owned) && (id in s.owned ==> t.owned[id] == s.owned[id])
         && (id in t.sent <==> id in s.sent)
  }

  lemma {:induction false} OthersOk(s: State, t: State, a: nat)
    requires a < |s.calls| && OnlyTouches(s, t, a)
    requires CallsOk(s) && IndexesOk(t.calls, t.counter)
    requires t.calls[a].index.Some?
    requires CallOk(t.calls[a], ViewOf(t, t.calls[a]))
    ensures CallsOk(t)
  {
    hide CallOk, Id;
    forall i | 0 <= i < |t.calls| ensures CallOk(t.calls[i], ViewOf(t, t.calls[i])) {
      if i != a {
        assert t.calls[i] == s.calls[i];
        if t.calls[i].index.Some? { DifferentIds(t, i, a); }
      }
    }
  }

  lemma {:induction false} DifferentIds(s: State, i: nat, j: nat)
    requires i < |s.calls| && j < |s.calls| && i != j && IndexesOk(s.calls, s.counter)
    requires s.calls[i].index.Some? && s.calls[j].index.Some?
    ensures CallId(s, s.calls[i]) != CallId(s, s.calls[j])
  {
    hide Id;
    if CallId(s, s.calls[i]) == CallId(s, s.calls[j]) {
      IdInjective(s.run, s.calls[i].scenario, s.calls[i].index.value, s.calls[j].scenario, s.calls[j].index.value);
      assert false;
    }
  }

  lemma {:induction false} IssuedLater(s: State, t: State, id: string)
    requires IsIssued(s, id) && s.run == t.run && s.counter <= t.counter
    ensures IsIssued(t, id)
  {
    hide Id;
    var scenario, index: nat :| index < s.counter && id == Id(s.run, scenario, index);
    assert index < t.counter;
  }

  /** A new index names a sandbox nobody has recorded. */
  lemma {:induction false} FreshId(s: State, scenario: string)
    requires TablesOk(s)
    ensures Id(s.run, scenario, s.counter) !in s.owned && Id(s.run, scenario, s.counter) !in s.sent
  {
    hide Id;
    var id := Id(s.run, scenario, s.counter);
    if id in s.owned {
      var other, index: nat :| index < s.counter && id == Id(s.run, other, index);
      IdInjective(s.run, scenario, s.counter, other, index);
      assert false;
    }
  }

  lemma {:induction false} IndexesMoved(calls: seq<Call>, counter: nat, a: nat, c: Call)
    requires IndexesOk(calls, counter) && a < |calls| && c.index == calls[a].index
    ensures IndexesOk(calls[a := c], counter)
  {
  }

  lemma {:induction false} TakesId(s: State, a: nat)
    requires Inv(s) && a < |s.calls| && s.calls[a].pc == TakingId
    ensures Inv(Advanced(s, a))
  {
    hide Id, Count;
    var t := Advanced(s, a);
    var c := s.calls[a];
    assert t.calls == s.calls[a := t.calls[a]];
    assert IndexesOk(t.calls, t.counter);
    FreshId(s, c.scenario);
    OthersOk(s, t, a);
    forall id | id in t.owned ensures IsIssued(t, id) { IssuedLater(s, t, id); }
    CountUpdate(s.calls, a, t.calls[a], InFlight);
    CountUpdate(s.calls, a, t.calls[a], IsLive);
  }

  lemma {:induction false} Owns(s: State, a: nat)
    requires Inv(s) && a < |s.calls| && s.calls[a].pc == Owning
    ensures Inv(Advanced(s, a))
  {
    hide Id, Count;
    var t := Advanced(s, a);
    var c := s.calls[a];
    IndexesMoved(s.calls, s.counter, a, t.calls[a]);
    OthersOk(s, t, a);
    forall id | id in t.owned ensures IsIssued(t, id) {
      if id in s.owned { IssuedLater(s, t, id); } else { assert id == Id(s.run, c.scenario, c.index.value); }
    }
    CountUpdate(s.calls, a, t.calls[a], InFlight);
    CountUpdate(s.calls, a, t.calls[a], IsLive);
  }

  lemma {:induction false} Sends(s: State, a: nat)
    requires Inv(s) && a < |s.calls| && s.calls[a].pc == Sending
    ensures Inv(Advanced(s, a))
  {
    hide Id, Count, IsIssued;
    var t := Advanced(s, a);
    var id := CallId(s, s.calls[a]);
    IndexesMoved(s.calls, s.counter, a, t.calls[a]);
    assert t.sent[|s.sent|] == id;
    forall other | other != id ensures other in t.sent <==> other in s.sent { SentOther(s.sent, id, other); }
    OthersOk(s, t, a);
    forall other | other in t.owned ensures IsIssued(t, other) { IssuedLater(s, t, other); }
    CountUpdate(s.calls, a, t.calls[a], InFlight);
    CountUpdate(s.calls, a, t.calls[a], IsLive);
  }

  lemma {:induction false} SentOther(sent: seq<string>, id: string, other: string)
    requires other != id
    ensures other in sent + [id] <==> other in sent
  {
  }

  /** Steps that leave the sent list and the ids owned alone. */
  lemma {:induction false} Moves(s: State, t: State, a: nat)
    requires Inv(s) && a < |s.calls| && |t.calls| == |s.calls|
    requires s.calls[a].index.Some? && t.calls[a].index == s.calls[a].index
    requires t.run == s.run && t.counter == s.counter && t.sent == s.sent
    requires t.calls == s.calls[a := t.calls[a].(scenario := s.calls[a].scenario)]
    requires t.owned.Keys == s.owned.Keys && t.requests <= s.requests && t.existing <= s.existing
    requires forall id :: id in s.owned && id != CallId(s, s.calls[a]) ==> t.owned[id] == s.owned[id]
    requires CallOk(t.calls[a], ViewOf(t, t.calls[a]))
    requires t.now == s.now + (if InFlight(t.calls[a]) then 1 else 0) - (if InFlight(s.calls[a]) then 1 else 0)
    requires t.live == s.live + (if IsLive(t.calls[a]) then 1 else 0) - (if IsLive(s.calls[a]) then 1 else 0)
    requires t.max == Max(s.max, t.now) && t.liveMax == Max(s.liveMax, t.live)
    ensures Inv(t)
  {
    hide Id, Count, CallOk, IsIssued;
    IndexesMoved(s.calls, s.counter, a, t.calls[a]);
    OthersOk(s, t, a);
    forall id | id in t.owned ensures IsIssued(t, id) { IssuedLater(s, t, id); }
    CountUpdate(s.calls, a, t.calls[a], InFlight);
    CountUpdate(s.calls, a, t.calls[a], IsLive);
  }

  lemma {:induction false} Enters(s: State, a: nat)
    requires Inv(s) && a < |s.calls| && s.calls[a].pc == Entering
    ensures Inv(Advanced(s, a))
  {
    hide Id, Count, IsIssued, IndexesOk, TablesOk;
    assert CallOk(s.calls[a], ViewOf(s, s.calls[a]));
    Moves(s, Advanced(s, a), a);
  }

  lemma {:induction false} Hears(s: State, a: nat)
    requires Inv(s) && a < |s.calls| && s.calls[a].pc == Waiting
    ensures Inv(Advanced(s, a))
  {
    hide Id, Count, IsIssued, IndexesOk, TablesOk;
    assert CallOk(s.calls[a], ViewOf(s, s.calls[a]));
    if Advanced(s, a) != s { Moves(s, Advanced(s, a), a); }
  }

  lemma {:induction false} Marks(s: State, a: nat)
    requires Inv(s) && a < |s.calls| && s.calls[a].pc == Marking
    ensures Inv(Advanced(s, a))
  {
    hide Id, Count, IsIssued, IndexesOk, TablesOk;
    assert CallOk(s.calls[a], ViewOf(s, s.calls[a]));
    if s.calls[a].rollout { Moves(s, Advanced(s, a), a); } else { Moves(s, Advanced(s, a), a); }
  }

  lemma {:induction false} Works(s: State, a: nat)
    requires Inv(s) && a < |s.calls| && s.calls[a].pc == Working
    ensures Inv(Advanced(s, a))
  {
    hide Id, Count, IsIssued, IndexesOk, TablesOk;
    assert CallOk(s.calls[a], ViewOf(s, s.calls[a]));
    Moves(s, Advanced(s, a), a);
  }

  lemma {:induction false} Deletes(s: State, a: nat)
    requires Inv(s) && a < |s.calls| && s.calls[a].pc == Deleting
    ensures Inv(Advanced(s, a))
  {
    hide Id, Count, IsIssued, IndexesOk, TablesOk;
    assert CallOk(s.calls[a], ViewOf(s, s.calls[a]));
    Moves(s, Advanced(s, a), a);
  }

  lemma {:induction false} Removes(s: State, a: nat)
    requires Inv(s) && a < |s.calls| && s.calls[a].pc == Removing
    ensures Inv(Advanced(s, a))
  {
    hide Id, Count, IsIssued, IndexesOk, TablesOk;
    assert CallOk(s.calls[a], ViewOf(s, s.calls[a]));
    Moves(s, Advanced(s, a), a);
  }

  lemma {:induction false} Leaves(s: State, a: nat)
    requires Inv(s) && a < |s.calls| && s.calls[a].pc == Leaving
    ensures Inv(Advanced(s, a))
  {
    hide Id, Count, IsIssued, IndexesOk, TablesOk;
    assert CallOk(s.calls[a], ViewOf(s, s.calls[a]));
    Moves(s, Advanced(s, a), a);
  }

  lemma {:induction false} AdvancedKeeps(s: State, a: nat)
    requires Inv(s) && a < |s.calls|
    ensures Inv(Advanced(s, a))
  {
    hide Inv;
    match s.calls[a].pc {
      case TakingId => TakesId(s, a);
      case Owning => Owns(s, a);
      case Entering => Enters(s, a);
      case Sending => Sends(s, a);
      case Waiting => Hears(s, a);
      case Marking => Marks(s, a);
      case Working => Works(s, a);
      case Deleting => Deletes(s, a);
      case Removing => Removes(s, a);
      case Leaving => Leaves(s, a);
      case Finished =>
    }
  }

  lemma {:induction false} RaisesInCreate(s: State, a: nat)
    requires Inv(s) && a < |s.calls| && s.calls[a].pc in {Sending, Waiting}
    ensures Inv(Raised(s, a))
  {
    hide Id, Count, IsIssued, IndexesOk, TablesOk;
    assert CallOk(s.calls[a], ViewOf(s, s.calls[a]));
    Moves(s, Raised(s, a), a);
  }

  lemma {:induction false} RaisesLater(s: State, a: nat)
    requires Inv(s) && a < |s.calls| && s.calls[a].pc in {Entering, Marking, Working}
    ensures Inv(Raised(s, a))
  {
    hide Id, Count, IsIssued, IndexesOk, TablesOk;
    assert CallOk(s.calls[a], ViewOf(s, s.calls[a]));
    Moves(s, Raised(s, a), a);
  }

  lemma {:induction false} GivesUp(s: State, a: nat)
    requires Inv(s) && a < |s.calls| && s.calls[a].pc in {Deleting}
    ensures Inv(Raised(s, a))
  {
    hide Id, Count, IsIssued, IndexesOk, TablesOk;
    assert CallOk(s.calls[a], ViewOf(s, s.calls[a]));
    Moves(s, Raised(s, a), a);
  }

  lemma {:induction false} RaisedKeeps(s: State, a: nat)
    requires Inv(s) && a < |s.calls|
    ensures Inv(Raised(s, a))
  {
    hide Inv;
    match s.calls[a].pc {
      case Sending | Waiting => RaisesInCreate(s, a);
      case Entering | Marking | Working => RaisesLater(s, a);
      case Deleting => GivesUp(s, a);
      case _ => assert s.calls[a := s.calls[a]] == s.calls;
    }
  }

  lemma {:induction false} StartKeeps(s: State, c: Call)
    requires Inv(s) && c.pc == TakingId && c.index.None? && !c.live && (c.inline ==> !c.rollout)
    ensures Inv(s.(calls := s.calls + [c]))
  {
    var t := s.(calls := s.calls + [c]);
    assert CallOk(c, ViewOf(t, c));
    hide Id, IsIssued, CallOk, Count;
    CountAppend(s.calls, c, InFlight);
    CountAppend(s.calls, c, IsLive);
    forall i | 0 <= i < |t.calls| ensures CallOk(t.calls[i], ViewOf(t, t.calls[i])) {
      if i < |s.calls| { assert ViewOf(t, t.calls[i]) == ViewOf(s, s.calls[i]); } else { assert t.calls[i] == c; }
    }
    forall id | id in t.owned ensures IsIssued(t, id) { IssuedLater(s, t, id); }
  }

  /** An interrupt outside the call's try block ends it where it stands. */
  lemma {:induction false} EndsHere(s: State, a: nat)
    requires Inv(s) && a < |s.calls| && s.calls[a].inline
    ensures Inv(At(s, a, Finished))
  {
    hide Id, Count, IsIssued;
    var t := At(s, a, Finished);
    assert CallOk(s.calls[a], ViewOf(s, s.calls[a]));
    forall i | 0 <= i < |t.calls| ensures CallOk(t.calls[i], ViewOf(t, t.calls[i])) {
      if i != a { assert ViewOf(t, t.calls[i]) == ViewOf(s, s.calls[i]); }
    }
    IndexesMoved(s.calls, s.counter, a, t.calls[a]);
    forall id | id in t.owned ensures IsIssued(t, id) { IssuedLater(s, t, id); }
    CountUpdate(s.calls, a, t.calls[a], InFlight);
    CountUpdate(s.calls, a, t.calls[a], IsLive);
  }

  lemma {:induction false} TablesAlone(s: State, t: State)
    requires Inv(s) && t == s.(requests := t.requests, existing := t.existing, interrupted := t.interrupted)
    requires t.requests + t.existing <= s.requests + s.existing
    ensures Inv(t)
  {
    hide Id, Count, CallOk, IsIssued;
    forall i | 0 <= i < |t.calls| ensures CallOk(t.calls[i], ViewOf(t, t.calls[i])) {
      assert ViewOf(t, t.calls[i]) == ViewOf(s, s.calls[i]);
    }
    forall id | id in t.owned ensures IsIssued(t, id) { IssuedLater(s, t, id); }
  }

  lemma {:induction false} NextKeeps(s: State, e: Event)
    requires Inv(s)
    ensures Inv(Next(s, e))
  {
    hide Inv, Advanced, Raised;
    match e {
      case Start(rollout, deletes, inline, priming, scenario) =>
        StartKeeps(s, Fresh(rollout, deletes, inline, priming, scenario));
      case Advance(a) => if a < |s.calls| { AdvancedKeeps(s, a); }
      case Raise(a) => if a < |s.calls| { RaisedKeeps(s, a); }
      case Accept(id) => TablesAlone(s, Next(s, e));
      case Refuse(id) => TablesAlone(s, Next(s, e));
      case Interrupt(victim, inTry) =>
        var t := s;
        if !s.interrupted && victim.Some? && victim.value < |s.calls| && s.calls[victim.value].inline {
          if inTry && s.calls[victim.value].pc in {Sending, Waiting, Marking, Working} {
            RaisedKeeps(s, victim.value);
            t := Raised(s, victim.value);
          } else {
            EndsHere(s, victim.value);
            t := At(s, victim.value, Finished);
          }
        }
        TablesAlone(t, t.(interrupted := true));
    }
  }

  /** Every interleaving keeps the invariant. */
  lemma {:induction false} EveryRun(run: string, events: seq<Event>)
    ensures Inv(After(run, events))
  {
    hide Inv, Next;
    if events == [] {
      InitialInv(run);
    } else {
      EveryRun(run, events[..|events| - 1]);
      NextKeeps(After(run, events[..|events| - 1]), events[|events| - 1]);
    }
  }

  lemma {:induction false} InitialInv(run: string)
    ensures Inv(Initial(run))
  {
  }

  // ---- what a run shows ----

  /** In every interleaving the create requests carry distinct ids, each already owned when it is sent. */
  lemma {:induction false} SentIdsUniqueAndOwned(run: string, events: seq<Event>)
    ensures var s := After(run, events);
            && (forall k, l :: 0 <= k < l < |s.sent| ==> s.sent[k] != s.sent[l])
            && (forall k :: 0 <= k < |s.sent| ==> s.sent[k] in s.owned)
    ensures forall e :: var s, t := After(run, events), Next(After(run, events), e);
              s.sent <= t.sent && forall k :: |s.sent| <= k < |t.sent| ==> t.sent[k] in s.owned
  {
    EveryRun(run, events);
    var s := After(run, events);
    forall e ensures s.sent <= Next(s, e).sent
             ensures forall k :: |s.sent| <= k < |Next(s, e).sent| ==> Next(s, e).sent[k] in s.owned {
      SendsOwned(s, e);
    }
  }

  lemma {:induction false} SendsOwned(s: State, e: Event)
    requires Inv(s)
    ensures s.sent <= Next(s, e).sent
    ensures forall k :: |s.sent| <= k < |Next(s, e).sent| ==> Next(s, e).sent[k] in s.owned
  {
    hide Id, Count, IsIssued, IndexesOk, TablesOk, CountsOk;
    if e.Advance? && e.call < |s.calls| {
      assert CallOk(s.calls[e.call], ViewOf(s, s.calls[e.call]));
    }
  }

  function Rank(o: Ownership): nat
  {
    match o case Requested => 0 case Created => 1 case Deleted => 2
  }

  /** Ownership only moves forward, and no id is dropped. */
  ghost predicate Forward(s: State, t: State)
  {
    forall id :: id in s.owned ==> id in t.owned && Rank(s.owned[id]) <= Rank(t.owned[id])
  }

  lemma {:induction false} StepForward(s: State, e: Event)
    requires Inv(s)
    ensures Forward(s, Next(s, e))
  {
    hide Id, Count, IsIssued, IndexesOk, TablesOk, CountsOk;
    if e.Advance? && e.call < |s.calls| {
      assert CallOk(s.calls[e.call], ViewOf(s, s.calls[e.call]));
    }
  }

  /** Between any two moments of a run, each id's state moves requested to created to deleted. */
  lemma {:induction false} OwnershipForward(run: string, events: seq<Event>, n: nat)
    requires n <= |events|
    ensures Forward(After(run, events[..n]), After(run, events))
  {
    hide Inv, Next;
    if n == |events| {
      assert events[..n] == events;
    } else {
      var front := events[..|events| - 1];
      OwnershipForward(run, front, n);
      assert front[..n] == events[..n];
      EveryRun(run, front);
      StepForward(After(run, front), events[|events| - 1]);
    }
  }

  /** The greatest number of live calls at any moment of a run. */
  ghost function PeakLive(run: string, events: seq<Event>): int
  {
    var here := Count(After(run, events).calls, IsLive);
    if events == [] then here else Max(PeakLive(run, events[..|events| - 1]), here)
  }

  ghost function PeakInFlight(run: string, events: seq<Event>): int
  {
    var here := Count(After(run, events).calls, InFlight);
    if events == [] then here else Max(PeakInFlight(run, events[..|events| - 1]), here)
  }

  lemma {:induction false} StepPeaks(s: State, e: Event)
    requires Inv(s)
    ensures Next(s, e).liveMax == Max(s.liveMax, Next(s, e).live) && Next(s, e).max == Max(s.max, Next(s, e).now)
  {
    hide Id, Count, IsIssued, IndexesOk, TablesOk, CallsOk;
    assert s.live <= s.liveMax && s.now <= s.max;
  }

  /** The recorded maxima are the true peaks of the counted calls. */
  lemma {:induction false} PeaksAreTrue(run: string, events: seq<Event>)
    ensures After(run, events).liveMax == PeakLive(run, events)
    ensures After(run, events).max == PeakInFlight(run, events)
  {
    EveryRun(run, events);
    if events != [] {
      var front := events[..|events| - 1];
      PeaksAreTrue(run, front);
      EveryRun(run, front);
      StepPeaks(After(run, front), events[|events| - 1]);
    }
  }

  // ---- deletes by the calls themselves ----

  /** The call deletes its sandbox when it is done with it. */
  predicate Due(c: Call) { c.rollout || c.deletes }

  /** The call is past its delete, and its sandbox is not recorded as deleted. */
  predicate Missed(c: Call, o: Option<Ownership>)
  {
    Due(c) && c.pc in {Leaving, Finished} && o != Some(Deleted)
  }

  /** Only calls that are to delete their sandbox do. */
  predicate KeepsOwn(c: Call, o: Option<Ownership>)
  {
    Due(c) || (c.pc !in {Deleting, Removing, Leaving} && o != Some(Deleted))
  }

  function OwnedOf(s: State, c: Call): Option<Ownership> { ViewOf(s, c).owned }

  /** How many of the first `n` calls missed their delete. */
  function CountMissed(s: State, n: nat): nat
    requires n <= |s.calls|
  {
    if n == 0 then 0
    else CountMissed(s, n - 1) + if Missed(s.calls[n - 1], OwnedOf(s, s.calls[n - 1])) then 1 else 0
  }

  ghost predicate KeptOk(s: State)
  {
    forall i :: 0 <= i < |s.calls| ==> KeepsOwn(s.calls[i], OwnedOf(s, s.calls[i]))
  }

  /** Calls that missed their delete are counted as inline errors, apart from one the interrupt may have ended. */
  ghost predicate MissesOk(s: State)
  {
    s.inlineErrors <= CountMissed(s, |s.calls|) <= s.inlineErrors + if s.interrupted then 1 else 0
  }

  lemma {:induction false} MissedSame(s: State, t: State, n: nat)
    requires n <= |s.calls| && n <= |t.calls|
    requires forall i :: 0 <= i < n ==> t.calls[i] == s.calls[i] && OwnedOf(t, t.calls[i]) == OwnedOf(s, s.calls[i])
    ensures CountMissed(t, n) == CountMissed(s, n)
  {
    hide Missed, OwnedOf;
    if n > 0 {
      MissedSame(s, t, n - 1);
      assert t.calls[n - 1] == s.calls[n - 1];
    }
  }

  lemma {:induction false} MissedUpdate(s: State, t: State, a: nat, n: nat)
    requires a < n <= |s.calls| == |t.calls|
    requires forall i :: 0 <= i < n && i != a ==>
               t.calls[i] == s.calls[i] && OwnedOf(t, t.calls[i]) == OwnedOf(s, s.calls[i])
    ensures CountMissed(t, n) - (if Missed(t.calls[a], OwnedOf(t, t.calls[a])) then 1 else 0)
         == CountMissed(s, n) - (if Missed(s.calls[a], OwnedOf(s, s.calls[a])) then 1 else 0)
  {
    hide Missed, OwnedOf;
    if a == n - 1 {
      MissedSame(s, t, n - 1);
    } else {
      MissedUpdate(s, t, a, n - 1);
      assert t.calls[n - 1] == s.calls[n - 1];
    }
  }

  /** A step of one call leaves what is said of the others. */
  lemma {:induction false} DeletesMoved(s: State, t: State, a: nat, failed: nat)
    requires KeptOk(s) && MissesOk(s) && a < |s.calls| == |t.calls|
    requires forall i :: 0 <= i < |s.calls| && i != a ==>
               t.calls[i] == s.calls[i] && OwnedOf(t, t.calls[i]) == OwnedOf(s, s.calls[i])
    requires KeepsOwn(t.calls[a], OwnedOf(t, t.calls[a])) && t.interrupted == s.interrupted
    requires failed == (if Missed(t.calls[a], OwnedOf(t, t.calls[a])) then 1 else 0)
                       - (if Missed(s.calls[a], OwnedOf(s, s.calls[a])) then 1 else 0)
    requires t.inlineErrors == s.inlineErrors + failed
    ensures KeptOk(t) && MissesOk(t)
  {
    hide KeepsOwn, OwnedOf, CountMissed, Missed;
    MissedUpdate(s, t, a, |s.calls|);
    forall i | 0 <= i < |t.calls| ensures KeepsOwn(t.calls[i], OwnedOf(t, t.calls[i])) {
      if i != a { assert KeepsOwn(s.calls[i], OwnedOf(s, s.calls[i])); }
    }
  }

  lemma {:induction false} OthersOwned(s: State, t: State, a: nat)
    requires a < |s.calls| && MovesOnly(s, t, a) && IndexesOk(t.calls, t.counter)
    ensures forall i :: 0 <= i < |s.calls| && i != a ==>
              t.calls[i] == s.calls[i] && OwnedOf(t, t.calls[i]) == OwnedOf(s, s.calls[i])
  {
    hide Id;
    forall i | 0 <= i < |s.calls| && i != a
      ensures t.calls[i] == s.calls[i] && OwnedOf(t, t.calls[i]) == OwnedOf(s, s.calls[i])
    {
      assert t.calls[i] == s.calls[i];
      if t.calls[i].index.Some? { DifferentIds(t, i, a); }
    }
  }

  lemma {:induction false} DeletesAdvanced(s: State, a: nat)
    requires Inv(s) && KeptOk(s) && MissesOk(s) && a < |s.calls|
    ensures KeptOk(Advanced(s, a)) && MissesOk(Advanced(s, a))
  {
    var t := Advanced(s, a);
    if t != s {
      AdvancedTables(s, a);
      AdvancedKeeps(s, a);
      assert CallOk(s.calls[a], ViewOf(s, s.calls[a])) && KeepsOwn(s.calls[a], OwnedOf(s, s.calls[a]));
      HasIndex(s, a);
      assert IndexesOk(t.calls, t.counter);
      if s.calls[a].pc == TakingId { FreshId(s, s.calls[a].scenario); }
      hide Inv, KeptOk, MissesOk, CountMissed;
      AdvancedOwn(s, a);
      hide Advanced;
      OthersOwned(s, t, a);
      hide MovesOnly;
      DeletesMoved(s, t, a, 0);
    }
  }

  lemma {:induction false} AdvancedOwn(s: State, a: nat)
    requires a < |s.calls| && Advanced(s, a) != s && CallOk(s.calls[a], ViewOf(s, s.calls[a]))
    requires KeepsOwn(s.calls[a], OwnedOf(s, s.calls[a]))
    requires s.calls[a].pc == TakingId ==> Id(s.run, s.calls[a].scenario, s.counter) !in s.owned
    ensures var t := Advanced(s, a);
            && |t.calls| == |s.calls| && t.interrupted == s.interrupted && t.inlineErrors == s.inlineErrors
            && KeepsOwn(t.calls[a], OwnedOf(t, t.calls[a]))
            && (Missed(t.calls[a], OwnedOf(t, t.calls[a])) <==> Missed(s.calls[a], OwnedOf(s, s.calls[a])))
  {
    hide Id;
    match s.calls[a].pc {
      case TakingId =>
      case Owning =>
      case Entering =>
      case Sending =>
      case Waiting =>
      case Marking =>
      case Working =>
      case Deleting =>
      case Removing =>
      case Leaving =>
    }
  }

  lemma {:induction false} DeletesRaised(s: State, a: nat)
    requires Inv(s) && KeptOk(s) && MissesOk(s) && a < |s.calls|
    ensures KeptOk(Raised(s, a)) && MissesOk(Raised(s, a))
  {
    var t := Raised(s, a);
    assert CallOk(s.calls[a], ViewOf(s, s.calls[a])) && KeepsOwn(s.calls[a], OwnedOf(s, s.calls[a]));
    hide Inv, KeptOk, MissesOk, CountMissed;
    RaisedCalls(s, a);
    RaisedTables(s, a);
    RaisedOwn(s, a);
    hide Raised, KeepsOwn, Missed, CallOk, Id;
    assert forall i :: 0 <= i < |s.calls| && i != a ==>
             t.calls[i] == s.calls[i] && OwnedOf(t, t.calls[i]) == OwnedOf(s, s.calls[i]);
    DeletesMoved(s, t, a, t.inlineErrors - s.inlineErrors);
  }

  lemma {:induction false} RaisedOwn(s: State, a: nat)
    requires a < |s.calls| && CallOk(s.calls[a], ViewOf(s, s.calls[a]))
    requires KeepsOwn(s.calls[a], OwnedOf(s, s.calls[a]))
    ensures var t := Raised(s, a);
            && |t.calls| == |s.calls| && t.interrupted == s.interrupted && t.inlineErrors >= s.inlineErrors
            && KeepsOwn(t.calls[a], OwnedOf(t, t.calls[a]))
            && t.inlineErrors - s.inlineErrors
               == (if Missed(t.calls[a], OwnedOf(t, t.calls[a])) then 1 else 0)
                  - (if Missed(s.calls[a], OwnedOf(s, s.calls[a])) then 1 else 0)
  {
    hide Id;
    assert Raised(s, a).calls[a].index == s.calls[a].index && Raised(s, a).owned == s.owned;
    match s.calls[a].pc {
      case Entering | Marking | Working =>
      case Sending | Waiting =>
      case Deleting =>
      case _ =>
    }
  }

  /** The interrupt ends at most one call. */
  lemma {:induction false} DeletesInterrupted(s: State, a: nat)
    requires Inv(s) && KeptOk(s) && MissesOk(s) && a < |s.calls| && !s.interrupted
    ensures var t := At(s, a, Finished).(interrupted := true); KeptOk(t) && MissesOk(t)
  {
    var t := At(s, a, Finished).(interrupted := true);
    assert KeepsOwn(s.calls[a], OwnedOf(s, s.calls[a]));
    hide Inv, Id, CountMissed;
    assert forall i :: 0 <= i < |s.calls| ==> OwnedOf(t, t.calls[i]) == OwnedOf(s, s.calls[i]);
    MissedUpdate(s, t, a, |s.calls|);
    forall i | 0 <= i < |t.calls| ensures KeepsOwn(t.calls[i], OwnedOf(t, t.calls[i])) {
      assert KeepsOwn(s.calls[i], OwnedOf(s, s.calls[i]));
    }
  }

  lemma {:induction false} DeletesAlone(s: State, t: State)
    requires KeptOk(s) && MissesOk(s)
    requires t == s.(requests := t.requests, existing := t.existing, interrupted := t.interrupted)
    requires s.interrupted ==> t.interrupted
    ensures KeptOk(t) && MissesOk(t)
  {
    hide Id, CountMissed, KeepsOwn;
    assert forall i :: 0 <= i < |s.calls| ==> OwnedOf(t, t.calls[i]) == OwnedOf(s, s.calls[i]);
    MissedSame(s, t, |s.calls|);
  }

  lemma {:induction false} DeletesStarted(s: State, c: Call)
    requires KeptOk(s) && MissesOk(s) && c.pc == TakingId && c.index.None?
    ensures KeptOk(s.(calls := s.calls + [c])) && MissesOk(s.(calls := s.calls + [c]))
  {
    hide Id;
    var t := s.(calls := s.calls + [c]);
    assert forall i :: 0 <= i < |s.calls| ==> t.calls[i] == s.calls[i] && OwnedOf(t, t.calls[i]) == OwnedOf(s, s.calls[i]);
    MissedSame(s, t, |s.calls|);
    assert t.calls[|s.calls|] == c;
    forall i | 0 <= i < |t.calls| ensures KeepsOwn(t.calls[i], OwnedOf(t, t.calls[i])) {
      if i < |s.calls| { assert KeepsOwn(s.calls[i], OwnedOf(s, s.calls[i])); }
    }
  }

  lemma {:induction false} DeletesNext(s: State, e: Event)
    requires Inv(s) && KeptOk(s) && MissesOk(s)
    ensures KeptOk(Next(s, e)) && MissesOk(Next(s, e))
  {
    hide Inv, KeptOk, MissesOk, Advanced, Raised;
    match e {
      case Start(rollout, deletes, inline, priming, scenario) =>
        DeletesStarted(s, Fresh(rollout, deletes, inline, priming, scenario));
      case Advance(a) => if a < |s.calls| { DeletesAdvanced(s, a); }
      case Raise(a) => if a < |s.calls| { DeletesRaised(s, a); }
      case Accept(id) => DeletesAlone(s, Next(s, e));
      case Refuse(id) => DeletesAlone(s, Next(s, e));
      case Interrupt(victim, inTry) =>
        if !s.interrupted && victim.Some? && victim.value < |s.calls| && s.calls[victim.value].inline {
          if inTry && s.calls[victim.value].pc in {Sending, Waiting, Marking, Working} {
            DeletesRaised(s, victim.value);
            DeletesAlone(Raised(s, victim.value), Next(s, e));
          } else {
            DeletesInterrupted(s, victim.value);
          }
        } else {
          DeletesAlone(s, Next(s, e));
        }
    }
  }

  /** In every run the calls that are past their delete without having deleted their sandbox are exactly the counted
      inline errors, and at most one call that the interrupt ended. No other call deletes its sandbox. */
  lemma {:induction false} DeletesCounted(run: string, events: seq<Event>)
    ensures KeptOk(After(run, events)) && MissesOk(After(run, events))
  {
    hide Inv, Next, KeptOk, MissesOk;
    if events == [] {
      InitialDeletes(run);
    } else {
      var front := events[..|events| - 1];
      DeletesCounted(run, front);
      EveryRun(run, front);
      DeletesNext(After(run, front), events[|events| - 1]);
    }
  }

  lemma {:induction false} InitialDeletes(run: string)
    ensures KeptOk(Initial(run)) && MissesOk(Initial(run))
  {
  }

  lemma {:induction false} MissedCounts(s: State, i: nat, n: nat)
    requires i < n <= |s.calls| && Missed(s.calls[i], OwnedOf(s, s.calls[i]))
    ensures CountMissed(s, n) >= 1
  {
    hide Missed, OwnedOf;
    if i < n - 1 { MissedCounts(s, i, n - 1); }
  }

  /** Without a counted failure and without interrupt, a finished call has deleted its sandbox exactly if it was to. */
  lemma {:induction false} DeletedIffDue(run: string, events: seq<Event>, i: nat)
    requires i < |After(run, events).calls| && After(run, events).calls[i].pc == Finished
    requires After(run, events).inlineErrors == 0 && !After(run, events).interrupted
    ensures var s := After(run, events); Due(s.calls[i]) <==> OwnedOf(s, s.calls[i]) == Some(Deleted)
  {
    hide After, OwnedOf, CountMissed;
    DeletesCounted(run, events);
    var s := After(run, events);
    assert KeepsOwn(s.calls[i], OwnedOf(s, s.calls[i]));
    if Missed(s.calls[i], OwnedOf(s, s.calls[i])) { MissedCounts(s, i, |s.calls|); }
  }

  // ---- which creates returned ----

  /** What the service knows of a call's sandbox. */
  datatype Fate = Fate(sent: bool, undecided: bool, present: bool, deleted: bool)

  function FateOf(s: State, c: Call): Fate
  {
    if c.index.None? then Fate(false, false, false, false)
    else
      var id := CallId(s, c);
      Fate(id in s.sent, id in s.requests, id in s.existing, id in s.owned && s.owned[id] == Deleted)
  }

  /** A create that returned is decided, and its sandbox does not come back after it was deleted. */
  ghost predicate ReplyOk(c: Call, f: Fate)
  {
    && (c.ok ==> c.replied)
    && (c.pc in {TakingId, Owning, Entering, Sending, Waiting} ==> !c.replied)
    && (c.pc in {Marking, Working} ==> c.replied)
    && (c.replied ==> c.index.Some? && f.sent && !f.undecided)
    && (c.replied && (c.pc == Removing || f.deleted) ==> !f.present)
    && (c.pc in {Owning, Entering, Sending} ==> !f.undecided && !f.present)
  }

  ghost predicate RepliesOk(s: State)
  {
    forall i :: 0 <= i < |s.calls| ==> ReplyOk(s.calls[i], FateOf(s, s.calls[i]))
  }

  /** Call `i` sent the create of `id`. */
  ghost predicate SentBy(s: State, i: nat, id: string)
  {
    i < |s.calls| && s.calls[i].index.Some? && CallId(s, s.calls[i]) == id
  }

  ghost predicate SendersOk(s: State)
  {
    forall k :: 0 <= k < |s.sent| ==> HasSender(s, s.sent[k])
  }

  ghost predicate HasSender(s: State, id: string)
  {
    exists i: nat :: SentBy(s, i, id)
  }

  /** The tables agree at every id but one. */
  ghost predicate AgreeBut(s: State, t: State, id: string)
  {
    forall other :: other != id ==>
      && (other in t.sent <==> other in s.sent) && (other in t.requests <==> other in s.requests)
      && (other in t.existing <==> other in s.existing) && (other in t.owned <==> other in s.owned)
      && (other in s.owned ==> t.owned[other] == s.owned[other])
  }

  lemma {:induction false} RepliesMoved(s: State, t: State, a: nat)
    requires RepliesOk(s) && a < |s.calls| && |t.calls| == |s.calls| && t.run == s.run
    requires t.calls == s.calls[a := t.calls[a]] && IndexesOk(t.calls, t.counter)
    requires t.calls[a].index.Some? && AgreeBut(s, t, CallId(t, t.calls[a]))
    requires ReplyOk(t.calls[a], FateOf(t, t.calls[a]))
    ensures RepliesOk(t)
  {
    hide Id, ReplyOk;
    forall i | 0 <= i < |t.calls| ensures ReplyOk(t.calls[i], FateOf(t, t.calls[i])) {
      if i != a {
        assert t.calls[i] == s.calls[i];
        if t.calls[i].index.Some? { DifferentIds(t, i, a); }
      }
    }
  }

  lemma {:induction false} SendersMoved(s: State, t: State, a: nat)
    requires SendersOk(s) && a < |s.calls| && |t.calls| == |s.calls| && t.run == s.run
    requires t.calls == s.calls[a := t.calls[a]]
    requires s.calls[a].index.Some? ==> t.calls[a].index == s.calls[a].index && t.calls[a].scenario == s.calls[a].scenario
    requires t.sent == s.sent || (t.calls[a].index.Some? && t.sent == s.sent + [CallId(t, t.calls[a])])
    ensures SendersOk(t)
  {
    hide Id;
    forall k | 0 <= k < |t.sent| ensures HasSender(t, t.sent[k]) {
      if k < |s.sent| {
        var i: nat :| SentBy(s, i, s.sent[k]);
        assert SentBy(t, i, t.sent[k]);
      } else {
        assert SentBy(t, a, t.sent[k]);
      }
    }
  }

  lemma {:induction false} RepliesAdvanced(s: State, a: nat)
    requires Inv(s) && RepliesOk(s) && SendersOk(s) && a < |s.calls|
    ensures RepliesOk(Advanced(s, a)) && SendersOk(Advanced(s, a))
  {
    var t := Advanced(s, a);
    AdvancedKeeps(s, a);
    AdvancedFate(s, a);
    hide Id, Advanced, ReplyOk, CallsOk, TablesOk, CountsOk, IndexesOk;
    if t != s {
      AdvancedTables(s, a);
      hide AgreeBut;
      RepliesMoved(s, t, a);
      SendersMoved(s, t, a);
    }
  }

  /** A step of a call changes nothing but that call and its own id's entries. */
  ghost predicate MovesOnly(s: State, t: State, a: nat)
    requires a < |s.calls|
  {
    && |t.calls| == |s.calls| && t.run == s.run && t.calls == s.calls[a := t.calls[a]]
    && t.calls[a].index.Some? && (s.calls[a].index.Some? ==> t.calls[a].index == s.calls[a].index)
    && t.calls[a].scenario == s.calls[a].scenario
    && AgreeBut(s, t, CallId(t, t.calls[a]))
    && (t.sent == s.sent || t.sent == s.sent + [CallId(t, t.calls[a])])
  }

  lemma {:induction false} AdvancedTables(s: State, a: nat)
    requires Inv(s) && a < |s.calls| && Advanced(s, a) != s
    ensures MovesOnly(s, Advanced(s, a), a)
  {
    HasIndex(s, a);
    hide Id, Inv;
    if s.calls[a].pc == Sending { SendTables(s, a); } else { StepTables(s, a); }
  }

  lemma {:induction false} SendTables(s: State, a: nat)
    requires a < |s.calls| && s.calls[a].pc == Sending && s.calls[a].index.Some?
    ensures MovesOnly(s, Advanced(s, a), a)
  {
    hide Id;
    var id := CallId(s, s.calls[a]);
    forall other | other != id ensures other in s.sent + [id] <==> other in s.sent { SentOther(s.sent, id, other); }
  }

  lemma {:induction false} StepTables(s: State, a: nat)
    requires a < |s.calls| && s.calls[a].pc != Sending && Advanced(s, a) != s
    requires s.calls[a].pc == TakingId <==> s.calls[a].index.None?
    ensures MovesOnly(s, Advanced(s, a), a)
  {
    hide Id, MovesOnly;
    if s.calls[a].pc in {TakingId, Owning, Entering, Waiting} { EarlyTables(s, a); } else { LateTables(s, a); }
  }

  lemma {:induction false} EarlyTables(s: State, a: nat)
    requires a < |s.calls| && s.calls[a].pc in {TakingId, Owning, Entering, Waiting} && Advanced(s, a) != s
    requires s.calls[a].pc == TakingId <==> s.calls[a].index.None?
    ensures MovesOnly(s, Advanced(s, a), a)
  {
    hide Id;
  }

  lemma {:induction false} LateTables(s: State, a: nat)
    requires a < |s.calls| && s.calls[a].pc in {Marking, Working, Deleting, Removing, Leaving} && s.calls[a].index.Some?
    ensures MovesOnly(s, Advanced(s, a), a)
  {
    hide Id;
    match s.calls[a].pc {
      case Marking =>
      case Working =>
      case Deleting =>
      case Removing =>
      case Leaving =>
    }
  }

  lemma {:induction false} HasIndex(s: State, a: nat)
    requires Inv(s) && a < |s.calls| && s.calls[a].pc != Finished
    ensures s.calls[a].pc == TakingId <==> s.calls[a].index.None?
  {
    hide Id, Count, IsIssued, IndexesOk, TablesOk, CountsOk;
    assert CallOk(s.calls[a], ViewOf(s, s.calls[a]));
  }

  lemma {:induction false} AdvancedFate(s: State, a: nat)
    requires Inv(s) && RepliesOk(s) && a < |s.calls|
    ensures var t := Advanced(s, a); ReplyOk(t.calls[a], FateOf(t, t.calls[a]))
  {
    hide Id, Count, IsIssued, IndexesOk, CountsOk;
    var v, f := ViewOf(s, s.calls[a]), FateOf(s, s.calls[a]);
    assert CallOk(s.calls[a], v) && ReplyOk(s.calls[a], f);
    if s.calls[a].pc == TakingId {
      FreshId(s, s.calls[a].scenario);
      assert Id(s.run, s.calls[a].scenario, s.counter) !in s.requests + s.existing;
      assert Advanced(s, a).calls[a].pc == Owning;
    } else {
      hide TablesOk, CallsOk, RepliesOk, Inv;
      FateMoves(s, a);
    }
  }

  lemma {:induction false} FateMoves(s: State, a: nat)
    requires a < |s.calls| && s.calls[a].pc != TakingId
    requires CallOk(s.calls[a], ViewOf(s, s.calls[a])) && ReplyOk(s.calls[a], FateOf(s, s.calls[a]))
    ensures var t := Advanced(s, a); ReplyOk(t.calls[a], FateOf(t, t.calls[a]))
  {
    hide Id;
    var id, c := CallId(s, s.calls[a]), s.calls[a];
    if c.pc in {Owning, Entering, Waiting, Marking} {
      FateEarly(s, a);
    } else {
      match c.pc {
        case Sending => assert (s.sent + [id])[|s.sent|] == id;
        case Deleting =>
        case _ =>
      }
    }
  }

  lemma {:induction false} FateEarly(s: State, a: nat)
    requires a < |s.calls| && s.calls[a].pc in {Owning, Entering, Waiting, Marking}
    requires CallOk(s.calls[a], ViewOf(s, s.calls[a])) && ReplyOk(s.calls[a], FateOf(s, s.calls[a]))
    ensures var t := Advanced(s, a); ReplyOk(t.calls[a], FateOf(t, t.calls[a]))
  {
    hide Id;
    match s.calls[a].pc {
      case Owning =>
      case Entering =>
      case Waiting =>
      case Marking =>
    }
  }

  /** Moves of a call that leave the tables alone and do not undo a reply. */
  lemma {:induction false} RepliesEnded(s: State, t: State, a: nat)
    requires RepliesOk(s) && SendersOk(s) && a < |s.calls|
    requires t.run == s.run && t.sent == s.sent && t.requests == s.requests && t.existing == s.existing && t.owned == s.owned
    requires |t.calls| == |s.calls| && t.calls == s.calls[a := s.calls[a].(pc := t.calls[a].pc)]
    requires t.calls[a].pc in {Deleting, Leaving, Finished}
    ensures RepliesOk(t) && SendersOk(t)
  {
    hide Id;
    forall i | 0 <= i < |t.calls| ensures ReplyOk(t.calls[i], FateOf(t, t.calls[i])) {
      assert ReplyOk(s.calls[i], FateOf(s, s.calls[i]));
      assert FateOf(t, t.calls[i]) == FateOf(s, s.calls[i]);
    }
    hide ReplyOk;
    forall k | 0 <= k < |t.sent| ensures HasSender(t, t.sent[k]) {
      var i: nat :| SentBy(s, i, s.sent[k]);
      assert SentBy(t, i, t.sent[k]);
    }
  }

  /** The service decides on a create. */
  lemma {:induction false} RepliesDecided(s: State, t: State)
    requires RepliesOk(s) && SendersOk(s)
    requires t == s.(requests := t.requests, existing := t.existing, interrupted := t.interrupted)
    requires t.requests <= s.requests && t.existing <= s.existing + s.requests
    ensures RepliesOk(t) && SendersOk(t)
  {
    hide Id;
    forall i | 0 <= i < |t.calls| ensures ReplyOk(t.calls[i], FateOf(t, t.calls[i])) {
      assert ReplyOk(s.calls[i], FateOf(s, s.calls[i]));
    }
    hide ReplyOk;
    forall k | 0 <= k < |t.sent| ensures HasSender(t, t.sent[k]) {
      var i: nat :| SentBy(s, i, s.sent[k]);
      assert SentBy(t, i, t.sent[k]);
    }
  }

  lemma {:induction false} RepliesStarted(s: State, c: Call)
    requires RepliesOk(s) && SendersOk(s) && c.pc == TakingId && c.index.None? && !c.replied && !c.ok
    ensures RepliesOk(s.(calls := s.calls + [c])) && SendersOk(s.(calls := s.calls + [c]))
  {
    hide Id;
    var t := s.(calls := s.calls + [c]);
    forall i | 0 <= i < |t.calls| ensures ReplyOk(t.calls[i], FateOf(t, t.calls[i])) {
      if i < |s.calls| {
        assert ReplyOk(s.calls[i], FateOf(s, s.calls[i]));
      } else {
        assert t.calls[i] == c;
      }
    }
    hide ReplyOk;
    forall k | 0 <= k < |t.sent| ensures HasSender(t, t.sent[k]) {
      var i: nat :| SentBy(s, i, s.sent[k]);
      assert SentBy(t, i, t.sent[k]);
    }
  }

  lemma {:induction false} RepliesRaised(s: State, a: nat)
    requires RepliesOk(s) && SendersOk(s) && a < |s.calls|
    ensures RepliesOk(Raised(s, a)) && SendersOk(Raised(s, a))
  {
    hide RepliesOk, SendersOk, Raised;
    RaisedCalls(s, a);
    RaisedTables(s, a);
    if Raised(s, a) != s {
      RaisedPc(s, a);
      RepliesEnded(s, Raised(s, a), a);
    }
  }

  lemma {:induction false} RaisedCalls(s: State, a: nat)
    requires a < |s.calls|
    ensures |Raised(s, a).calls| == |s.calls|
    ensures Raised(s, a).calls == s.calls[a := s.calls[a].(pc := Raised(s, a).calls[a].pc)]
  {
    assert s.calls[a := s.calls[a]] == s.calls;
  }

  lemma {:induction false} RaisedTables(s: State, a: nat)
    requires a < |s.calls|
    ensures var t := Raised(s, a);
            && t.run == s.run && t.sent == s.sent && t.requests == s.requests && t.existing == s.existing
            && t.owned == s.owned
  {
  }

  lemma {:induction false} RaisedPc(s: State, a: nat)
    requires a < |s.calls| && Raised(s, a) != s
    ensures a < |Raised(s, a).calls| && Raised(s, a).calls[a].pc in {Deleting, Leaving, Finished}
  {
    match s.calls[a].pc {
      case Entering | Marking | Working =>
      case Sending | Waiting =>
      case Deleting =>
      case _ =>
    }
  }

  lemma {:induction false} RepliesNext(s: State, e: Event)
    requires Inv(s) && RepliesOk(s) && SendersOk(s)
    ensures RepliesOk(Next(s, e)) && SendersOk(Next(s, e))
  {
    hide Inv, RepliesOk, SendersOk, Advanced, Raised;
    match e {
      case Start(rollout, deletes, inline, priming, scenario) =>
        RepliesStarted(s, Fresh(rollout, deletes, inline, priming, scenario));
      case Advance(a) => if a < |s.calls| { RepliesAdvanced(s, a); }
      case Raise(a) => if a < |s.calls| { RepliesRaised(s, a); }
      case Accept(id) => RepliesDecided(s, Next(s, e));
      case Refuse(id) => RepliesDecided(s, Next(s, e));
      case Interrupt(victim, inTry) =>
        var t := s;
        if !s.interrupted && victim.Some? && victim.value < |s.calls| && s.calls[victim.value].inline {
          if inTry && s.calls[victim.value].pc in {Sending, Waiting, Marking, Working} {
            RepliesRaised(s, victim.value);
            t := Raised(s, victim.value);
          } else {
            RepliesEnded(s, At(s, victim.value, Finished), victim.value);
            t := At(s, victim.value, Finished);
          }
        }
        RepliesDecided(t, t.(interrupted := true));
    }
  }

  lemma {:induction false} EveryReply(run: string, events: seq<Event>)
    ensures Inv(After(run, events)) && RepliesOk(After(run, events)) && SendersOk(After(run, events))
  {
    hide Inv, Next, RepliesOk, SendersOk;
    EveryRun(run, events);
    if events == [] {
      InitialReplies(run);
    } else {
      EveryReply(run, events[..|events| - 1]);
      RepliesNext(After(run, events[..|events| - 1]), events[|events| - 1]);
    }
  }

  lemma {:induction false} InitialReplies(run: string)
    ensures RepliesOk(Initial(run)) && SendersOk(Initial(run))
  {
  }

  /** Call `c` sent its create, which never returned to it. */
  predicate Unreturned(s: State, c: Call)
  {
    c.index.Some? && CallId(s, c) in s.sent && !c.replied
  }

  predicate AllReturned(s: State)
  {
    forall i :: 0 <= i < |s.calls| ==> !Unreturned(s, s.calls[i])
  }

  /** Once every create returned, the service has decided on all of them. */
  lemma {:induction false} ReturnedDecided(s: State)
    requires Inv(s) && RepliesOk(s) && SendersOk(s) && AllReturned(s)
    ensures s.requests == {}
  {
    hide Inv, RepliesOk, SendersOk, Unreturned;
    if s.requests != {} {
      var id :| id in s.requests;
      var i := RequestUnreturned(s, id);
      assert false;
    }
  }

  /** A create the service has not decided on never returned to its call. */
  lemma {:induction false} RequestUnreturned(s: State, id: string) returns (i: nat)
    requires Inv(s) && RepliesOk(s) && SendersOk(s) && id in s.requests
    ensures i < |s.calls| && Unreturned(s, s.calls[i]) && CallId(s, s.calls[i]) == id
  {
    hide Id, CallsOk, IndexesOk, CountsOk;
    assert id in s.requests + s.existing && id in s.sent;
    i := SenderOf(s, id);
    assert ReplyOk(s.calls[i], FateOf(s, s.calls[i]));
  }

  lemma {:induction false} SenderOf(s: State, id: string) returns (i: nat)
    requires SendersOk(s) && id in s.sent
    ensures i < |s.calls| && s.calls[i].index.Some? && CallId(s, s.calls[i]) == id
  {
    hide Id;
    var k :| 0 <= k < |s.sent| && s.sent[k] == id;
    assert HasSender(s, s.sent[k]);
    i :| SentBy(s, i, id);
  }

  // ---- the same run with late decisions ----

  /** What the client can tell: everything but the service's undecided creates and sandboxes. */
  ghost predicate SameClient(s: State, t: State)
  {
    t == s.(requests := t.requests, existing := t.existing)
  }

  /** `t` is `s` with no decision yet on the creates of `late`. */
  ghost predicate Delayed(s: State, t: State, late: set<string>)
  {
    && SameClient(s, t) && t.existing == s.existing - late
    && forall id :: id in t.requests <==> id in s.requests || (id in late && id in s.sent)
  }

  predicate Decides(e: Event, late: set<string>)
  {
    (e.Accept? || e.Refuse?) && e.id in late
  }

  /** The run without the decisions on `late`. */
  function Undecided(events: seq<Event>, late: set<string>): seq<Event>
  {
    if events == [] then []
    else
      var front, last := Undecided(events[..|events| - 1], late), events[|events| - 1];
      if Decides(last, late) then front else front + [last]
  }

  /** No create of `late` has returned. */
  ghost predicate NoneReplied(s: State, late: set<string>)
  {
    forall i :: 0 <= i < |s.calls| && s.calls[i].index.Some? && CallId(s, s.calls[i]) in late ==> !s.calls[i].replied
  }

  /** A reply stays, and so does an id. */
  lemma {:induction false} RepliesStay(s: State, e: Event, late: set<string>)
    requires Inv(s) && NoneReplied(Next(s, e), late)
    ensures NoneReplied(s, late)
  {
    hide Id, Inv, Next;
    forall i | 0 <= i < |s.calls| && s.calls[i].index.Some? && CallId(s, s.calls[i]) in late
      ensures !s.calls[i].replied
    {
      CallStays(s, e, i);
    }
  }

  lemma {:induction false} CallStays(s: State, e: Event, i: nat)
    requires Inv(s) && i < |s.calls|
    ensures Next(s, e).run == s.run && i < |Next(s, e).calls|
    ensures Stays(s.calls[i], Next(s, e).calls[i])
  {
    if e.Advance? {
      if e.call < |s.calls| { AdvancedStays(s, e.call, i); }
    } else if e.Raise? || e.Interrupt? || e.Start? {
      hide Inv, Next;
      SameStep(s, s, e);
    }
  }

  /** The call kept its id, and its reply if it had one. */
  ghost predicate Stays(c: Call, d: Call)
  {
    d.scenario == c.scenario && (c.replied ==> d.replied) && (c.index.Some? ==> d.index == c.index)
  }

  lemma {:induction false} AdvancedStays(s: State, a: nat, i: nat)
    requires Inv(s) && a < |s.calls| && i < |s.calls|
    ensures Advanced(s, a).run == s.run && |Advanced(s, a).calls| == |s.calls|
    ensures Stays(s.calls[i], Advanced(s, a).calls[i])
  {
    hide Inv, Advanced, AgreeBut;
    if Advanced(s, a) != s {
      AdvancedTables(s, a);
      RepliedStays(s, a);
    }
  }

  lemma {:induction false} RepliedStays(s: State, a: nat)
    requires a < |s.calls| && a < |Advanced(s, a).calls|
    ensures s.calls[a].replied ==> Advanced(s, a).calls[a].replied
  {
    hide Id;
    match s.calls[a].pc {
      case TakingId =>
      case Owning =>
      case Entering =>
      case Sending =>
      case Waiting => assert Advanced(s, a) == s || Advanced(s, a).calls[a].replied;
      case Marking =>
      case Working =>
      case Deleting =>
      case Removing =>
      case Leaving =>
      case Finished =>
    }
  }

  /** Starts, exceptions and the interrupt do not depend on the service, nor touch what it holds. */
  lemma {:induction false} SameStep(s: State, t: State, e: Event)
    requires SameClient(s, t) && (e.Raise? || e.Interrupt? || e.Start?)
    ensures Next(t, e) == Next(s, e).(requests := t.requests, existing := t.existing)
    ensures Next(s, e).requests == s.requests && Next(s, e).existing == s.existing && Next(s, e).sent == s.sent
    ensures Next(s, e).run == s.run && |s.calls| <= |Next(s, e).calls|
    ensures forall i :: 0 <= i < |s.calls| ==> Stays(s.calls[i], Next(s, e).calls[i])
  {
    hide Raised;
    if e.Raise? && e.call < |s.calls| { RaisedSame(s, t, e.call); }
    if e.Interrupt? && e.victim.Some? && e.victim.value < |s.calls| { RaisedSame(s, t, e.victim.value); }
  }

  lemma {:induction false} RaisedSame(s: State, t: State, a: nat)
    requires SameClient(s, t) && a < |s.calls|
    ensures Raised(t, a) == Raised(s, a).(requests := t.requests, existing := t.existing)
    ensures Raised(s, a).requests == s.requests && Raised(s, a).existing == s.existing && Raised(s, a).sent == s.sent
    ensures Raised(s, a).run == s.run && |Raised(s, a).calls| == |s.calls|
    ensures forall i :: 0 <= i < |s.calls| ==> Stays(s.calls[i], Raised(s, a).calls[i])
  {
    hide Stays, AfterTry;
    RaisedCalls(s, a);
    RaisedCalls(t, a);
    RaisedStays(s, a);
  }

  lemma {:induction false} RaisedStays(s: State, a: nat)
    requires a < |s.calls|
    requires |Raised(s, a).calls| == |s.calls|
    requires Raised(s, a).calls == s.calls[a := s.calls[a].(pc := Raised(s, a).calls[a].pc)]
    ensures forall i :: 0 <= i < |s.calls| ==> Stays(s.calls[i], Raised(s, a).calls[i])
  {
    hide Raised;
  }

  /** Dropping the decisions on creates that never return changes nothing the client can tell. */
  lemma {:induction false} DelayedStep(s: State, t: State, e: Event, late: set<string>)
    requires Inv(s) && Delayed(s, t, late) && NoneReplied(Next(s, e), late)
    ensures Delayed(Next(s, e), if Decides(e, late) then t else Next(t, e), late)
  {
    if e.Advance? {
      if e.call < |s.calls| { DelayedAdvance(s, t, e.call, late); }
    } else if e.Accept? || e.Refuse? {
      hide Id, CallsOk, IndexesOk, CountsOk, NoneReplied;
      assert e.id in s.requests ==> e.id in s.requests + s.existing;
    } else {
      hide Inv, Next, NoneReplied, Stays;
      SameStep(s, t, e);
    }
  }

  lemma {:induction false} DelayedAdvance(s: State, t: State, a: nat, late: set<string>)
    requires Inv(s) && Delayed(s, t, late) && a < |s.calls| && NoneReplied(Advanced(s, a), late)
    ensures Delayed(Advanced(s, a), Advanced(t, a), late)
  {
    if s.calls[a].pc != Finished { HasIndex(s, a); }
    hide Id, Inv;
    var c := s.calls[a];
    assert CallId(t, c) == CallId(s, c);
    if c.pc == Waiting {
      if CallId(s, c) !in s.requests {
        assert Advanced(s, a).calls[a].replied && CallId(Advanced(s, a), Advanced(s, a).calls[a]) == CallId(s, c);
      }
    } else {
      hide NoneReplied;
      DelayedMove(s, t, a, late);
    }
  }

  lemma {:induction false} DelayedMove(s: State, t: State, a: nat, late: set<string>)
    requires Delayed(s, t, late) && a < |s.calls| && s.calls[a].pc != Waiting
    ensures Delayed(Advanced(s, a), Advanced(t, a), late)
  {
    hide Id;
    assert CallId(t, t.calls[a]) == CallId(s, s.calls[a]);
  }

  lemma {:induction false} DelayedRun(run: string, events: seq<Event>, late: set<string>)
    requires NoneReplied(After(run, events), late)
    ensures Delayed(After(run, events), After(run, Undecided(events, late)), late)
  {
    hide Inv, Next, NoneReplied;
    if events == [] {
      DelayedStart(run, late);
    } else {
      var front, last := events[..|events| - 1], events[|events| - 1];
      EveryRun(run, front);
      RepliesStay(After(run, front), last, late);
      DelayedRun(run, front, late);
      DelayedStep(After(run, front), After(run, Undecided(front, late)), last, late);
      var rest := Undecided(front, late);
      assert (rest + [last])[..|rest|] == rest;
    }
  }

  lemma {:induction false} DelayedStart(run: string, late: set<string>)
    ensures Delayed(Initial(run), Initial(run), late)
  {
  }

  /** The sandboxes whose creates never returned. */
  function Late(s: State): set<string>
  {
    set i | 0 <= i < |s.calls| && Unreturned(s, s.calls[i]) :: CallId(s, s.calls[i])
  }

  lemma {:induction false} LateUnreplied(s: State)
    requires Inv(s)
    ensures NoneReplied(s, Late(s))
  {
    hide Id, CallsOk, TablesOk, CountsOk;
    forall j | 0 <= j < |s.calls| && s.calls[j].index.Some? && CallId(s, s.calls[j]) in Late(s)
      ensures !s.calls[j].replied
    {
      var i :| 0 <= i < |s.calls| && Unreturned(s, s.calls[i]) && CallId(s, s.calls[i]) == CallId(s, s.calls[j]);
      if i != j { DifferentIds(s, i, j); }
    }
  }

  /** A run the client cannot tell apart, in which the service has decided on no create that did not return. */
  lemma {:induction false} LateTwin(run: string, events: seq<Event>) returns (late: seq<Event>)
    ensures var s, t := After(run, events), After(run, late);
            SameClient(s, t) && Late(s) <= t.requests && t.existing !! Late(s)
  {
    hide Inv, Next, NoneReplied;
    var s := After(run, events);
    EveryRun(run, events);
    LateUnreplied(s);
    late := Undecided(events, Late(s));
    DelayedRun(run, events, Late(s));
  }

  /** The client knows that the service has decided on every create exactly when every create returned: otherwise a run
      it cannot tell apart leaves one undecided. */
  lemma {:induction false} DecidedIffReturned(run: string, events: seq<Event>)
    ensures (forall other :: SameClient(After(run, events), After(run, other)) ==> After(run, other).requests == {})
       <==> AllReturned(After(run, events))
  {
    hide Inv, Next, Unreturned, RepliesOk, SendersOk;
    var s := After(run, events);
    if AllReturned(s) {
      forall other | SameClient(s, After(run, other)) ensures After(run, other).requests == {} {
        EveryReply(run, other);
        SameReturned(s, After(run, other));
        ReturnedDecided(After(run, other));
      }
    } else {
      var i :| 0 <= i < |s.calls| && Unreturned(s, s.calls[i]);
      var late := LateTwin(run, events);
      assert CallId(s, s.calls[i]) in Late(s);
    }
  }

  lemma {:induction false} SameReturned(s: State, t: State)
    requires SameClient(s, t)
    ensures AllReturned(s) <==> AllReturned(t)
  {
    assert forall i :: 0 <= i < |s.calls| ==> (Unreturned(t, t.calls[i]) <==> Unreturned(s, s.calls[i]));
  }

  // ---- the report of a run ----

  /** A row that counts as failed. */
  predicate FailedRow(c: Call) { !c.priming && !c.ok }

  function FailedRows(s: State): nat { Count(s.calls, FailedRow) }

  lemma {:induction false} NoFailedRow(calls: seq<Call>)
    ensures Count(calls, FailedRow) == 0 <==> forall i :: 0 <= i < |calls| ==> !FailedRow(calls[i])
  {
    if calls != [] { NoFailedRow(calls[..|calls| - 1]); }
  }

  predicate PastTry(c: Call) { c.pc in {Deleting, Removing, Leaving, Finished} }

  lemma {:induction false} FailsAtRaise(s: State, e: Event, i: nat)
    requires i < |Next(s, e).calls| && PastTry(Next(s, e).calls[i]) && !Next(s, e).calls[i].ok
    requires e != Raise(i) && !e.Interrupt?
    ensures i < |s.calls| && PastTry(s.calls[i]) && !s.calls[i].ok
  {
    hide Advanced, Raised, PastTry;
    match e {
      case Start(_, _, _, _, _) => NotPast(s, e);
      case Advance(a) => if a < |s.calls| { AdvancedTry(s, a); }
      case Raise(a) => if a < |s.calls| { RaisedCalls(s, a); }
      case Accept(_) =>
      case Refuse(_) =>
    }
  }

  lemma {:induction false} NotPast(s: State, e: Event)
    requires e.Start?
    ensures |Next(s, e).calls| == |s.calls| + 1 && !PastTry(Next(s, e).calls[|s.calls|])
  {
  }

  lemma {:induction false} AdvancedTry(s: State, a: nat)
    requires a < |s.calls|
    ensures var t := Advanced(s, a);
            && |t.calls| == |s.calls| && t.calls == s.calls[a := t.calls[a]]
            && (PastTry(t.calls[a]) && !t.calls[a].ok ==> PastTry(s.calls[a]) && !s.calls[a].ok)
  {
    hide Id;
    match s.calls[a].pc {
      case Waiting =>
      case Marking =>
      case Working =>
      case Finished => assert s.calls[a := s.calls[a]] == s.calls;
      case _ =>
    }
  }

  /** A row is not ok only if an exception or the interrupt hit its call. */
  lemma {:induction false} NotOkWasHit(run: string, events: seq<Event>, i: nat) returns (k: nat)
    requires i < |After(run, events).calls| && PastTry(After(run, events).calls[i]) && !After(run, events).calls[i].ok
    ensures k < |events| && (events[k] == Raise(i) || events[k].Interrupt?)
  {
    var front, last := events[..|events| - 1], events[|events| - 1];
    hide Next;
    if last == Raise(i) || last.Interrupt? {
      k := |events| - 1;
    } else {
      FailsAtRaise(After(run, front), last, i);
      k := NotOkWasHit(run, front, i);
    }
  }

  lemma {:induction false} AllRowsOk(s: State)
    requires FailedRows(s) == 0
    ensures forall i :: 0 <= i < |s.calls| && !s.calls[i].priming ==> s.calls[i].ok
  {
    NoFailedRow(s.calls);
    assert forall i :: 0 <= i < |s.calls| ==> !FailedRow(s.calls[i]);
  }

  predicate PrimingReturned(s: State)
  {
    forall i :: 0 <= i < |s.calls| && s.calls[i].priming ==> !Unreturned(s, s.calls[i])
  }

  /** Without a failed row every create but the priming one returned. */
  lemma {:induction false} OkRowsReturned(s: State)
    requires RepliesOk(s) && FailedRows(s) == 0
    ensures AllReturned(s) <==> PrimingReturned(s)
  {
    hide Id, Count;
    NoFailedRow(s.calls);
    forall i | 0 <= i < |s.calls| && !s.calls[i].priming ensures !Unreturned(s, s.calls[i]) {
      assert ReplyOk(s.calls[i], FateOf(s, s.calls[i])) && !FailedRow(s.calls[i]);
    }
  }

  /** What else the scenario puts in its section: whether it measured enough, failed calls it counts besides rows, the
      failed rows it still has after an interrupt, whether it raised, and other fields. */
  datatype Findings = Findings(measured: bool, others: nat, partial: nat, raised: bool, fields: map<string, Reports.Json>)

  function CountedFailures(s: State, f: Findings): nat
  {
    if s.interrupted then f.partial else FailedRows(s) + f.others
  }

  /** The section of the scenario's metric; park has no `n_failed`. */
  function SectionFields(scenario: string, s: State, f: Findings): map<string, Reports.Json>
  {
    var m := f.fields["status" := Reports.Str(if f.measured then "measured" else "failed")];
    if scenario == "park" then m else m["n_failed" := Reports.Int(CountedFailures(s, f))]
  }

  /** An interrupt and an exception are errors; park raises when its create failed. */
  function LiveErrors(scenario: string, s: State, f: Findings): seq<Reports.Json>
  {
    if s.interrupted then [Reports.Str("interrupted")]
    else if f.raised || (scenario == "park" && FailedRows(s) > 0) then [Reports.Str("error")]
    else []
  }

  function LiveReport(scenario: string, s: State, f: Findings, now: string): Reports.Report
    requires Reports.MetricOf(Reports.Str(scenario)).Some?
  {
    var key := Reports.MetricOf(Reports.Str(scenario)).value;
    Reports.NewReport(s.run, scenario, map[], now).(
      metrics := Some(Reports.DefaultMetrics()[key := Reports.Obj(SectionFields(scenario, s, f))]),
      errors := Reports.List(LiveErrors(scenario, s, f)))
  }

  lemma {:induction false} SectionKeys(scenario: string, s: State, f: Findings)
    ensures var m := SectionFields(scenario, s, f);
            && Reports.Get(m, "status") == Reports.Str(if f.measured then "measured" else "failed") && "status" in m
            && (scenario != "park" ==> Reports.Get(m, "n_failed") == Reports.Int(CountedFailures(s, f)))
            && (f.fields == map[] && scenario == "park" ==> Reports.Get(m, "n_failed") == Reports.Null)
  {
    assert |"status"| == 6 && |"n_failed"| == 8;
  }

  lemma {:induction false} StatusTexts()
    ensures "measured" != "failed" && "measured" != "not_run" && "failed" != "not_run" && "measured" != "external"
  {
    assert |"measured"| == 8 && |"failed"| == 6 && |"not_run"| == 7;
    assert "measured"[0] == 'm' && "external"[0] == 'e';
  }

  /** A live report can be finalised; without failure and error it has no failed row. */
  lemma {:induction false} LiveReportFacts(scenario: string, s: State, f: Findings, now: string)
    requires Reports.MetricOf(Reports.Str(scenario)).Some?
    ensures var r := LiveReport(scenario, s, f, now);
            && Reports.Finalizable(r) && r.errors == Reports.List(LiveErrors(scenario, s, f))
            && (Reports.Failed(r) <==> !f.measured || Reports.Truthy(Reports.Get(SectionFields(scenario, s, f), "n_failed")))
            && (!Reports.Failed(r) && r.errors.items == [] ==> !s.interrupted && FailedRows(s) == 0)
  {
    hide FailedRows, SectionFields, Reports.MetricOf, Reports.DefaultMetrics;
    SectionKeys(scenario, s, f);
    StatusTexts();
  }

  /** A report with nothing but measured rows passes. */
  lemma {:induction false} LiveReportPasses(scenario: string, s: State, f: Findings, now: string)
    requires Reports.MetricOf(Reports.Str(scenario)).Some? && s.run != "" && now != ""
    requires f == Findings(true, 0, 0, false, map[]) && !s.interrupted && FailedRows(s) == 0
    ensures var r := LiveReport(scenario, s, f, now);
            Reports.Finalizable(r) && Reports.Valid(r) && !Reports.Failed(r) && r.errors.items == []
  {
    hide Reports.MetricOf, Reports.SectionOk, SectionFields, FailedRows, Reports.DefaultMetrics, Reports.Finalizable,
         Reports.Failed, Reports.Valid;
    LiveReportFacts(scenario, s, f, now);
    SectionKeys(scenario, s, f);
    var m, key := SectionFields(scenario, s, f), Reports.MetricOf(Reports.Str(scenario)).value;
    MetricClient(scenario);
    MeasuredSection(key, scenario, s, f);
    Reports.NewReportValid(s.run, scenario, map[], now);
    WithSection(Reports.NewReport(s.run, scenario, map[], now), Reports.DefaultMetrics(), key, Reports.Obj(m));
  }

  lemma {:induction false} WithSection(r: Reports.Report, metrics: map<Reports.Metric, Reports.Json>, key: Reports.Metric,
                                       section: Reports.Json)
    requires Reports.Valid(r) && r.metrics == Some(metrics) && !key.Other? && Reports.SectionOk(key, section)
    ensures Reports.Valid(r.(metrics := Some(metrics[key := section]), errors := Reports.List([])))
  {
    hide Reports.SectionOk, Reports.MetricOf;
  }

  lemma {:induction false} MetricClient(scenario: string)
    ensures var key := Reports.MetricOf(Reports.Str(scenario));
            key.Some? ==> !Reports.External(key.value) && key.value != Reports.Fork && !key.value.Other?
  {
  }

  lemma {:induction false} MeasuredSection(key: Reports.Metric, scenario: string, s: State, f: Findings)
    requires !Reports.External(key) && key != Reports.Fork && f.measured && f.fields == map[]
    ensures Reports.SectionOk(key, Reports.Obj(SectionFields(scenario, s, f)))
  {
    var m := SectionFields(scenario, s, f);
    SectionKeys(scenario, s, f);
    StatusTexts();
    assert |"n"| == 1 && |"status"| == 6 && |"n_failed"| == 8 && |"unsupported"| == 11 && |"measured"| == 8;
    assert Reports.SUMMARY_KEYS[0] == "n" && "n" !in m;
    assert !Reports.IsSummary(m);
  }

  // ---- cleanup and the final report ----

  /** The threads have been joined. */
  predicate Joined(s: State)
  {
    forall i :: 0 <= i < |s.calls| ==> s.calls[i].pc == Finished
  }

  datatype Answer = Gone | Transient | Fatal

  /** What the environment does before and at one service call: creates decided late, the answer to a delete,
      whether an inventory read works, sandboxes of other owners in it, and the interrupt. */
  datatype Moment = Moment(accepted: set<string>, refused: set<string>, answer: Answer, readable: bool,
                           others: set<string>, interrupt: bool)

  datatype Ending = Done | Failed | Interrupted

  /** The service does nothing of its own, deletes and lists. */
  const REST: Moment := Moment({}, {}, Gone, true, {}, false)

  /** What exists after further moments. */
  ghost function Later(existing: set<string>, requests: set<string>, later: seq<Moment>): set<string>
    decreases later
  {
    if later == [] then existing
    else Later(existing + requests * later[0].accepted, requests - later[0].accepted - later[0].refused, later[1..])
  }

  lemma {:induction false} NothingLater(existing: set<string>, later: seq<Moment>)
    ensures Later(existing, {}, later) == existing
  {
    if later != [] {
      assert existing + {} * later[0].accepted == existing && {} - later[0].accepted - later[0].refused == {};
      NothingLater(existing, later[1..]);
    }
  }

  /** The ids not yet deleted. */
  function Pending(owned: map<string, Ownership>): set<string>
  {
    set id | id in owned && owned[id] != Deleted
  }

  class Cleaner {
    var owned: map<string, Ownership>
    var requests: set<string>
    var existing: set<string>
    /** The last inventory read. */
    var listed: Option<set<string>>
    var tick: nat
    const world: nat -> Moment

    constructor (s: State, world: nat -> Moment)
      ensures owned == s.owned && requests == s.requests && existing == s.existing && this.world == world && tick == 0
    {
      owned, requests, existing, listed, tick := s.owned, s.requests, s.existing, None, 0;
      this.world := world;
    }

    /** The service rests from a tick on. */
    ghost predicate Rests(t: nat)
      reads this
    {
      forall k: nat :: k >= t ==> world(k) == REST
    }

    /** Time passes up to the next service call. */
    method Pass() returns (m: Moment)
      modifies this`tick, this`requests, this`existing
      ensures m == world(old(tick)) && tick == old(tick) + 1
      ensures requests == old(requests) - m.accepted - m.refused
      ensures existing == old(existing) + old(requests) * m.accepted
    {
      m := world(tick);
      tick := tick + 1;
      existing := existing + requests * m.accepted;
      requests := requests - m.accepted - m.refused;
    }

    /** delete_one: retries transient answers until the deadline, after `patience` of them. */
    method DeleteOne(id: string, patience: nat) returns (ending: Ending)
      requires id in owned
      modifies this
      ensures owned == if ending == Done then old(owned)[id := Deleted] else old(owned)
      ensures old(tick) < tick <= old(tick) + patience + 1 && requests <= old(requests)
      ensures forall k: nat :: old(tick) <= k < tick - 1 ==> world(k).answer == Transient && !world(k).interrupt
      ensures var last := world(tick - 1);
              ending == if last.interrupt then Interrupted
                        else if last.answer == Gone then Done
                        else Failed
      ensures ending == Failed ==> world(tick - 1).answer == Fatal || tick == old(tick) + patience + 1
      ensures Rests(old(tick)) ==> ending == Done && requests == old(requests) && existing == old(existing) - {id}
    {
      var attempt := 0;
      while true
        invariant owned == old(owned) && attempt <= patience && tick == old(tick) + attempt && requests <= old(requests)
        invariant forall k: nat :: old(tick) <= k < tick ==> world(k).answer == Transient && !world(k).interrupt
        invariant Rests(old(tick)) ==> attempt == 0 && requests == old(requests) && existing == old(existing)
        decreases patience - attempt
      {
        var m := Pass();
        if m.interrupt { return Interrupted; }
        if m.answer == Fatal || (m.answer == Transient && attempt == patience) { return Failed; }
        if m.answer == Gone { break; }
        attempt := attempt + 1;
      }
      existing := existing - {id};
      owned := owned[id := Deleted];
      ending := Done;
    }

    /** The sweep over the ids not yet deleted; counts the deletes that failed. */
    method Sweep(patience: nat) returns (errors: nat, ending: Ending)
      modifies this
      ensures owned.Keys == old(owned).Keys
      ensures forall id :: id in owned ==> owned[id] == old(owned)[id] || owned[id] == Deleted
      ensures ending == Done || ending == Interrupted
      ensures ending == Done ==> errors == |Pending(owned)| && tick >= old(tick) + |Pending(old(owned))|
      ensures ending == Done ==> (errors == 0 <==> forall id :: id in owned ==> owned[id] == Deleted)
      ensures ending == Interrupted ==> tick > old(tick) && world(tick - 1).interrupt
      ensures old(tick) <= tick && requests <= old(requests)
      ensures Rests(old(tick)) ==> ending == Done && errors == 0 && requests == old(requests)
      ensures Rests(old(tick)) ==> existing <= old(existing)
      ensures Rests(old(tick)) ==> forall id :: id in old(owned) && old(owned)[id] != Deleted ==> id !in existing
    {
      errors, ending := 0, Done;
      var pending := Pending(owned);
      while pending != {}
        invariant owned.Keys == old(owned).Keys && pending <= Pending(owned) && errors == |Pending(owned)| - |pending|
        invariant tick >= old(tick) + |Pending(old(owned))| - |pending|
        invariant forall id :: id in owned ==> owned[id] == old(owned)[id] || owned[id] == Deleted
        invariant forall id :: id in pending ==> owned[id] != Deleted
        invariant errors == 0 <==> forall id :: id in owned && id !in pending ==> owned[id] == Deleted
        invariant old(tick) <= tick && requests <= old(requests)
        invariant Rests(old(tick)) ==> errors == 0 && requests == old(requests) && existing <= old(existing)
        invariant Rests(old(tick)) ==>
                    forall id :: id in old(owned) && old(owned)[id] != Deleted && id !in pending ==> id !in existing
        decreases pending
      {
        var id :| id in pending;
        ghost var before := owned;
        var r := DeleteOne(id, patience);
        if r == Interrupted { return errors, Interrupted; }
        if r == Failed { errors := errors + 1; } else { assert Pending(owned) == Pending(before) - {id}; }
        pending := pending - {id};
      }
    }

    /** Reads the inventory until no owned id is listed, the read fails or the deadline passes. */
    method AwaitAbsent(patience: nat) returns (remaining: set<string>, failed: bool, ending: Ending)
      modifies this`tick, this`requests, this`existing, this`listed
      ensures ending == Done || ending == Interrupted
      ensures ending == Done && !failed ==> (remaining == {} <==> Absent())
      ensures ending == Done && !failed && owned != map[] ==> listed.Some? && remaining == owned.Keys * listed.value
      ensures ending == Done && !failed && remaining != {} ==> tick == old(tick) + patience + 1
      ensures failed ==> tick > old(tick) && !world(tick - 1).readable
      ensures ending == Interrupted ==> tick > old(tick) && world(tick - 1).interrupt
      ensures old(tick) <= tick && requests <= old(requests)
      ensures Rests(old(tick)) && owned.Keys !! old(existing) ==>
                ending == Done && !failed && remaining == {} && requests == old(requests)
    {
      remaining, failed, ending := {}, false, Done;
      var polls := 0;
      while owned != map[]
        invariant polls <= patience && tick == old(tick) + polls
        invariant ending == Done && !failed && old(tick) <= tick && requests <= old(requests)
        invariant Rests(old(tick)) && owned.Keys !! old(existing) ==>
                    polls == 0 && requests == old(requests) && existing == old(existing)
        invariant if polls == 0 then remaining == {} else owned != map[]
        decreases patience - polls
      {
        var m := Pass();
        if m.interrupt { return remaining, failed, Interrupted; }
        if !m.readable {
          failed := true;
          break;
        }
        listed := Some(existing + m.others);
        remaining := owned.Keys * listed.value;
        Disjoint(owned.Keys, listed.value);
        if remaining == {} || polls == patience { break; }
        polls := polls + 1;
      }
    }

    /** No owned id is in the last inventory, nor did one exist when it was read. */
    ghost predicate Absent()
      reads this
    {
      owned != map[] ==> listed.Some? && existing <= listed.value && owned.Keys !! listed.value
    }

    ghost predicate AllGone()
      reads this
    {
      (forall id :: id in owned ==> owned[id] == Deleted) && Absent()
    }

    /** The cleanup_errors of the report; the texts are the only thing abstracted. */
    method Cleanup(patience: nat)
      returns (cleanupErrors: seq<Reports.Json>, unreadable: bool, interrupted: bool)
      modifies this
      ensures owned.Keys == old(owned).Keys
      ensures forall id :: id in owned ==> owned[id] == old(owned)[id] || owned[id] == Deleted
      ensures interrupted ==> cleanupErrors != []
      ensures !interrupted ==> (cleanupErrors == [] <==> AllGone() && !unreadable)
      ensures requests <= old(requests)
      ensures Rests(old(tick)) && (forall id :: id in old(owned) && old(owned)[id] == Deleted ==> id !in old(existing)) ==>
                cleanupErrors == [] && !interrupted && requests == old(requests)
    {
      var errors, ending := Sweep(patience);
      var remaining: set<string> := {};
      unreadable := false;
      if ending == Done {
        remaining, unreadable, ending := AwaitAbsent(patience);
      }
      cleanupErrors := [];
      if ending == Interrupted { return [Reports.Str("cleanup aborted")], unreadable, true; }
      if errors > 0 { cleanupErrors := cleanupErrors + [Reports.Str("delete")]; }
      if unreadable { cleanupErrors := cleanupErrors + [Reports.Str("cleanup inventory")]; }
      if remaining != {} { cleanupErrors := cleanupErrors + [Reports.Str("owned sandboxes remain after cleanup")]; }
      interrupted := false;
    }

    /** The end of run_live: clean up, finalise, and finalise again if the report does not validate. */
    method Finish(report: Reports.Report, interrupted: bool, now: string, patience: nat)
      returns (final: Reports.Report, clean: bool)
      requires Reports.Finalizable(report) && report.errors.List?
      modifies this
      ensures owned.Keys == old(owned).Keys
      ensures forall id :: id in owned ==> owned[id] == old(owned)[id] || owned[id] == Deleted
      ensures clean ==> AllGone()
      ensures final.ok == Reports.Bool(true) ==>
                clean && !interrupted && Reports.Valid(final) && !Reports.Failed(report) && report.errors.items == []
      ensures requests <= old(requests)
      ensures Rests(old(tick)) && (forall id :: id in old(owned) && old(owned)[id] == Deleted ==> id !in old(existing)) ==>
                clean && requests == old(requests)
      ensures clean && !interrupted && Reports.Valid(report) && !Reports.Failed(report) && report.errors.items == [] ==>
                final.ok == Reports.Bool(true)
      ensures final.ok.Bool? && (final.status == Reports.Str("ok") <==> final.ok == Reports.Bool(true))
    {
      hide Reports.Valid, Reports.Failed, Reports.Finalizable;
      var cleanupErrors, unreadable, aborted := Cleanup(patience);
      clean := cleanupErrors == [];
      var r := report.(cleanupErrors := Reports.List(cleanupErrors));
      StillFinalizable(report, r);
      if Reports.Valid(report) { StillValid(report, cleanupErrors, interrupted || aborted, now); }
      final := Reports.Finalize(r, interrupted || aborted, now);
      if !Reports.Valid(final) {
        r := r.(errors := Reports.List(report.errors.items + [Reports.Str("report validation")]));
        StillFinalizable(report, r);
        final := Reports.Finalize(r, interrupted || aborted, now);
      }
    }
  }

  lemma {:induction false} StillFinalizable(r: Reports.Report, t: Reports.Report)
    requires Reports.Finalizable(r) && t.metrics == r.metrics && t.scenario == r.scenario
    ensures Reports.Finalizable(t) && Reports.Failed(t) == Reports.Failed(r)
  {
  }

  lemma {:induction false} StillValid(r: Reports.Report, cleanupErrors: seq<Reports.Json>, interrupted: bool, now: string)
    requires Reports.Valid(r) && Reports.Finalizable(r.(cleanupErrors := Reports.List(cleanupErrors)))
    ensures Reports.Valid(Reports.Finalize(r.(cleanupErrors := Reports.List(cleanupErrors)), interrupted, now))
  {
    hide Reports.SectionOk, Reports.MetricOf, Reports.Finalize, Reports.Finalizable;
    Reports.FinalizeValid(r.(cleanupErrors := Reports.List(cleanupErrors)), interrupted, now);
  }

  /** A run, its cleanup and its report. "ok" means that no row failed, every id ever sent was deleted and none of them
      exists; if the priming create returned too, none of them can exist later. */
  method RunLive(run: string, scenario: string, events: seq<Event>, f: Findings, world: nat -> Moment, now: string,
                 patience: nat) returns (final: Reports.Report, cleaner: Cleaner)
    requires Joined(After(run, events)) && Reports.MetricOf(Reports.Str(scenario)).Some?
    ensures fresh(cleaner) && cleaner.owned.Keys == After(run, events).owned.Keys
    ensures forall k :: 0 <= k < |After(run, events).sent| ==> After(run, events).sent[k] in cleaner.owned
    ensures final.ok == Reports.Bool(true) ==>
              cleaner.AllGone() && !After(run, events).interrupted && FailedRows(After(run, events)) == 0
    ensures final.ok == Reports.Bool(true) ==>
              forall i :: 0 <= i < |After(run, events).calls| && !After(run, events).calls[i].priming ==>
                After(run, events).calls[i].ok
    ensures final.ok == Reports.Bool(true) && PrimingReturned(After(run, events)) ==>
              forall later :: cleaner.owned.Keys !! Later(cleaner.existing, cleaner.requests, later)
    ensures Passing(After(run, events)) && f == Findings(true, 0, 0, false, map[]) && (forall k :: world(k) == REST)
            && run != "" && now != "" && Clear(After(run, events)) ==>
              final.ok == Reports.Bool(true) && cleaner.requests == After(run, events).requests
  {
    hide Reports.Finalizable, Reports.Valid, Reports.Failed, Reports.MetricOf, After, LiveReport, Inv, RepliesOk, SendersOk,
         FailedRows, Unreturned;
    var s := After(run, events);
    SentIdsUniqueAndOwned(run, events);
    AfterRun(run, events);
    LiveReportFacts(scenario, s, f, now);
    if Passing(s) && f == Findings(true, 0, 0, false, map[]) && run != "" && now != "" {
      LiveReportPasses(scenario, s, f, now);
    }
    cleaner := new Cleaner(s, world);
    var clean;
    final, clean := cleaner.Finish(LiveReport(scenario, s, f, now), s.interrupted, now, patience);
    if FailedRows(s) == 0 { AllRowsOk(s); }
    if final.ok == Reports.Bool(true) && PrimingReturned(s) {
      EveryReply(run, events);
      OkRowsReturned(s);
      ReturnedDecided(s);
      assert cleaner.requests == {};
      forall later ensures cleaner.owned.Keys !! Later(cleaner.existing, cleaner.requests, later) {
        NothingLater(cleaner.existing, later);
      }
    }
  }

  /** A run whose report has nothing to fail it. */
  predicate Passing(s: State) { !s.interrupted && FailedRows(s) == 0 }

  /** No deleted sandbox exists. */
  ghost predicate Clear(s: State)
  {
    forall id :: id in s.owned && s.owned[id] == Deleted ==> id !in s.existing
  }

  lemma {:induction false} AfterRun(run: string, events: seq<Event>)
    ensures After(run, events).run == run
  {
    if events != [] {
      var front, last := events[..|events| - 1], events[|events| - 1];
      AfterRun(run, front);
      RunStays(After(run, front), last);
    }
  }

  lemma {:induction false} RunStays(s: State, e: Event)
    ensures Next(s, e).run == s.run
  {
    hide Id;
  }

  lemma {:induction false} Disjoint(a: set<string>, b: set<string>)
    ensures a * b == {} <==> a !! b
  {
    if a * b == {} {
      forall x | x in a ensures x !in b {
        assert x in a * b <==> x in b;
      }
    }
  }

  // ---- a report that is ok while a create can still succeed ----

  /** A sandbox that exists after it was deleted is one whose create never returned. */
  lemma {:induction false} DeletedPresent(s: State, id: string)
    requires Inv(s) && RepliesOk(s) && SendersOk(s) && id in s.owned && s.owned[id] == Deleted && id in s.existing
    ensures id in Late(s)
  {
    hide Id, Count, CallsOk, IndexesOk, CountsOk;
    assert id in s.requests + s.existing && id in s.sent;
    var i := SenderOf(s, id);
    assert ReplyOk(s.calls[i], FateOf(s, s.calls[i]));
    assert Unreturned(s, s.calls[i]);
  }

  lemma {:induction false} TwinClear(run: string, late: seq<Event>, s: State)
    requires SameClient(s, After(run, late)) && After(run, late).existing !! Late(s)
    ensures Clear(After(run, late))
  {
    hide After, Inv, RepliesOk, SendersOk;
    var t := After(run, late);
    EveryReply(run, late);
    assert Late(t) == Late(s);
    hide Late;
    forall id | id in t.owned && t.owned[id] == Deleted ensures id !in t.existing {
      if id in t.existing { DeletedPresent(t, id); }
    }
  }

  /** The condition is exact: if the priming create did not return, a run the client cannot tell apart reports ok, and a
      sandbox of it can exist later. */
  method PrimingLeaks(run: string, scenario: string, events: seq<Event>, now: string, patience: nat)
    returns (final: Reports.Report, cleaner: Cleaner, late: seq<Event>, ghost later: seq<Moment>)
    requires Joined(After(run, events)) && Passing(After(run, events)) && !PrimingReturned(After(run, events))
    requires Reports.MetricOf(Reports.Str(scenario)).Some? && run != "" && now != ""
    ensures SameClient(After(run, events), After(run, late))
    ensures final.ok == Reports.Bool(true) && cleaner.AllGone()
    ensures !(cleaner.owned.Keys !! Later(cleaner.existing, cleaner.requests, later))
  {
    hide Next, Reports.MetricOf, Id, Count;
    var s := After(run, events);
    late := Undecided(events, Late(s));
    EveryRun(run, events);
    LateUnreplied(s);
    DelayedRun(run, events, Late(s));
    TwinClear(run, late, s);
    hide After, Inv;
    final, cleaner := RunLive(run, scenario, late, Findings(true, 0, 0, false, map[]), k => REST, now, patience);
    later := [REST.(accepted := Late(s))];
    var i :| 0 <= i < |s.calls| && s.calls[i].priming && Unreturned(s, s.calls[i]);
    LeaksLater(s, After(run, late), cleaner.owned.Keys, cleaner.existing, cleaner.requests, i, later[0]);
    assert later[1..] == [];
  }

  lemma {:induction false} LeaksLater(s: State, t: State, owned: set<string>, existing: set<string>, requests: set<string>,
                                      i: nat, m: Moment)
    requires i < |s.calls| && Unreturned(s, s.calls[i]) && Delayed(s, t, Late(s)) && requests == t.requests
    requires m.accepted == Late(s) && forall k :: 0 <= k < |t.sent| ==> t.sent[k] in owned
    ensures !(owned !! existing + requests * m.accepted)
  {
    hide Id;
    var id := CallId(s, s.calls[i]);
    assert id in Late(s) && id in t.requests && id in t.sent;
    assert id in owned && id in existing + requests * m.accepted;
  }

  lemma {:induction false} Push(run: string, events: seq<Event>, s: State, e: Event) returns (more: seq<Event>, t: State)
    requires After(run, events) == s
    ensures more == events + [e] && t == Next(s, e) && After(run, more) == t
  {
    more, t := events + [e], Next(s, e);
    assert more[..|events|] == events;
  }

  /** The priming create of warm is sent, times out and its delete answers 404; then one measured create succeeds. */
  function WarmEvents(run: string): seq<Event>
  {
    [Start(false, true, true, true, "warm-prime"), Advance(0), Advance(0), Advance(0), Raise(0), Advance(0), Advance(0),
     Advance(0), Start(false, true, true, false, "warm"), Advance(1), Advance(1), Advance(1), Accept(Id(run, "warm", 1)),
     Advance(1), Advance(1), Advance(1), Advance(1), Advance(1), Advance(1)]
  }

  /** A finished priming create that did not return. */
  const PRIMED: Call := Fresh(false, true, true, true, "warm-prime").(pc := Finished, index := Some(0))

  const MEASURED: Call := Fresh(false, true, true, false, "warm").(index := Some(1))

  /** The priming create timed out; `calls` are the others. */
  ghost predicate Primed(run: string, s: State, calls: seq<Call>)
  {
    && s.run == run && s.counter == 1 + |calls| && !s.interrupted && s.calls == [PRIMED] + calls
    && Id(run, "warm-prime", 0) in s.sent && s.requests - {Id(run, "warm", 1)} == {Id(run, "warm-prime", 0)}
  }

  lemma {:induction false} PrimingSent(run: string) returns (events: seq<Event>, s: State)
    ensures events == WarmEvents(run)[..4] && After(run, events) == s
    ensures s.run == run && s.counter == 1 && !s.interrupted && s.calls == [PRIMED.(pc := Waiting)]
    ensures s.sent == [Id(run, "warm-prime", 0)] && s.requests == {Id(run, "warm-prime", 0)}
  {
    hide After, Id;
    events, s := [], Initial(run);
    EmptyRun(run);
    events, s := Push(run, events, s, Start(false, true, true, true, "warm-prime"));
    assert s.calls == [Fresh(false, true, true, true, "warm-prime")];
    events, s := Push(run, events, s, Advance(0));
    assert s.calls == [PRIMED.(pc := Owning)];
    events, s := Push(run, events, s, Advance(0));
    assert s.calls == [PRIMED.(pc := Sending)];
    events, s := Push(run, events, s, Advance(0));
    assert s.calls == [PRIMED.(pc := Waiting)];
  }

  lemma {:induction false} PrimingTimesOut(run: string) returns (events: seq<Event>, s: State)
    ensures events == WarmEvents(run)[..8] && After(run, events) == s && Primed(run, s, [])
  {
    hide After, Id;
    DistinctWarmIds(run);
    events, s := PrimingSent(run);
    assert s.sent[0] == Id(run, "warm-prime", 0);
    events, s := Push(run, events, s, Raise(0));
    assert s.calls == [PRIMED.(pc := Deleting)];
    events, s := Push(run, events, s, Advance(0));
    assert s.calls == [PRIMED.(pc := Removing)];
    events, s := Push(run, events, s, Advance(0));
    assert s.calls == [PRIMED.(pc := Leaving)];
    events, s := Push(run, events, s, Advance(0));
    assert s.calls == [PRIMED];
  }

  lemma {:induction false} EmptyRun(run: string)
    ensures After(run, []) == Initial(run)
  {
  }

  lemma {:induction false} DistinctWarmIds(run: string)
    ensures Id(run, "warm", 1) != Id(run, "warm-prime", 0)
  {
    hide Id;
    if Id(run, "warm", 1) == Id(run, "warm-prime", 0) {
      IdInjective(run, "warm", 1, "warm-prime", 0);
      assert false;
    }
  }

  lemma {:induction false} MeasuredAccepted(run: string, before: seq<Event>, s0: State) returns (events: seq<Event>, s: State)
    requires After(run, before) == s0 && Primed(run, s0, [])
    ensures events == before + WarmEvents(run)[8..13] && After(run, events) == s
    ensures Primed(run, s, [MEASURED.(pc := Waiting)]) && Id(run, "warm", 1) !in s.requests
  {
    hide After, Id;
    DistinctWarmIds(run);
    events, s := Push(run, before, s0, Start(false, true, true, false, "warm"));
    assert s.calls == [PRIMED, Fresh(false, true, true, false, "warm")];
    events, s := Push(run, events, s, Advance(1));
    assert s.calls == [PRIMED, MEASURED.(pc := Owning)];
    events, s := Push(run, events, s, Advance(1));
    assert s.calls == [PRIMED, MEASURED.(pc := Sending)];
    var sent := s.sent;
    events, s := Push(run, events, s, Advance(1));
    assert s.calls == [PRIMED, MEASURED.(pc := Waiting)] && s.sent == sent + [Id(run, "warm", 1)];
    assert Id(run, "warm", 1) in s.requests;
    events, s := Push(run, events, s, Accept(Id(run, "warm", 1)));
  }

  lemma {:induction false} MeasuredSucceeds(run: string, before: seq<Event>, s0: State) returns (events: seq<Event>, s: State)
    requires After(run, before) == s0
    requires Primed(run, s0, [MEASURED.(pc := Waiting)]) && Id(run, "warm", 1) !in s0.requests
    ensures events == before + WarmEvents(run)[13..] && After(run, events) == s
    ensures Primed(run, s, [MEASURED.(pc := Finished, replied := true, ok := true)])
  {
    hide After, Id;
    events, s := Push(run, before, s0, Advance(1));
    assert s.calls == [PRIMED, MEASURED.(pc := Marking, replied := true)];
    events, s := Push(run, events, s, Advance(1));
    assert s.calls == [PRIMED, MEASURED.(pc := Working, replied := true)];
    events, s := Push(run, events, s, Advance(1));
    assert s.calls == [PRIMED, MEASURED.(pc := Deleting, replied := true, ok := true)];
    events, s := Push(run, events, s, Advance(1));
    assert s.calls == [PRIMED, MEASURED.(pc := Removing, replied := true, ok := true)];
    events, s := Push(run, events, s, Advance(1));
    assert s.calls == [PRIMED, MEASURED.(pc := Leaving, replied := true, ok := true)];
    events, s := Push(run, events, s, Advance(1));
    assert s.calls == [PRIMED, MEASURED.(pc := Finished, replied := true, ok := true)];
  }

  lemma {:induction false} WarmRun(run: string)
    ensures var s := After(run, WarmEvents(run)); Joined(s) && Passing(s) && !PrimingReturned(s)
  {
    hide After, Id;
    var events, s := PrimingTimesOut(run);
    events, s := MeasuredAccepted(run, events, s);
    events, s := MeasuredSucceeds(run, events, s);
    assert events == WarmEvents(run);
    NoFailedRow(s.calls);
    assert s.calls[0] == PRIMED && Unreturned(s, s.calls[0]);
  }

  /** A warm run whose priming create timed out reports ok, and its sandbox can exist afterwards. */
  method WarmLeak(run: string, now: string) returns (final: Reports.Report, cleaner: Cleaner, ghost later: seq<Moment>)
    requires run != "" && now != ""
    ensures final.ok == Reports.Bool(true) && cleaner.AllGone()
    ensures !(cleaner.owned.Keys !! Later(cleaner.existing, cleaner.requests, later))
  {
    hide After, WarmEvents, Passing, PrimingReturned;
    WarmRun(run);
    var late;
    final, cleaner, late, later := PrimingLeaks(run, "warm", WarmEvents(run), now, 0);
  }
}
