/** The device slot pool of cmd_convert in scripts/chunk_store_gate_remote.py: a free
    list under a lock, shared by the threads of one executor. */
module SlotPool {
  import opened Decimals

  /** What one executor thread does under the lock; `raised` tells how a conversion ended. */
  datatype Event = Begin(worker: nat) | End(worker: nat, raised: bool)

  ghost predicate Distinct(s: seq<nat>)
  {
    forall i, j :: 0 <= i < j < |s| ==> s[i] != s[j]
  }

  ghost predicate Injective(m: map<nat, nat>)
  {
    forall a, b :: a in m && b in m && m[a] == m[b] ==> a == b
  }

  /** Free plus held slots are a permutation of 0 .. parallel-1, and workers are executor threads. */
  ghost predicate Permutation(parallel: nat, slots: seq<nat>, held: map<nat, nat>)
  {
    && Distinct(slots) && Injective(held)
    && (forall i :: 0 <= i < |slots| ==> slots[i] < parallel)
    && (forall w :: w in held ==> w < parallel && held[w] < parallel && held[w] !in slots)
    && |slots| + |held| == parallel
  }

  lemma {:induction false} BoundedSet(s: set<nat>, n: nat)
    requires forall x :: x in s ==> x < n
    ensures |s| <= n
  {
    if n > 0 {
      BoundedSet(s - {n - 1}, n - 1);
      if n - 1 in s { assert s == (s - {n - 1}) + {n - 1}; } else { assert s == s - {n - 1}; }
    } else {
      assert s == {};
    }
  }

  lemma {:induction false} Popped(parallel: nat, slots: seq<nat>, held: map<nat, nat>, worker: nat)
    requires Permutation(parallel, slots, held) && worker < parallel && worker !in held && slots != []
    ensures Permutation(parallel, slots[..|slots| - 1], held[worker := slots[|slots| - 1]])
  {
    var rest, slot := slots[..|slots| - 1], slots[|slots| - 1];
    assert slot in slots;
    DistinctPop(slots);
    hide Distinct;
    InjectiveAdd(held, worker, slot);
    hide Injective;
    forall w | w in held ensures held[w] !in rest { assert held[w] !in slots; }
  }

  lemma {:induction false} DistinctPop(slots: seq<nat>)
    requires Distinct(slots) && slots != []
    ensures Distinct(slots[..|slots| - 1]) && slots[|slots| - 1] !in slots[..|slots| - 1]
    ensures forall x :: x !in slots ==> x !in slots[..|slots| - 1]
  {
  }

  lemma {:induction false} InjectiveAdd(held: map<nat, nat>, worker: nat, slot: nat)
    requires Injective(held) && worker !in held && forall w :: w in held ==> held[w] != slot
    ensures Injective(held[worker := slot]) && |held[worker := slot]| == |held| + 1
  {
    assert held[worker := slot].Keys == held.Keys + {worker};
    assert |held[worker := slot].Keys| == |held.Keys| + 1;
  }

  lemma {:induction false} Returned(parallel: nat, slots: seq<nat>, held: map<nat, nat>, worker: nat)
    requires Permutation(parallel, slots, held) && worker in held
    ensures Permutation(parallel, slots + [held[worker]], held - {worker})
  {
    var slot, rest := held[worker], held - {worker};
    assert held.Keys == rest.Keys + {worker};
    DistinctPush(slots, slot);
    assert Injective(rest);
    forall w | w in rest ensures rest[w] !in slots + [slot] {
      assert rest[w] == held[w] && held[w] !in slots && held[w] != slot;
    }
    hide Distinct, Injective;
  }

  lemma {:induction false} DistinctPush(slots: seq<nat>, slot: nat)
    requires Distinct(slots) && slot !in slots
    ensures Distinct(slots + [slot])
  {
  }

  class Pool {
    const parallel: nat
    var slots: seq<nat>
    var held: map<nat, nat>

    ghost predicate Valid()
      reads this
    {
      Permutation(parallel, slots, held)
    }

    constructor (parallel: nat)
      ensures this.parallel == parallel && Valid() && held == map[]
      ensures slots == seq(parallel, i requires 0 <= i => i)
    {
      this.parallel := parallel;
      slots := seq(parallel, i requires 0 <= i => i);
      held := map[];
    }

    /** An idle thread of the executor never finds the list empty. */
    lemma {:induction false} PopNeverEmpty(worker: nat)
      requires Valid() && worker < parallel && worker !in held
      ensures slots != []
    {
      BoundedSet(held.Keys + {worker}, parallel);
      assert |held.Keys + {worker}| == |held| + 1;
    }

    /** Under the lock, before the conversion. */
    method Acquire(worker: nat) returns (slot: nat)
      requires Valid() && worker < parallel && worker !in held
      modifies this
      ensures Valid()
      ensures old(slots) == slots + [slot] && held == old(held)[worker := slot]
    {
      hide Permutation;
      PopNeverEmpty(worker);
      Popped(parallel, slots, held, worker);
      slot := slots[|slots| - 1];
      slots := slots[..|slots| - 1];
      held := held[worker := slot];
    }

    /** Under the lock, in the `finally` after the conversion, whether it raised or not. */
    method Release(worker: nat)
      requires Valid() && worker in held
      modifies this
      ensures Valid()
      ensures slots == old(slots) + [old(held)[worker]] && held == old(held) - {worker}
    {
      hide Permutation;
      Returned(parallel, slots, held, worker);
      var slot := held[worker];
      slots := slots + [slot];
      held := held - {worker};
    }

    /** Every interleaving: any sequence of begins and ends of the executor's threads. */
    method Interleave(schedule: seq<Event>)
      requires Valid()
      modifies this
      ensures Valid()
    {
      var i := 0;
      while i < |schedule|
        invariant 0 <= i <= |schedule| && Valid()
      {
        var event := schedule[i];
        if event.Begin? && event.worker < parallel && event.worker !in held {
          var slot := Acquire(event.worker);
        } else if event.End? && event.worker in held {
          Release(event.worker);
        }
        i := i + 1;
      }
    }

    /** Two conversions running at once never share a device or an owner. */
    lemma {:induction false} Exclusive(owner: string, perSlot: nat, a: nat, b: nat)
      requires Valid() && a in held && b in held && a != b
      ensures forall d :: d in Devices(held[a], perSlot) ==> d !in Devices(held[b], perSlot)
      ensures SlotOwner(owner, held[a]) != SlotOwner(owner, held[b])
    {
      DevicesDisjoint(held[a], held[b], perSlot);
      OwnersDistinct(owner, held[a], held[b]);
    }
  }

  // ---- what a slot stands for ----

  function Device(n: nat): string { "/dev/nbd" + Decimal(n) }

  /** slot_devices. */
  function Devices(slot: nat, perSlot: nat): (r: seq<string>)
    ensures |r| == perSlot
    ensures forall i :: 0 <= i < perSlot ==> r[i] == Device(slot * perSlot + i)
  {
    seq(perSlot, i requires 0 <= i < perSlot => Device(slot * perSlot + i))
  }

  function SlotOwner(owner: string, slot: nat): string { owner + ":" + Decimal(slot) }

  lemma {:induction false} DeviceInjective(a: nat, b: nat)
    requires Device(a) == Device(b)
    ensures a == b
  {
    assert Device(a)[8..] == Decimal(a) && Device(b)[8..] == Decimal(b);
    DecimalRoundTrip(a);
    DecimalRoundTrip(b);
  }

  lemma {:induction false} BlocksDisjoint(a: nat, b: nat, per: nat, i: nat, j: nat)
    requires a < b && i < per && j < per
    ensures a * per + i < b * per + j
  {
    assert b * per == (b - 1) * per + per;
    if a < b - 1 { BlocksDisjoint(a, b - 1, per, i, j); }
  }

  lemma {:induction false} DevicesDisjoint(a: nat, b: nat, perSlot: nat)
    requires a != b
    ensures forall d :: d in Devices(a, perSlot) ==> d !in Devices(b, perSlot)
  {
    hide Device, Devices;
    forall i, j | 0 <= i < perSlot && 0 <= j < perSlot
      ensures Devices(a, perSlot)[i] != Devices(b, perSlot)[j]
    {
      DeviceDistinct(a, b, perSlot, i, j);
    }
  }

  lemma {:induction false} DeviceDistinct(a: nat, b: nat, perSlot: nat, i: nat, j: nat)
    requires a != b && i < perSlot && j < perSlot
    ensures Device(a * perSlot + i) != Device(b * perSlot + j)
  {
    hide Device;
    if a < b { BlocksDisjoint(a, b, perSlot, i, j); } else { BlocksDisjoint(b, a, perSlot, j, i); }
    DifferentDevices(a * perSlot + i, b * perSlot + j);
  }

  lemma {:induction false} DifferentDevices(m: nat, n: nat)
    requires m != n
    ensures Device(m) != Device(n)
  {
    hide Device;
    if Device(m) == Device(n) {
      DeviceInjective(m, n);
      assert false;
    }
  }

  lemma {:induction false} OwnersDistinct(owner: string, a: nat, b: nat)
    requires a != b
    ensures SlotOwner(owner, a) != SlotOwner(owner, b)
  {
    var n := |owner| + 1;
    assert SlotOwner(owner, a)[n..] == Decimal(a) && SlotOwner(owner, b)[n..] == Decimal(b);
    DecimalRoundTrip(a);
    DecimalRoundTrip(b);
  }
}
