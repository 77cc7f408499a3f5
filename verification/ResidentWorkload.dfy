/** The guest workload of scripts/benchmark_sandbox_density.py: a dirty window that
    rotates through the resident pages, and check_identity over faulty guests. */
module ResidentWorkload {

  const PAGE: nat := 4096

  // ---- the rotating window ----

  /** How many of the first `n` touches fall on page `p`, when touch k falls on page k % pages. */
  ghost function Touches(n: nat, pages: nat, p: nat): nat
    requires pages > 0
  {
    if n == 0 then 0 else Touches(n - 1, pages, p) + if (n - 1) % pages == p then 1 else 0
  }

  lemma {:induction false} TouchesClosedForm(n: nat, pages: nat, p: nat)
    requires p < pages
    ensures Touches(n, pages, p) == n / pages + if p < n % pages then 1 else 0
  {
    if n > 0 {
      TouchesClosedForm(n - 1, pages, p);
      NextQuotient(n - 1, pages);
    } else {
      assert 0 / pages == 0 && 0 % pages == 0;
    }
  }

  lemma {:induction false} NextQuotient(n: nat, pages: nat)
    requires pages > 0
    ensures n % pages + 1 < pages ==> (n + 1) / pages == n / pages && (n + 1) % pages == n % pages + 1
    ensures n % pages + 1 == pages ==> (n + 1) / pages == n / pages + 1 && (n + 1) % pages == 0
  {
    var q, m := n / pages, n % pages;
    assert n == q * pages + m;
    if m + 1 < pages { QuotientUnique(n + 1, pages, q, m + 1); }
    else {
      assert (q + 1) * pages == q * pages + pages;
      QuotientUnique(n + 1, pages, q + 1, 0);
    }
  }

  lemma {:induction false} QuotientUnique(x: nat, d: nat, q: nat, m: nat)
    requires d > 0 && m < d && x == q * d + m
    ensures x / d == q && x % d == m
  {
    var q', m' := x / d, x % d;
    assert x == q' * d + m';
    if q' < q { Scale(q' + 1, q, d); }
    if q < q' { Scale(q + 1, q', d); }
  }

  lemma {:induction false} Scale(a: nat, b: nat, d: nat)
    requires a <= b
    ensures a * d <= b * d
  {
    assert (b - a) * d >= 0;
  }

  /** Any two pages' counts differ by at most one. */
  lemma {:induction false} TouchesBalanced(n: nat, pages: nat, p: nat, q: nat)
    requires p < pages && q < pages
    ensures -1 <= Touches(n, pages, p) - Touches(n, pages, q) <= 1
  {
    TouchesClosedForm(n, pages, p);
    TouchesClosedForm(n, pages, q);
  }

  /** A page is untouched only before the touches reach it; after `pages` touches none is. */
  lemma {:induction false} AllTouched(n: nat, pages: nat, p: nat)
    requires p < pages
    ensures Touches(n, pages, p) >= 1 <==> p < n
  {
    TouchesClosedForm(n, pages, p);
    if n < pages { QuotientUnique(n, pages, 0, n); }
    else { assert n / pages >= 1 by { QuotientPositive(n, pages); } }
  }

  lemma {:induction false} QuotientPositive(n: nat, d: nat)
    requires 0 < d <= n
    ensures n / d >= 1
  {
    assert n == (n / d) * d + n % d;
  }

  lemma {:induction false} ModStep(total: nat, pages: nat, j: nat)
    requires pages > 0
    ensures (total % pages + j) % pages == (total + j) % pages
  {
    var q := total / pages;
    var x := total % pages + j;
    assert total + j == q * pages + x;
    assert x == (x / pages) * pages + x % pages;
    assert (q + x / pages) * pages == q * pages + (x / pages) * pages;
    QuotientUnique(total + j, pages, q + x / pages, x % pages);
  }

  // ---- the memory image ----

  ghost predicate Bytes(m: seq<int>)
  {
    forall i :: 0 <= i < |m| ==> 0 <= m[i] < 256
  }

  function Lead(page: nat): nat { page * PAGE }

  function Bumped(m: seq<int>, at: nat): seq<int>
    requires at < |m|
  {
    m[at := (m[at] + 1) % 256]
  }

  lemma {:induction false} LeadInRange(page: nat, pages: nat)
    requires page < pages
    ensures Lead(page) < Lead(pages)
  {
  }

  /** One act: bump the first byte of `k` pages from touch `total` on, wrapping around. */
  function Dirtied(m: seq<int>, total: nat, k: nat, pages: nat): (r: seq<int>)
    requires pages > 0 && |m| == Lead(pages)
    ensures |r| == |m|
  {
    if k == 0 then m
    else
      var page := (total + k - 1) % pages;
      LeadInRange(page, pages);
      Bumped(Dirtied(m, total, k - 1, pages), Lead(page))
  }

  /** The image after the first `n` touches of `initial`. */
  ghost predicate IsImage(initial: seq<int>, n: nat, pages: nat, m: seq<int>)
    requires pages > 0
  {
    && |initial| == |m| == Lead(pages)
    && (forall i :: 0 <= i < |m| && i % PAGE != 0 ==> m[i] == initial[i])
    && (forall p :: 0 <= p < pages ==> Lead(p) < |m| && m[Lead(p)] == (initial[Lead(p)] + Touches(n, pages, p)) % 256)
  }

  lemma {:induction false} DirtiedImage(initial: seq<int>, n: nat, pages: nat, m: seq<int>, k: nat)
    requires pages > 0 && IsImage(initial, n, pages, m)
    ensures IsImage(initial, n + k, pages, Dirtied(m, n, k, pages))
  {
    if k > 0 {
      DirtiedImage(initial, n, pages, m, k - 1);
      var before := Dirtied(m, n, k - 1, pages);
      var page := (n + k - 1) % pages;
      BumpImage(initial, n + k - 1, pages, before);
    }
  }

  lemma {:induction false} LeadFacts(p: nat, q: nat)
    ensures Lead(p) % PAGE == 0
    ensures Lead(p) == Lead(q) ==> p == q
  {
  }

  lemma {:induction false} NextByte(x: int, y: int)
    requires x == y % 256
    ensures (x + 1) % 256 == (y + 1) % 256
  {
  }

  lemma {:induction false} BumpImage(initial: seq<int>, n: nat, pages: nat, m: seq<int>)
    requires pages > 0 && IsImage(initial, n, pages, m)
    ensures Lead(n % pages) < |m|
    ensures IsImage(initial, n + 1, pages, Bumped(m, Lead(n % pages)))
  {
    var page := n % pages;
    LeadInRange(page, pages);
    hide Lead;
    var r := Bumped(m, Lead(page));
    LeadFacts(page, page);
    forall p | 0 <= p < pages
      ensures Lead(p) < |r| && r[Lead(p)] == (initial[Lead(p)] + Touches(n + 1, pages, p)) % 256
    {
      LeadFacts(p, page);
      assert Touches(n + 1, pages, p) == Touches(n, pages, p) + if page == p then 1 else 0;
      NextByte(m[Lead(p)], initial[Lead(p)] + Touches(n, pages, p));
    }
  }

  /** The persistent process: `memory` is dirtied in place. */
  class Workload {
    const pages: nat
    const dirty: nat
    const memory: array<int>
    var counter: nat

    ghost predicate Valid()
      reads this
    {
      0 < dirty <= pages && memory.Length == Lead(pages)
    }

    constructor (pages: nat, dirty: nat, memory: array<int>)
      requires 0 < dirty <= pages && memory.Length == Lead(pages)
      ensures Valid() && counter == 0
      ensures this.pages == pages && this.dirty == dirty && this.memory == memory
    {
      this.pages, this.dirty, this.memory := pages, dirty, memory;
      counter := 0;
    }

    /** The `act` command's dirtying loop. */
    method Act() returns (startPage: nat)
      requires Valid()
      modifies this`counter, memory
      ensures Valid() && counter == old(counter) + 1
      ensures startPage == (old(counter) * dirty) % pages
      ensures memory[..] == Dirtied(old(memory[..]), old(counter) * dirty, dirty, pages)
    {
      ghost var total := counter * dirty;
      startPage := (counter * dirty) % pages;
      counter := counter + 1;
      var page := 0;
      while page < dirty
        invariant 0 <= page <= dirty && counter == old(counter) + 1
        invariant memory[..] == Dirtied(old(memory[..]), total, page, pages)
      {
        ModStep(total, pages, page);
        var at := (startPage + page) % pages;
        LeadInRange(at, pages);
        memory[Lead(at)] := (memory[Lead(at)] + 1) % 256;
        page := page + 1;
      }
    }
  }

  // ---- identity across faults ----

  datatype Guest = Guest(nonce: nat, pid: nat, pages: nat, dirty: nat, counter: nat, memory: seq<int>)

  ghost predicate Sized(g: Guest)
  {
    0 < g.dirty <= g.pages && |g.memory| == Lead(g.pages)
  }

  function Acted(g: Guest): (r: Guest)
    requires Sized(g)
    ensures Sized(r)
  {
    g.(counter := g.counter + 1, memory := Dirtied(g.memory, g.counter * g.dirty, g.dirty, g.pages))
  }

  ghost function ActedTimes(g: Guest, n: nat): (r: Guest)
    requires Sized(g)
    ensures Sized(r) && r.counter == g.counter + n
  {
    if n == 0 then g else Acted(ActedTimes(g, n - 1))
  }

  lemma {:induction false} ActedTimesAdds(g: Guest, m: nat, n: nat)
    requires Sized(g)
    ensures ActedTimes(ActedTimes(g, m), n) == ActedTimes(g, m + n)
  {
    if n > 0 { ActedTimesAdds(g, m, n - 1); }
  }

  /** What can happen to a guest: a replacement process with a fresh nonce, a return
      to any earlier state, or an act executed once more. */
  datatype Fault = Restart(replacement: Guest) | Rollback(index: nat) | Replay

  /** The running guest, every state there has been, and each nonce's first state. */
  datatype World = World(now: Guest, past: seq<Guest>, births: map<nat, Guest>)

  ghost predicate FromBirth(w: World, g: Guest)
  {
    g.nonce in w.births && Sized(w.births[g.nonce]) && g == ActedTimes(w.births[g.nonce], g.counter)
  }

  ghost predicate Lawful(w: World)
  {
    && FromBirth(w, w.now)
    && (forall i :: 0 <= i < |w.past| ==> FromBirth(w, w.past[i]))
    && (forall n :: n in w.births ==> w.births[n].nonce == n && w.births[n].counter == 0)
  }

  function Become(w: World, g: Guest): World
  {
    w.(now := g, past := w.past + [w.now])
  }

  /** A fault; one that cannot happen (a used nonce, no such state) leaves the world as it is. */
  ghost function Faulted(w: World, f: Fault): World
    requires Lawful(w)
  {
    match f
    case Restart(g) =>
      if g.nonce !in w.births && g.counter == 0 && Sized(g) then Become(w, g).(births := w.births[g.nonce := g]) else w
    case Rollback(i) => if i < |w.past| then Become(w, w.past[i]) else w
    case Replay => assert Sized(w.now); Become(w, Acted(w.now))
  }

  lemma {:induction false} FaultKeepsLaw(w: World, f: Fault)
    requires Lawful(w)
    ensures Lawful(Faulted(w, f))
    ensures forall n :: n in w.births ==> n in Faulted(w, f).births && Faulted(w, f).births[n] == w.births[n]
  {
  }

  ghost function FaultedAll(w: World, faults: seq<Fault>): (r: World)
    requires Lawful(w)
    ensures Lawful(r)
    ensures forall n :: n in w.births ==> n in r.births && r.births[n] == w.births[n]
    decreases |faults|
  {
    if faults == [] then w
    else
      FaultKeepsLaw(w, faults[0]);
      FaultedAll(Faulted(w, faults[0]), faults[1..])
  }

  /** Requested act number i: any faults, then the act, whose reply is observed. */
  ghost function Requested(w: World, faults: seq<Fault>): (r: World)
    requires Lawful(w)
    ensures Lawful(r)
    ensures forall n :: n in w.births ==> n in r.births && r.births[n] == w.births[n]
  {
    FaultKeepsLaw(FaultedAll(w, faults), Replay);
    Faulted(FaultedAll(w, faults), Replay)
  }

  /** check_identity(..., advanced=True) on two observed guests. */
  predicate CheckAdvanced(before: Guest, after: Guest)
  {
    && after.nonce == before.nonce && after.pid == before.pid
    && after.pages == before.pages && after.dirty == before.dirty
    && after.counter == before.counter + 1
  }

  ghost predicate AllChecksPass(w: World, requests: seq<seq<Fault>>)
    requires Lawful(w)
    decreases |requests|
  {
    requests == [] ||
    var next := Requested(w, requests[0]);
    CheckAdvanced(w.now, next.now) && AllChecksPass(next, requests[1..])
  }

  ghost function AfterAll(w: World, requests: seq<seq<Fault>>): (r: World)
    requires Lawful(w)
    ensures Lawful(r)
    decreases |requests|
  {
    if requests == [] then w else AfterAll(Requested(w, requests[0]), requests[1..])
  }

  /** One passed check: the guest is the one that ran the act once, faults or not. */
  lemma {:induction false} CheckedActIsExact(w: World, faults: seq<Fault>)
    requires Lawful(w) && CheckAdvanced(w.now, Requested(w, faults).now)
    ensures Requested(w, faults).now == Acted(w.now)
  {
    var next := Requested(w, faults);
    var birth := w.births[w.now.nonce];
    assert FromBirth(next, next.now) && next.births[w.now.nonce] == birth;
    ActedTimesAdds(birth, w.now.counter, 1);
    assert ActedTimes(w.now, 1) == Acted(ActedTimes(w.now, 0));
  }

  /** If every check passes, n requested acts leave exactly the state of n acts on the
      first guest: same nonce and process, counter advanced by n, memory included. */
  lemma {:induction false} ChecksImplyFaultFreeState(w: World, requests: seq<seq<Fault>>)
    requires Lawful(w) && AllChecksPass(w, requests)
    ensures Sized(w.now) && AfterAll(w, requests).now == ActedTimes(w.now, |requests|)
    decreases |requests|
  {
    if requests != [] {
      CheckedActIsExact(w, requests[0]);
      ChecksImplyFaultFreeState(Requested(w, requests[0]), requests[1..]);
      ActedTimesAdds(w.now, 1, |requests| - 1);
      assert ActedTimes(w.now, 1) == Acted(ActedTimes(w.now, 0));
    }
  }

  /** The memory of a guest that acted n times is the image after n * dirty touches. */
  lemma {:induction false} ActedImage(g: Guest, n: nat)
    requires Sized(g) && g.counter == 0 && Bytes(g.memory)
    ensures IsImage(g.memory, n * g.dirty, g.pages, ActedTimes(g, n).memory)
  {
    hide IsImage, Sized, Lead, Dirtied;
    if n > 0 {
      ActedImage(g, n - 1);
      SameShape(g, n - 1);
      assert n * g.dirty == (n - 1) * g.dirty + g.dirty;
      ActedStep(g.memory, ActedTimes(g, n - 1), (n - 1) * g.dirty);
    } else {
      FreshImage(g);
    }
  }

  lemma {:induction false} ActedStep(initial: seq<int>, h: Guest, total: nat)
    requires Sized(h) && h.counter * h.dirty == total && IsImage(initial, total, h.pages, h.memory)
    ensures IsImage(initial, total + h.dirty, h.pages, Acted(h).memory)
  {
    DirtiedImage(initial, total, h.pages, h.memory, h.dirty);
  }

  lemma {:induction false} FreshImage(g: Guest)
    requires Sized(g) && Bytes(g.memory)
    ensures IsImage(g.memory, 0, g.pages, g.memory)
  {
    forall p | 0 <= p < g.pages ensures Lead(p) < |g.memory| {
      LeadInRange(p, g.pages);
    }
  }

  lemma {:induction false} SameShape(g: Guest, n: nat)
    requires Sized(g)
    ensures ActedTimes(g, n).pages == g.pages && ActedTimes(g, n).dirty == g.dirty
  {
    if n > 0 { SameShape(g, n - 1); }
  }
}
