/** NodeApi.probe of scripts/benchmark_sandbox_density.py: reading an exec session's
    output by pages of events while its status changes. */
module EventDrain {
  import opened Wrappers

  datatype Stream = Stdout | Stderr | Exit | Other

  datatype Event = Event(sequence: int, stream: Stream, data: string)

  datatype Status = Active | Terminal

  /** One reply of the event endpoint; `session` is None once the node forgot it. */
  datatype Reply = Page(events: seq<Event>, session: Option<Status>) | HttpError

  datatype Reason = Timeout | Raised | Disappeared | Gap | NoExit

  datatype Outcome = Drained(stdout: string, stderr: string, last: nat) | Failed(reason: Reason)

  /** The node's answer to poll number i asking for events after a given sequence. */
  type Endpoint = (nat, nat) -> Reply

  /** The session's true history: event k carries sequence k + 1. */
  ghost predicate Numbered(history: seq<Event>)
  {
    forall k :: 0 <= k < |history| ==> history[k].sequence == k + 1
  }

  /** Whatever the paging, an event returned is the one of that sequence. */
  ghost predicate Genuine(node: Endpoint, history: seq<Event>)
  {
    forall i: nat, after: nat :: node(i, after).Page? ==>
      forall j :: 0 <= j < |node(i, after).events| ==>
        var e := node(i, after).events[j];
        1 <= e.sequence <= |history| && e == history[e.sequence - 1]
  }

  /** A page continues the history from where the reader is. */
  ghost predicate Contiguous(node: Endpoint, history: seq<Event>)
  {
    forall i: nat, after: nat :: node(i, after).Page? && after <= |history| ==>
      && after + |node(i, after).events| <= |history|
      && node(i, after).events == history[after..after + |node(i, after).events|]
  }

  /** The session neither disappears nor stalls: unread events are returned. */
  ghost predicate Serving(node: Endpoint, history: seq<Event>)
  {
    forall i: nat, after: nat ::
      && node(i, after).Page? && node(i, after).session.Some?
      && (after < |history| ==> node(i, after).events != [])
  }

  function Joined(events: seq<Event>, stream: Stream): string
  {
    if events == [] then ""
    else Joined(events[..|events| - 1], stream)
         + if events[|events| - 1].stream == stream then events[|events| - 1].data else ""
  }

  lemma {:induction false} JoinedNext(history: seq<Event>, n: nat, stream: Stream)
    requires n < |history|
    ensures Joined(history[..n + 1], stream)
         == Joined(history[..n], stream) + if history[n].stream == stream then history[n].data else ""
  {
    assert history[..n + 1][..n] == history[..n];
  }

  ghost predicate HasExit(history: seq<Event>, n: nat)
  {
    exists k :: 0 <= k < n <= |history| && history[k].stream == Exit
  }

  /** What the reader holds after consuming events 1 .. after. */
  ghost predicate Read(history: seq<Event>, after: nat, output: string, errors: string, sawExit: bool)
  {
    && after <= |history|
    && output == Joined(history[..after], Stdout)
    && errors == Joined(history[..after], Stderr)
    && (sawExit <==> HasExit(history, after))
  }

  lemma {:induction false} ReadNext(history: seq<Event>, after: nat, output: string, errors: string, sawExit: bool)
    requires after < |history| && Read(history, after, output, errors, sawExit)
    ensures var e := history[after];
            Read(history, after + 1, output + (if e.stream == Stdout then e.data else ""),
                 errors + (if e.stream == Stderr then e.data else ""), sawExit || e.stream == Exit)
  {
    JoinedNext(history, after, Stdout);
    JoinedNext(history, after, Stderr);
  }

  /** The loop over one page; `gap` when a sequence is not the next one. */
  method Consume(events: seq<Event>, after0: nat, output0: string, errors0: string, sawExit0: bool,
                 ghost history: seq<Event>)
    returns (gap: bool, after: nat, output: string, errors: string, sawExit: bool)
    requires Numbered(history)
    requires forall j :: 0 <= j < |events| ==>
               1 <= events[j].sequence <= |history| && events[j] == history[events[j].sequence - 1]
    requires Read(history, after0, output0, errors0, sawExit0)
    ensures Read(history, after, output, errors, sawExit)
    ensures !gap ==> after == after0 + |events|
    ensures gap <==> !(after0 + |events| <= |history| && events == history[after0..after0 + |events|])
  {
    gap, after, output, errors, sawExit := false, after0, output0, errors0, sawExit0;
    var j := 0;
    while j < |events|
      invariant 0 <= j <= |events| && after == after0 + j <= |history| && !gap
      invariant Read(history, after, output, errors, sawExit)
      invariant forall k :: 0 <= k < j ==> events[k] == history[after0 + k]
    {
      var event := events[j];
      if event.sequence != after + 1 {
        gap := true;
        if after0 + |events| <= |history| {
          assert history[after0..after0 + |events|][j] == history[after];
        }
        return;
      }
      ReadNext(history, after, output, errors, sawExit);
      after := event.sequence;
      match event.stream {
        case Stdout => output := output + event.data;
        case Stderr => errors := errors + event.data;
        case Exit => sawExit := true;
        case Other =>
      }
      j := j + 1;
    }
  }

  /** How many events the first `i` polls return, each asking after those of the polls before it. */
  ghost function Position(node: Endpoint, i: nat): nat
  {
    if i == 0 then 0
    else
      var after := Position(node, i - 1);
      after + if node(i - 1, after).Page? then |node(i - 1, after).events| else 0
  }

  ghost function Asked(node: Endpoint, i: nat): Reply { node(i, Position(node, i)) }

  /** The status the reader knows when it makes poll `i`. */
  ghost predicate KnownTerminal(status: Status, node: Endpoint, i: nat)
  {
    if i == 0 then status == Terminal else Asked(node, i - 1).Page? && Asked(node, i - 1).session == Some(Terminal)
  }

  /** How the probe ends at poll `i`, if it does. */
  ghost function Verdict(status: Status, node: Endpoint, history: seq<Event>, i: nat): Option<Outcome>
  {
    var reply, after, last := Asked(node, i), Position(node, i), Position(node, i + 1);
    if reply.HttpError? then Some(Failed(Raised))
    else if reply.session.None? then Some(Failed(Disappeared))
    else if !(last <= |history| && reply.events == history[after..last]) then Some(Failed(Gap))
    else if reply.session != Some(Terminal) then None
    else if HasExit(history, last) then
      Some(Drained(Joined(history[..last], Stdout), Joined(history[..last], Stderr), last))
    else if reply.events == [] && KnownTerminal(status, node, i) then Some(Failed(NoExit))
    else None
  }

  /** The whole history, with its exit event, is served in order. */
  ghost predicate Served(node: Endpoint, history: seq<Event>)
  {
    Contiguous(node, history) && Serving(node, history) && HasExit(history, |history|)
  }

  /** The session has ended by poll `k`. */
  ghost predicate EndedBy(node: Endpoint, k: nat)
  {
    forall i: nat, after: nat :: i >= k && node(i, after).Page? ==> node(i, after).session == Some(Terminal)
  }

  /** The first of `polls` polls with a verdict decides; without one the deadline passes. */
  ghost predicate Decided(status: Status, node: Endpoint, history: seq<Event>, polls: nat, r: Outcome)
  {
    || (r == Failed(Timeout) && NoVerdict(status, node, history, polls))
    || exists n: nat :: n < polls && NoVerdict(status, node, history, n) && Verdict(status, node, history, n) == Some(r)
  }

  ghost predicate NoVerdict(status: Status, node: Endpoint, history: seq<Event>, n: nat)
  {
    forall m: nat :: m < n ==> Verdict(status, node, history, m).None?
  }

  lemma {:induction false} PositionInside(status: Status, node: Endpoint, history: seq<Event>, n: nat)
    requires NoVerdict(status, node, history, n)
    ensures Position(node, n) <= |history|
  {
    if n > 0 { assert Verdict(status, node, history, n - 1).None?; }
  }

  /** Once the session has ended every poll reads on. */
  lemma {:induction false} Progress(status: Status, node: Endpoint, history: seq<Event>, k: nat, j: nat)
    requires NoVerdict(status, node, history, k + j) && Serving(node, history) && j <= |history|
    ensures Position(node, k + j) >= j
  {
    if j > 0 {
      Progress(status, node, history, k, j - 1);
      PositionInside(status, node, history, k + j);
      var after := Position(node, k + j - 1);
      assert node(k + j - 1, after).Page?;
    }
  }

  /** With enough polls after the end of the session there is a verdict. */
  lemma {:induction false} EndsInTime(status: Status, node: Endpoint, history: seq<Event>, polls: nat, k: nat)
    requires Serving(node, history) && HasExit(history, |history|) && EndedBy(node, k) && k + |history| <= polls
    ensures !NoVerdict(status, node, history, polls)
  {
    var n := k + |history| - 1;
    if NoVerdict(status, node, history, n) {
      Progress(status, node, history, k, |history| - 1);
      PositionInside(status, node, history, n);
      assert node(n, Position(node, n)).Page?;
      assert Verdict(status, node, history, n).Some?;
    }
  }

  /** A node that serves the history in order is refused only by the deadline. */
  lemma {:induction false} ServedVerdict(status: Status, node: Endpoint, history: seq<Event>, n: nat)
    requires NoVerdict(status, node, history, n) && Contiguous(node, history)
    ensures Verdict(status, node, history, n) != Some(Failed(Gap))
    ensures Verdict(status, node, history, n) != Some(Failed(Timeout))
    ensures Served(node, history) ==>
              Verdict(status, node, history, n).None? || Verdict(status, node, history, n).value.Drained?
  {
    PositionInside(status, node, history, n);
    var after := Position(node, n);
    assert node(n, after).Page? ==>
        after + |node(n, after).events| <= |history|
        && node(n, after).events == history[after..after + |node(n, after).events|];
  }

  lemma {:induction false} GenuinePage(node: Endpoint, history: seq<Event>, i: nat, after: nat)
    requires Genuine(node, history) && node(i, after).Page?
    ensures forall j :: 0 <= j < |node(i, after).events| ==>
              var e := node(i, after).events[j];
              1 <= e.sequence <= |history| && e == history[e.sequence - 1]
  {
  }

  lemma {:induction false} KnownNext(status: Status, node: Endpoint, i: nat)
    ensures KnownTerminal(status, node, i + 1) <==> Asked(node, i).Page? && Asked(node, i).session == Some(Terminal)
  {
  }

  lemma {:induction false} NoneYet(status: Status, node: Endpoint, history: seq<Event>)
    ensures NoVerdict(status, node, history, 0) && (KnownTerminal(status, node, 0) <==> status == Terminal)
  {
  }

  lemma {:induction false} NoneStill(status: Status, node: Endpoint, history: seq<Event>, n: nat)
    requires NoVerdict(status, node, history, n) && Verdict(status, node, history, n).None?
    ensures NoVerdict(status, node, history, n + 1)
  {
    hide Verdict;
  }

  lemma {:induction false} NothingRead(history: seq<Event>)
    ensures Read(history, 0, "", "", false)
  {
  }

  lemma {:induction false} VerdictEarly(status: Status, node: Endpoint, history: seq<Event>, i: nat)
    ensures var reply, after := Asked(node, i), Position(node, i);
            Verdict(status, node, history, i) ==
              if reply.HttpError? then Some(Failed(Raised))
              else if reply.session.None? then Some(Failed(Disappeared))
              else if !(after + |reply.events| <= |history| && reply.events == history[after..after + |reply.events|])
              then Some(Failed(Gap))
              else Verdict(status, node, history, i)
  {
  }

  lemma {:induction false} VerdictLate(status: Status, node: Endpoint, history: seq<Event>, i: nat, output: string,
                                       errors: string, sawExit: bool)
    requires var reply, after, last := Asked(node, i), Position(node, i), Position(node, i + 1);
             && reply.Page? && reply.session.Some? && last <= |history| && reply.events == history[after..last]
             && Read(history, last, output, errors, sawExit)
    ensures var reply := Asked(node, i);
            Verdict(status, node, history, i) ==
              if reply.session != Some(Terminal) then None
              else if sawExit then Some(Drained(output, errors, Position(node, i + 1)))
              else if reply.events == [] && KnownTerminal(status, node, i) then Some(Failed(NoExit))
              else None
  {
  }

  /** The drain loop, up to `polls` requests before its deadline. */
  method Poll(status: Status, node: Endpoint, polls: nat, ghost history: seq<Event>) returns (r: Outcome)
    requires Numbered(history) && Genuine(node, history)
    ensures Decided(status, node, history, polls, r)
  {
    hide Verdict, Read, Genuine, NoVerdict, Numbered, KnownTerminal;
    NothingRead(history);
    NoneYet(status, node, history);
    var session, output, errors, after, sawExit := status, "", "", 0, false;
    var i := 0;
    while i < polls
      invariant 0 <= i <= polls && after == Position(node, i)
      invariant session == Terminal <==> KnownTerminal(status, node, i)
      invariant Read(history, after, output, errors, sawExit)
      invariant NoVerdict(status, node, history, i)
      decreases polls - i
    {
      var waitZero := session == Terminal;
      var batch := node(i, after);
      VerdictEarly(status, node, history, i);
      KnownNext(status, node, i);
      if batch.HttpError? { return Failed(Raised); }
      GenuinePage(node, history, i, after);
      if batch.session.None? { return Failed(Disappeared); }
      session := batch.session.value;
      assert Position(node, i + 1) == after + |batch.events|;
      var gap;
      gap, after, output, errors, sawExit := Consume(batch.events, after, output, errors, sawExit, history);
      if gap { return Failed(Gap); }
      VerdictLate(status, node, history, i, output, errors, sawExit);
      if session == Terminal {
        if sawExit { return Drained(output, errors, after); }
        if batch.events == [] && waitZero { return Failed(NoExit); }
      }
      NoneStill(status, node, history, i);
      i := i + 1;
    }
    r := Failed(Timeout);
  }

  /** probe. On success the output is the concatenation of events 1 .. last, which include the exit event. A node that
      serves the history in order is refused only by the deadline, and not by that if enough polls follow the end of the
      session. */
  method Drain(status: Status, node: Endpoint, polls: nat, ghost history: seq<Event>) returns (r: Outcome)
    requires Numbered(history) && Genuine(node, history)
    ensures Decided(status, node, history, polls, r)
    ensures r.Drained? ==>
              && r.last <= |history| && HasExit(history, r.last)
              && r.stdout == Joined(history[..r.last], Stdout)
              && r.stderr == Joined(history[..r.last], Stderr)
    ensures Contiguous(node, history) ==> r != Failed(Gap)
    ensures Served(node, history) ==> r.Drained? || r == Failed(Timeout)
    ensures forall k: nat :: Served(node, history) && EndedBy(node, k) && k + |history| <= polls ==> r.Drained?
  {
    r := Poll(status, node, polls, history);
    DecidedFacts(status, node, history, polls, r);
  }

  lemma {:induction false} DecidedFacts(status: Status, node: Endpoint, history: seq<Event>, polls: nat, r: Outcome)
    requires Decided(status, node, history, polls, r)
    ensures r.Drained? ==>
              && r.last <= |history| && HasExit(history, r.last)
              && r.stdout == Joined(history[..r.last], Stdout)
              && r.stderr == Joined(history[..r.last], Stderr)
    ensures Contiguous(node, history) ==> r != Failed(Gap)
    ensures Served(node, history) ==> r.Drained? || r == Failed(Timeout)
    ensures forall k: nat :: Served(node, history) && EndedBy(node, k) && k + |history| <= polls ==> r.Drained?
  {
    forall k: nat | Served(node, history) && EndedBy(node, k) && k + |history| <= polls
      ensures !NoVerdict(status, node, history, polls)
    {
      EndsInTime(status, node, history, polls, k);
    }
    hide Contiguous, Serving, EndedBy, NoVerdict;
    if n: nat :| n < polls && NoVerdict(status, node, history, n) && Verdict(status, node, history, n) == Some(r) {
      if Contiguous(node, history) { ServedVerdict(status, node, history, n); }
    }
  }

  /** With the exit event last, success means the whole output. */
  lemma {:induction false} DrainedIsComplete(history: seq<Event>, last: nat)
    requires last <= |history| && HasExit(history, last)
    requires forall k :: 0 <= k < |history| - 1 ==> history[k].stream != Exit
    ensures last == |history|
    ensures Joined(history[..last], Stdout) == Joined(history, Stdout)
  {
    assert history[..|history|] == history;
  }
}
