/**
  Several senders, the generator and the monitor on one queue, as an explicit
  interleaving of atomic steps instead of threads. A step is one of:
  - `Produce(m)`: the generator's `put(m)`;
  - `Check(i)`: sender i evaluates `not self.message_queue.empty()`, leaving
    the loop if the queue is empty;
  - `Get(i)`: sender i, having seen a non-empty queue, runs `get()`, which
    blocks on an empty queue (the step then changes nothing);
  - `TryTake(i)`: take-or-stop as one atomic step, the non-blocking removal
    (`get_nowait`, stopping on `queue.Empty`): leave the loop on an empty
    queue, otherwise take the head as `Get` does;
  - `Send(i, r)`: sender i, holding the message it took, ends its `sleep`,
    runs `_simulate_send` with draw r and then `task_done()`;
  - `Poll`: the monitor's `update_progress`.
  Between a take and its `Send` the message is in flight: it has left the
  queue but is not yet in any counter. `Check` and `Get` are the sender loop
  as written; `TryTake` is the corrected loop.
 */
module Schedule {
  import opened Messages
  import opened Sender
  import opened Monitor

  /** Where a sender's loop stands. */
  datatype Phase =
    | Checking            // about to test the queue for emptiness
    | Getting             // saw a non-empty queue and is about to call get()
    | Sending(m: Message)  // took m and sleeps before counting it
    | Terminated          // left the loop: is_alive() is false from now on

  datatype Worker = Worker(counters: Counters, phase: Phase)

  datatype Event =
    | Produce(m: Message)
    | Check(i: nat)
    | Get(i: nat)
    | TryTake(i: nat)
    | Send(i: nat, r: Unit)
    | Poll

  /**
    The shared state: the queue, every message ever put (`produced`), every
    message ever taken (`taken`), the senders, the common failure rate and the
    monitor's last totals.
   */
  datatype World = World(
    queue: seq<Message>,
    produced: seq<Message>,
    taken: seq<Message>,
    workers: seq<Worker>,
    failureRate: real,
    snapshot: Counters)

  function CountersOf(ws: seq<Worker>): (cs: seq<Counters>)
    ensures |cs| == |ws|
  {
    seq(|ws|, i requires 0 <= i < |ws| => ws[i].counters)
  }

  function SentTotal(w: World): nat {
    TotalSent(CountersOf(w.workers))
  }

  function FailedTotal(w: World): nat {
    TotalFailed(CountersOf(w.workers))
  }

  /** How many senders hold a message they took but have not counted yet. */
  function InFlight(ws: seq<Worker>): nat
    decreases |ws|
  {
    if ws == [] then 0 else InFlight(ws[..|ws| - 1]) + (if ws[|ws| - 1].phase.Sending? then 1 else 0)
  }

  /** What `is_alive()` answers for each sender. */
  function Liveness(w: World): (alive: seq<bool>)
    ensures |alive| == |w.workers|
  {
    seq(|w.workers|, i requires 0 <= i < |w.workers| => w.workers[i].phase != Terminated)
  }

  /** `_simulate_send` on one sender's counters. */
  function Record(c: Counters, r: Unit, failureRate: real): (c': Counters)
    ensures r < failureRate ==> c' == Counters(c.sent, c.failed + 1)
    ensures r >= failureRate ==> c' == Counters(c.sent + 1, c.failed)
  {
    if Classify(r, failureRate) == Failed then Counters(c.sent, c.failed + 1) else Counters(c.sent + 1, c.failed)
  }

  /** Sender i takes the head of a non-empty queue and holds it, uncounted. */
  function Take(w: World, i: nat): World
    requires i < |w.workers| && w.queue != []
  {
    w.(queue := w.queue[1..],
       taken := w.taken + [w.queue[0]],
       workers := w.workers[i := w.workers[i].(phase := Sending(w.queue[0]))])
  }

  /** Sender i records the outcome of the message it holds and is back at the loop test. */
  function Finish(w: World, i: nat, r: Unit): World
    requires i < |w.workers|
  {
    w.(workers := w.workers[i := Worker(Record(w.workers[i].counters, r, w.failureRate), Checking)])
  }

  function Stop(w: World, i: nat): World
    requires i < |w.workers|
  {
    w.(workers := w.workers[i := w.workers[i].(phase := Terminated)])
  }

  /** One atomic step; a step the named sender is not in a position to take changes nothing. */
  function Step(w: World, e: Event): (w': World)
    ensures |w'.workers| == |w.workers|
    ensures w'.produced == w.produced + (if e.Produce? then [e.m] else [])
  {
    match e
    case Produce(m) =>
      w.(queue := w.queue + [m], produced := w.produced + [m])
    case Check(i) =>
      if i < |w.workers| && w.workers[i].phase == Checking then
        if w.queue == [] then Stop(w, i)
        else w.(workers := w.workers[i := w.workers[i].(phase := Getting)])
      else w
    case Get(i) =>
      if i < |w.workers| && w.workers[i].phase == Getting && w.queue != [] then Take(w, i) else w
    case TryTake(i) =>
      if i < |w.workers| && w.workers[i].phase == Checking then
        if w.queue == [] then Stop(w, i) else Take(w, i)
      else w
    case Send(i, r) =>
      if i < |w.workers| && w.workers[i].phase.Sending? then Finish(w, i, r) else w
    case Poll =>
      w.(snapshot := Counters(SentTotal(w), FailedTotal(w)))
  }

  function Run(w: World, s: seq<Event>): (w': World)
    ensures |w'.workers| == |w.workers|
    decreases |s|
  {
    if s == [] then w else Run(Step(w, s[0]), s[1..])
  }

  /** The messages the `Produce` steps of a schedule put, in order. */
  function ProducedBy(s: seq<Event>): seq<Message>
    decreases |s|
  {
    if s == [] then []
    else (if s[0].Produce? then [s[0].m] else []) + ProducedBy(s[1..])
  }

  /** `num_senders` fresh senders and an empty queue. */
  function Init(numSenders: nat, failureRate: real): (w: World)
    ensures |w.workers| == numSenders
  {
    World([], [], [], seq(numSenders, _ => Worker(Counters(0, 0), Checking)), failureRate, Counters(0, 0))
  }

  /**
    Everything ever put is the taken messages followed by the queue (FIFO, each
    message taken once); every taken message is either counted once or in
    flight; and the monitor's totals never run ahead of the senders' counters.
   */
  ghost predicate Inv(w: World) {
    w.produced == w.taken + w.queue
    && SentTotal(w) + FailedTotal(w) + InFlight(w.workers) == |w.taken|
    && w.snapshot.sent <= SentTotal(w) && w.snapshot.failed <= FailedTotal(w)
  }

  lemma {:induction false} ZeroTotals(cs: seq<Counters>)
    requires forall i :: 0 <= i < |cs| ==> cs[i] == Counters(0, 0)
    ensures TotalSent(cs) == 0 && TotalFailed(cs) == 0
    decreases |cs|
  {
    if cs != [] {
      ZeroTotals(cs[..|cs| - 1]);
    }
  }

  /** With no sender holding a message, nothing is in flight. */
  lemma {:induction false} NoneInFlight(ws: seq<Worker>)
    requires forall i :: 0 <= i < |ws| ==> !ws[i].phase.Sending?
    ensures InFlight(ws) == 0
    decreases |ws|
  {
    if ws != [] {
      NoneInFlight(ws[..|ws| - 1]);
    }
  }

  lemma InitInv(numSenders: nat, failureRate: real)
    ensures Inv(Init(numSenders, failureRate))
  {
    var w := Init(numSenders, failureRate);
    ZeroTotals(CountersOf(w.workers));
    NoneInFlight(w.workers);
  }

  lemma CountersOfUpdate(ws: seq<Worker>, i: nat, x: Worker)
    requires i < |ws|
    ensures CountersOf(ws[i := x]) == CountersOf(ws)[i := x.counters]
  {
  }

  /** Changing one sender changes the in-flight count by exactly its own difference. */
  lemma {:induction false} InFlightUpdate(ws: seq<Worker>, i: nat, x: Worker)
    requires i < |ws|
    ensures InFlight(ws[i := x]) + (if ws[i].phase.Sending? then 1 else 0)
         == InFlight(ws) + (if x.phase.Sending? then 1 else 0)
    decreases |ws|
  {
    var n := |ws| - 1;
    if i < n {
      assert ws[i := x][..n] == ws[..n][i := x];
      InFlightUpdate(ws[..n], i, x);
    } else {
      assert ws[i := x][..n] == ws[..n];
    }
  }

  /** A step that only moves sender i between phases that hold no message keeps the invariant. */
  lemma PhaseChangeInv(w: World, i: nat, p: Phase)
    requires Inv(w) && i < |w.workers|
    requires !w.workers[i].phase.Sending? && !p.Sending?
    ensures Inv(w.(workers := w.workers[i := w.workers[i].(phase := p)]))
  {
    var x := w.workers[i].(phase := p);
    CountersOfUpdate(w.workers, i, x);
    assert CountersOf(w.workers)[i := x.counters] == CountersOf(w.workers);
    InFlightUpdate(w.workers, i, x);
  }

  /** Taking the head moves one message from the queue into flight and keeps the invariant. */
  lemma TakeInv(w: World, i: nat)
    requires Inv(w) && i < |w.workers| && w.queue != [] && !w.workers[i].phase.Sending?
    ensures Inv(Take(w, i))
    ensures InFlight(Take(w, i).workers) == InFlight(w.workers) + 1
  {
    var x := w.workers[i].(phase := Sending(w.queue[0]));
    CountersOfUpdate(w.workers, i, x);
    assert CountersOf(w.workers)[i := x.counters] == CountersOf(w.workers);
    InFlightUpdate(w.workers, i, x);
    assert w.taken + w.queue == (w.taken + [w.queue[0]]) + w.queue[1..];
  }

  /** Counting the message a sender holds moves it from flight into one counter and keeps the invariant. */
  lemma FinishInv(w: World, i: nat, r: Unit)
    requires Inv(w) && i < |w.workers| && w.workers[i].phase.Sending?
    ensures Inv(Finish(w, i, r))
    ensures SentTotal(Finish(w, i, r)) + FailedTotal(Finish(w, i, r)) == SentTotal(w) + FailedTotal(w) + 1
  {
    var x := Worker(Record(w.workers[i].counters, r, w.failureRate), Checking);
    CountersOfUpdate(w.workers, i, x);
    TotalsUpdate(CountersOf(w.workers), i, x.counters);
    InFlightUpdate(w.workers, i, x);
  }

  /** Every step keeps the invariant. */
  lemma StepInv(w: World, e: Event)
    requires Inv(w)
    ensures Inv(Step(w, e))
  {
    match e
    case Produce(m) =>
    case Check(i) =>
      if i < |w.workers| && w.workers[i].phase == Checking {
        PhaseChangeInv(w, i, if w.queue == [] then Terminated else Getting);
      }
    case Get(i) =>
      if i < |w.workers| && w.workers[i].phase == Getting && w.queue != [] {
        TakeInv(w, i);
      }
    case TryTake(i) =>
      if i < |w.workers| && w.workers[i].phase == Checking {
        if w.queue == [] {
          PhaseChangeInv(w, i, Terminated);
        } else {
          TakeInv(w, i);
        }
      }
    case Send(i, r) =>
      if i < |w.workers| && w.workers[i].phase.Sending? {
        FinishInv(w, i, r);
      }
    case Poll =>
  }

  /** Any schedule keeps the invariant. */
  lemma {:induction false} RunInv(w: World, s: seq<Event>)
    requires Inv(w)
    ensures Inv(Run(w, s))
    decreases |s|
  {
    if s != [] {
      StepInv(w, s[0]);
      RunInv(Step(w, s[0]), s[1..]);
    }
  }

  /** The messages put during a schedule are exactly those of its `Produce` steps, in order. */
  lemma {:induction false} RunProduced(w: World, s: seq<Event>)
    ensures Run(w, s).produced == w.produced + ProducedBy(s)
    decreases |s|
  {
    if s != [] {
      RunProduced(Step(w, s[0]), s[1..]);
    }
  }

  /**
    From a fresh start, under any schedule: the messages taken so far followed
    by the queue are exactly the messages put, in the order put; the senders'
    counters, the messages in flight and the queue length add up to the number
    put; and when no sender holds a message, the counters and the queue alone do.
   */
  lemma Conservation(numSenders: nat, failureRate: real, s: seq<Event>)
    ensures var w := Run(Init(numSenders, failureRate), s);
      w.taken + w.queue == ProducedBy(s)
      && SentTotal(w) + FailedTotal(w) + InFlight(w.workers) + |w.queue| == |ProducedBy(s)|
      && ((forall j :: 0 <= j < |w.workers| ==> !w.workers[j].phase.Sending?) ==>
            SentTotal(w) + FailedTotal(w) + |w.queue| == |ProducedBy(s)|)
  {
    var w := Run(Init(numSenders, failureRate), s);
    InitInv(numSenders, failureRate);
    RunInv(Init(numSenders, failureRate), s);
    RunProduced(Init(numSenders, failureRate), s);
    if forall j :: 0 <= j < |w.workers| ==> !w.workers[j].phase.Sending? {
      NoneInFlight(w.workers);
    }
  }

  /**
    A message is in flight while its sender sleeps: one sender takes the only
    message, and an update at that moment sees an empty queue and zero totals
    although one message was put.
   */
  lemma InFlightUnseenByMonitor(m: Message, failureRate: real)
    ensures var w := Run(Init(1, failureRate), [Produce(m), Check(0), Get(0), Poll]);
      w.produced == [m] && w.queue == [] && w.snapshot == Counters(0, 0)
      && InFlight(w.workers) == 1 && w.workers[0].phase == Sending(m)
  {
    var w0 := Init(1, failureRate);
    var w1 := Step(w0, Produce(m));
    var w2 := Step(w1, Check(0));
    var w3 := Step(w2, Get(0));
    var w4 := Step(w3, Poll);
    var sched := [Produce(m), Check(0), Get(0), Poll];
    assert w3 == Take(w2, 0);
    assert w3.workers == [Worker(Counters(0, 0), Sending(m))];
    assert [Worker(Counters(0, 0), Sending(m))][..0] == [];
    assert CountersOf(w3.workers) == [Counters(0, 0)];
    assert [Counters(0, 0)][..0] == [];
    assert Run(w0, sched) == w4 by {
      assert sched[1..] == [Check(0), Get(0), Poll];
      assert sched[1..][1..] == [Get(0), Poll];
      assert sched[1..][1..][1..] == [Poll];
      assert Run(w3, [Poll]) == w4;
      assert Run(w2, [Get(0), Poll]) == w4;
      assert Run(w1, [Check(0), Get(0), Poll]) == w4;
    }
  }

  /** One step never lowers a sender's counters and never revives a terminated sender. */
  lemma StepMonotone(w: World, e: Event, j: nat)
    requires j < |w.workers|
    ensures |Step(w, e).workers| == |w.workers|
    ensures Step(w, e).workers[j].counters.sent >= w.workers[j].counters.sent
    ensures Step(w, e).workers[j].counters.failed >= w.workers[j].counters.failed
    ensures w.workers[j].phase == Terminated ==> Step(w, e).workers[j] == w.workers[j]
  {
  }

  /** Counters never decrease, under any schedule. */
  lemma {:induction false} CountersNeverDecrease(w: World, s: seq<Event>, j: nat)
    requires j < |w.workers|
    ensures |Run(w, s).workers| == |w.workers|
    ensures Run(w, s).workers[j].counters.sent >= w.workers[j].counters.sent
    ensures Run(w, s).workers[j].counters.failed >= w.workers[j].counters.failed
    decreases |s|
  {
    if s != [] {
      StepMonotone(w, s[0], j);
      CountersNeverDecrease(Step(w, s[0]), s[1..], j);
    }
  }

  /** A sender that has left its loop never changes again, whatever arrives later. */
  lemma {:induction false} TerminatedStaysPut(w: World, s: seq<Event>, j: nat)
    requires j < |w.workers| && w.workers[j].phase == Terminated
    ensures |Run(w, s).workers| == |w.workers|
    ensures Run(w, s).workers[j] == w.workers[j]
    decreases |s|
  {
    if s != [] {
      StepMonotone(w, s[0], j);
      TerminatedStaysPut(Step(w, s[0]), s[1..], j);
    }
  }

  /**
    The early-exit race, kept as the program has it: a sender whose `empty()`
    test comes before the generator's first `put` stops, and the message put
    afterwards is never processed by it, whatever happens next. The corrected
    take-or-stop step stops the same way.
   */
  lemma EarlyExitMissesLaterArrival(m: Message, failureRate: real, s: seq<Event>)
    ensures var w := Run(Init(1, failureRate), [Check(0), Produce(m)]);
      w.queue == [m] && w.workers[0].phase == Terminated
      && Run(w, s).workers[0] == Worker(Counters(0, 0), Terminated)
    ensures var w := Run(Init(1, failureRate), [TryTake(0), Produce(m)]);
      w.queue == [m] && w.workers[0].phase == Terminated
      && Run(w, s).workers[0] == Worker(Counters(0, 0), Terminated)
  {
    var w0 := Init(1, failureRate);
    var w2 := Step(Stop(w0, 0), Produce(m));
    assert Step(w0, Check(0)) == Stop(w0, 0) && Step(w0, TryTake(0)) == Stop(w0, 0);
    assert Run(w0, [Check(0), Produce(m)]) == w2 by {
      assert [Check(0), Produce(m)][1..] == [Produce(m)];
      assert Run(Stop(w0, 0), [Produce(m)]) == Run(w2, []);
    }
    assert Run(w0, [TryTake(0), Produce(m)]) == w2 by {
      assert [TryTake(0), Produce(m)][1..] == [Produce(m)];
      assert Run(Stop(w0, 0), [Produce(m)]) == Run(w2, []);
    }
    TerminatedStaysPut(w2, s, 0);
  }

  /** The monitor's update reads the counters and nothing else, so repeating it changes nothing. */
  lemma PollIdempotent(w: World)
    ensures Step(Step(w, Poll), Poll) == Step(w, Poll)
    ensures Step(w, Poll).snapshot == Counters(SentTotal(w), FailedTotal(w))
  {
  }

  // ---------------------------------------------------------------------------
  // The loop as written: the emptiness test and get() are two steps.

  predicate NoProduce(s: seq<Event>) {
    forall k :: 0 <= k < |s| ==> !s[k].Produce?
  }

  /**
    A sender that passed the emptiness test and finds the queue empty at
    `get()` stays blocked as long as nothing more is put: it never terminates,
    so the monitor's loop (some sender alive) never exits either.
   */
  lemma {:induction false} BlockedGetStaysBlocked(w: World, s: seq<Event>, j: nat)
    requires j < |w.workers| && w.workers[j].phase == Getting && w.queue == []
    requires NoProduce(s)
    ensures |Run(w, s).workers| == |w.workers|
    ensures Run(w, s).workers[j].phase == Getting && Run(w, s).queue == []
    ensures AnyAlive(Liveness(Run(w, s)))
    decreases |s|
  {
    if s != [] {
      var w' := Step(w, s[0]);
      assert w'.queue == [] && |w'.workers| == |w.workers| && w'.workers[j].phase == Getting;
      assert NoProduce(s[1..]) by {
        forall k | 0 <= k < |s[1..]| ensures !s[1..][k].Produce? {
          assert s[1..][k] == s[k + 1];
        }
      }
      BlockedGetStaysBlocked(w', s[1..], j);
    } else {
      assert Liveness(w)[j];
    }
  }

  /**
    Two senders, one message: both pass the emptiness test, sender 0 takes the
    message and counts it, and sender 1 is left in `get()` on an empty queue
    with the generator done. No later schedule without a `put` ever lets it
    finish.
   */
  lemma AsWrittenSenderBlocksForever(m: Message, r: Unit, failureRate: real, s: seq<Event>)
    requires NoProduce(s)
    ensures var w := Run(Init(2, failureRate), [Produce(m), Check(0), Check(1), Get(0), Send(0, r)]);
      w.queue == [] && w.taken == [m] && w.workers[0].phase == Checking && w.workers[1].phase == Getting
      && Run(w, s).workers[1].phase == Getting
      && AnyAlive(Liveness(Run(w, s)))
  {
    var w0 := Init(2, failureRate);
    var w1 := Step(w0, Produce(m));
    var w2 := Step(w1, Check(0));
    var w3 := Step(w2, Check(1));
    var w4 := Step(w3, Get(0));
    var w5 := Step(w4, Send(0, r));
    assert w3.workers[1].phase == Getting && w3.workers[0].phase == Getting;
    assert w4 == Take(w3, 0);
    assert w5 == Finish(w4, 0, r);
    var sched := [Produce(m), Check(0), Check(1), Get(0), Send(0, r)];
    assert Run(w0, sched) == w5 by {
      assert sched[1..] == [Check(0), Check(1), Get(0), Send(0, r)];
      assert sched[1..][1..] == [Check(1), Get(0), Send(0, r)];
      assert sched[1..][1..][1..] == [Get(0), Send(0, r)];
      assert sched[1..][1..][1..][1..] == [Send(0, r)];
      assert Run(w4, [Send(0, r)]) == w5;
      assert Run(w3, [Get(0), Send(0, r)]) == w5;
      assert Run(w2, [Check(1), Get(0), Send(0, r)]) == w5;
      assert Run(w1, [Check(0), Check(1), Get(0), Send(0, r)]) == w5;
    }
    BlockedGetStaysBlocked(w5, s, 1);
  }

  // ---------------------------------------------------------------------------
  // The corrected loop: take-or-stop in one step.

  /** How many senders stand at the loop test. */
  function AtLoopTest(ws: seq<Worker>): nat
    decreases |ws|
  {
    if ws == [] then 0 else AtLoopTest(ws[..|ws| - 1]) + (if ws[|ws| - 1].phase == Checking then 1 else 0)
  }

  /**
    Work left once the generator is done: each queued or held message needs
    two steps (take, count), each sender at the loop test at least one more.
   */
  function Pending(w: World): nat {
    2 * (|w.queue| + InFlight(w.workers)) + AtLoopTest(w.workers)
  }

  predicate NoneGetting(w: World) {
    forall i :: 0 <= i < |w.workers| ==> w.workers[i].phase != Getting
  }

  /** The first sender still running, or |ws| if there is none. */
  function FirstLive(ws: seq<Worker>): (i: nat)
    ensures i <= |ws|
    ensures i < |ws| ==> ws[i].phase != Terminated
    ensures forall j :: 0 <= j < i ==> ws[j].phase == Terminated
    decreases |ws|
  {
    if ws == [] then 0
    else if ws[0].phase != Terminated then 0
    else 1 + FirstLive(ws[1..])
  }

  /** The corrected loop's next step for sender i: count the held message, or take-or-stop. */
  function DrainEvent(w: World, i: nat, r: Unit): Event
    requires i < |w.workers|
  {
    if w.workers[i].phase.Sending? then Send(i, r) else TryTake(i)
  }

  /** Changing one sender changes the number at the loop test by exactly its own difference. */
  lemma {:induction false} AtLoopTestUpdate(ws: seq<Worker>, i: nat, x: Worker)
    requires i < |ws|
    ensures AtLoopTest(ws[i := x]) + (if ws[i].phase == Checking then 1 else 0)
         == AtLoopTest(ws) + (if x.phase == Checking then 1 else 0)
    decreases |ws|
  {
    var n := |ws| - 1;
    if i < n {
      assert ws[i := x][..n] == ws[..n][i := x];
      AtLoopTestUpdate(ws[..n], i, x);
    } else {
      assert ws[i := x][..n] == ws[..n];
    }
  }

  /** Replacing sender i by a sender that is not in `get()` lowers the measure by the given weights. */
  lemma ReplaceLowersPending(w: World, w': World, i: nat, x: Worker)
    requires i < |w.workers| && NoneGetting(w)
    requires w'.workers == w.workers[i := x] && x.phase != Getting
    requires 2 * |w'.queue| + 2 * (if x.phase.Sending? then 1 else 0) + (if x.phase == Checking then 1 else 0)
           < 2 * |w.queue| + 2 * (if w.workers[i].phase.Sending? then 1 else 0) + (if w.workers[i].phase == Checking then 1 else 0)
    ensures Pending(w') < Pending(w)
    ensures NoneGetting(w')
  {
    InFlightUpdate(w.workers, i, x);
    AtLoopTestUpdate(w.workers, i, x);
  }

  /** A corrected step by a live sender never blocks: it always makes progress. */
  lemma CorrectedStepProgress(w: World, i: nat, r: Unit)
    requires i < |w.workers| && w.workers[i].phase != Terminated && NoneGetting(w)
    ensures Pending(Step(w, DrainEvent(w, i, r))) < Pending(w)
    ensures NoneGetting(Step(w, DrainEvent(w, i, r)))
  {
    if w.workers[i].phase.Sending? {
      assert Step(w, DrainEvent(w, i, r)) == Finish(w, i, r);
      ReplaceLowersPending(w, Finish(w, i, r), i, Worker(Record(w.workers[i].counters, r, w.failureRate), Checking));
    } else if w.queue == [] {
      assert Step(w, DrainEvent(w, i, r)) == Stop(w, i);
      ReplaceLowersPending(w, Stop(w, i), i, w.workers[i].(phase := Terminated));
    } else {
      assert Step(w, DrainEvent(w, i, r)) == Take(w, i);
      ReplaceLowersPending(w, Take(w, i), i, w.workers[i].(phase := Sending(w.queue[0])));
    }
  }

  /** Round robin over the first live sender until every sender has stopped. */
  function DrainSchedule(w: World, r: Unit): (s: seq<Event>)
    requires NoneGetting(w)
    decreases Pending(w)
  {
    var i := FirstLive(w.workers);
    if i == |w.workers| then []
    else
      CorrectedStepProgress(w, i, r);
      [DrainEvent(w, i, r)] + DrainSchedule(Step(w, DrainEvent(w, i, r)), r)
  }

  /**
    Once the generator is done, the corrected loop always finishes: every
    sender terminates, and if any sender was still running the queue ends
    empty with every message put counted exactly once.
   */
  lemma {:induction false} CorrectedDrainCompletes(w: World, r: Unit)
    requires Inv(w) && NoneGetting(w)
    ensures var w' := Run(w, DrainSchedule(w, r));
      Inv(w')
      && |w'.workers| == |w.workers|
      && (forall j :: 0 <= j < |w'.workers| ==> w'.workers[j].phase == Terminated)
      && !AnyAlive(Liveness(w'))
      && w'.produced == w.produced
      && (FirstLive(w.workers) < |w.workers| ==> w'.queue == [] && SentTotal(w') + FailedTotal(w') == |w.produced|)
    decreases Pending(w)
  {
    var s := DrainSchedule(w, r);
    var i := FirstLive(w.workers);
    if i == |w.workers| {
      assert s == [];
    } else {
      var e := DrainEvent(w, i, r);
      var w1 := Step(w, e);
      CorrectedStepProgress(w, i, r);
      StepInv(w, e);
      assert s[0] == e && s[1..] == DrainSchedule(w1, r);
      CorrectedDrainCompletes(w1, r);
      var w' := Run(w1, DrainSchedule(w1, r));
      assert Run(w, s) == w';
      if FirstLive(w1.workers) == |w1.workers| {
        assert DrainSchedule(w1, r) == [];
        assert w1.workers[i].phase == Terminated;
        assert w1.queue == [];
        NoneInFlight(w1.workers);
      }
    }
  }
}
