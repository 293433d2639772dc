/**
  The progress monitor (src/progressmonitor.py): `update_progress` writes the
  sums of the senders' counters into `total_sent` and `total_failed` and
  derives the average time per message, guarded against a zero count; `run`
  polls while any sender is alive. Liveness at each poll and the elapsed time
  are inputs; the sleep and the log record are not modelled.
 */
module Monitor {
  import opened Sender

  /** One sender's counters as the monitor reads them. */
  datatype Counters = Counters(sent: nat, failed: nat)

  /** `sum(sender.sent_count for sender in senders)` over counters read from the senders. */
  function TotalSent(cs: seq<Counters>): nat
    decreases |cs|
  {
    if cs == [] then 0 else TotalSent(cs[..|cs| - 1]) + cs[|cs| - 1].sent
  }

  /** `sum(sender.failed_count for sender in senders)` */
  function TotalFailed(cs: seq<Counters>): nat
    decreases |cs|
  {
    if cs == [] then 0 else TotalFailed(cs[..|cs| - 1]) + cs[|cs| - 1].failed
  }

  /** The totals the test expects for senders at (5 sent, 2 failed) and (3 sent, 1 failed). */
  lemma TotalsOfTwoSenders()
    ensures TotalSent([Counters(5, 2), Counters(3, 1)]) == 8
    ensures TotalFailed([Counters(5, 2), Counters(3, 1)]) == 3
  {
    assert [Counters(5, 2), Counters(3, 1)][..1] == [Counters(5, 2)];
  }

  /** Changing one sender's counters changes each total by exactly that sender's difference. */
  lemma {:induction false} TotalsUpdate(cs: seq<Counters>, i: nat, c: Counters)
    requires i < |cs|
    ensures TotalSent(cs[i := c]) + cs[i].sent == TotalSent(cs) + c.sent
    ensures TotalFailed(cs[i := c]) + cs[i].failed == TotalFailed(cs) + c.failed
    decreases |cs|
  {
    var n := |cs| - 1;
    if i < n {
      assert cs[i := c][..n] == cs[..n][i := c];
      TotalsUpdate(cs[..n], i, c);
    } else {
      assert cs[i := c][..n] == cs[..n];
    }
  }

  /** When no sender's counters went down, neither total went down. */
  lemma {:induction false} TotalsMonotone(before: seq<Counters>, after: seq<Counters>)
    requires |before| == |after|
    requires forall i :: 0 <= i < |before| ==> before[i].sent <= after[i].sent && before[i].failed <= after[i].failed
    ensures TotalSent(before) <= TotalSent(after) && TotalFailed(before) <= TotalFailed(after)
    decreases |before|
  {
    if before != [] {
      var n := |before| - 1;
      TotalsMonotone(before[..n], after[..n]);
    }
  }

  /**
    `elapsed_time / total_messages if total_messages > 0 else 0`: no division
    by zero, and otherwise the quotient (on reals, without float rounding).
   */
  function AverageTimePerMessage(elapsed: real, totalMessages: int): (avg: real)
    ensures totalMessages <= 0 ==> avg == 0.0
    ensures totalMessages > 0 ==> avg * totalMessages as real == elapsed
  {
    if totalMessages > 0 then elapsed / totalMessages as real else 0.0
  }

  /** The counters of each sender, in order. */
  function Snapshot(senders: seq<MessageSender>): (cs: seq<Counters>)
    reads senders
    ensures |cs| == |senders|
    ensures forall i :: 0 <= i < |senders| ==> cs[i] == Counters(senders[i].sentCount, senders[i].failedCount)
    decreases |senders|
  {
    if senders == [] then []
    else Snapshot(senders[..|senders| - 1]) + [Counters(senders[|senders| - 1].sentCount, senders[|senders| - 1].failedCount)]
  }

  /** `any(sender.is_alive() for sender in senders)` over the liveness seen at one poll. */
  predicate AnyAlive(alive: seq<bool>) {
    exists j :: 0 <= j < |alive| && alive[j]
  }

  class ProgressMonitor {
    const senders: seq<MessageSender>
    const updateInterval: int
    var totalSent: nat
    var totalFailed: nat

    constructor (senders: seq<MessageSender>, updateInterval: int)
      ensures this.senders == senders && this.updateInterval == updateInterval
      ensures totalSent == 0 && totalFailed == 0
    {
      this.senders := senders;
      this.updateInterval := updateInterval;
      totalSent := 0;
      totalFailed := 0;
    }

    /**
      `update_progress` with `elapsed` the time since the monitor started. It
      writes the two totals and nothing else, and returns the derived
      message count and average that go into the log record.
     */
    method UpdateProgress(elapsed: real) returns (totalMessages: nat, average: real)
      modifies this
      ensures totalSent == TotalSent(Snapshot(senders)) && totalFailed == TotalFailed(Snapshot(senders))
      ensures totalMessages == totalSent + totalFailed
      ensures average == AverageTimePerMessage(elapsed, totalMessages)
      ensures forall i :: 0 <= i < |senders| ==>
        senders[i].sentCount == old(senders[i].sentCount) && senders[i].failedCount == old(senders[i].failedCount)
    {
      totalSent := TotalSent(Snapshot(senders));
      totalFailed := TotalFailed(Snapshot(senders));
      totalMessages := totalSent + totalFailed;
      average := AverageTimePerMessage(elapsed, totalMessages);
    }

    /**
      `run`: `liveness[k][j]` is what `is_alive()` of sender j answers at the
      k-th test of the loop condition and `elapsed[k]` the clock reading of the
      update that follows it. The loop runs exactly while some sender
      is alive and stops at the first test that finds none.
     */
    method Run(liveness: seq<seq<bool>>, elapsed: seq<real>) returns (polls: nat)
      requires |elapsed| == |liveness|
      requires forall k :: 0 <= k < |liveness| ==> |liveness[k]| == |senders|
      requires exists k :: 0 <= k < |liveness| && !AnyAlive(liveness[k])
      modifies this
      ensures polls < |liveness| && !AnyAlive(liveness[polls])
      ensures forall k :: 0 <= k < polls ==> AnyAlive(liveness[k])
      ensures polls == 0 ==> totalSent == old(totalSent) && totalFailed == old(totalFailed)
      ensures polls > 0 ==> totalSent == TotalSent(Snapshot(senders)) && totalFailed == TotalFailed(Snapshot(senders))
    {
      ghost var last :| 0 <= last < |liveness| && !AnyAlive(liveness[last]);
      polls := 0;
      while AnyAlive(liveness[polls])
        invariant polls <= last
        invariant forall k :: 0 <= k < polls ==> AnyAlive(liveness[k])
        invariant polls == 0 ==> totalSent == old(totalSent) && totalFailed == old(totalFailed)
        invariant polls > 0 ==> totalSent == TotalSent(Snapshot(senders)) && totalFailed == TotalFailed(Snapshot(senders))
        decreases last - polls
      {
        var _, _ := UpdateProgress(elapsed[polls]);
        polls := polls + 1;
      }
    }
  }

  /** Two updates with no sender activity between them report the same totals. */
  method UpdateTwice(monitor: ProgressMonitor, elapsed1: real, elapsed2: real)
    returns (first: Counters, second: Counters)
    modifies monitor
    ensures first == second
    ensures first == Counters(TotalSent(Snapshot(monitor.senders)), TotalFailed(Snapshot(monitor.senders)))
  {
    var _, _ := monitor.UpdateProgress(elapsed1);
    first := Counters(monitor.totalSent, monitor.totalFailed);
    var _, _ := monitor.UpdateProgress(elapsed2);
    second := Counters(monitor.totalSent, monitor.totalFailed);
  }
}
