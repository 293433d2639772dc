/**
  A sender (src/messagesender.py): `run` drains the queue while it is not
  empty, and `_simulate_send` counts each message as failed when the draw of
  `random.random()` is below `failure_rate`, as sent otherwise. The draws are
  inputs; the simulated processing delay is not modelled.
 */
module Sender {
  import opened Messages
  import opened WorkQueue

  /** What `random.random()` can return. */
  type Unit = r: real | 0.0 <= r < 1.0

  datatype Outcome = Sent | Failed

  /** The outcome `_simulate_send` records for draw `r`. */
  function Classify(r: real, failureRate: real): Outcome {
    if r < failureRate then Failed else Sent
  }

  /** How many of the draws count as sent. */
  function SentCount(draws: seq<real>, failureRate: real): (k: nat)
    ensures k <= |draws|
    decreases |draws|
  {
    if draws == [] then 0
    else
      var n := |draws| - 1;
      SentCount(draws[..n], failureRate) + (if Classify(draws[n], failureRate) == Sent then 1 else 0)
  }

  /** How many of the draws count as failed. */
  function FailedCount(draws: seq<real>, failureRate: real): (k: nat)
    ensures k <= |draws|
    decreases |draws|
  {
    if draws == [] then 0
    else
      var n := |draws| - 1;
      FailedCount(draws[..n], failureRate) + (if Classify(draws[n], failureRate) == Failed then 1 else 0)
  }

  /** Every send is counted exactly once, as sent or as failed. */
  lemma {:induction false} EverySendCountedOnce(draws: seq<real>, failureRate: real)
    ensures SentCount(draws, failureRate) + FailedCount(draws, failureRate) == |draws|
    decreases |draws|
  {
    if draws != [] {
      EverySendCountedOnce(draws[..|draws| - 1], failureRate);
    }
  }

  /** The number of failures is the number of draws below the failure rate. */
  lemma {:induction false} FailedCountIsDrawsBelowRate(draws: seq<real>, failureRate: real)
    ensures FailedCount(draws, failureRate) == |set i | 0 <= i < |draws| && draws[i] < failureRate|
    decreases |draws|
  {
    var below := set i | 0 <= i < |draws| && draws[i] < failureRate;
    if draws != [] {
      var n := |draws| - 1;
      var before := set i | 0 <= i < n && draws[..n][i] < failureRate;
      FailedCountIsDrawsBelowRate(draws[..n], failureRate);
      if draws[n] < failureRate {
        assert below == before + {n};
      } else {
        assert below == before;
      }
    } else {
      assert below == {};
    }
  }

  /** With `failure_rate` at or below 0 every send is counted as sent, since no draw is negative. */
  lemma {:induction false} ZeroRateAllSent(draws: seq<Unit>, failureRate: real)
    requires failureRate <= 0.0
    ensures SentCount(draws, failureRate) == |draws|
    ensures FailedCount(draws, failureRate) == 0
    decreases |draws|
  {
    if draws != [] {
      ZeroRateAllSent(draws[..|draws| - 1], failureRate);
    }
  }

  /** With `failure_rate` at or above 1 every send is counted as failed, since every draw is below 1. */
  lemma {:induction false} FullRateAllFailed(draws: seq<Unit>, failureRate: real)
    requires failureRate >= 1.0
    ensures FailedCount(draws, failureRate) == |draws|
    ensures SentCount(draws, failureRate) == 0
    decreases |draws|
  {
    if draws != [] {
      FullRateAllFailed(draws[..|draws| - 1], failureRate);
    }
  }

  class MessageSender {
    const messageQueue: Queue
    const meanProcessingTime: real
    const failureRate: real
    var sentCount: nat
    var failedCount: nat
    /** The messages this sender has handled, in the order it handled them. */
    ghost var processed: seq<Message>

    constructor (messageQueue: Queue, meanProcessingTime: real, failureRate: real)
      ensures this.messageQueue == messageQueue
      ensures this.meanProcessingTime == meanProcessingTime && this.failureRate == failureRate
      ensures sentCount == 0 && failedCount == 0 && processed == []
    {
      this.messageQueue := messageQueue;
      this.meanProcessingTime := meanProcessingTime;
      this.failureRate := failureRate;
      sentCount := 0;
      failedCount := 0;
      processed := [];
    }

    /** `_simulate_send` with `r` the value `random.random()` returns: exactly one counter grows by one. */
    method SimulateSend(phoneNumber: string, message: string, r: Unit)
      modifies this
      ensures r < failureRate ==> failedCount == old(failedCount) + 1 && sentCount == old(sentCount)
      ensures r >= failureRate ==> sentCount == old(sentCount) + 1 && failedCount == old(failedCount)
      ensures processed == old(processed) + [Message(phoneNumber, message)]
    {
      if r < failureRate {
        failedCount := failedCount + 1;
      } else {
        sentCount := sentCount + 1;
      }
      processed := processed + [Message(phoneNumber, message)];
    }

    /**
      `run` on a queue no one else touches: `draws[i]` is the draw for the
      i-th message taken. The queue ends empty, every item is handled once in
      FIFO order, the counters grow by the outcomes of the draws, and together
      by exactly the number of items that were queued.
     */
    method Run(draws: seq<Unit>)
      requires messageQueue.Valid()
      requires |draws| == |messageQueue.items|
      modifies this, messageQueue
      ensures messageQueue.Valid() && messageQueue.items == []
      ensures messageQueue.unfinishedTasks == old(messageQueue.unfinishedTasks) - |old(messageQueue.items)|
      ensures processed == old(processed) + old(messageQueue.items)
      ensures sentCount == old(sentCount) + SentCount(draws, failureRate)
      ensures failedCount == old(failedCount) + FailedCount(draws, failureRate)
      ensures sentCount + failedCount == old(sentCount + failedCount) + |old(messageQueue.items)|
    {
      ghost var initial := messageQueue.items;
      var i := 0;
      var isEmpty := messageQueue.Empty();
      while !isEmpty
        invariant 0 <= i <= |initial|
        invariant messageQueue.Valid()
        invariant isEmpty <==> messageQueue.items == []
        invariant messageQueue.items == initial[i..]
        invariant messageQueue.unfinishedTasks == old(messageQueue.unfinishedTasks) - i
        invariant processed == old(processed) + initial[..i]
        invariant sentCount == old(sentCount) + SentCount(draws[..i], failureRate)
        invariant failedCount == old(failedCount) + FailedCount(draws[..i], failureRate)
        decreases |messageQueue.items|
      {
        var m := messageQueue.Get();
        assert initial[..i + 1] == initial[..i] + [m];
        assert draws[..i + 1][..i] == draws[..i];
        SimulateSend(m.phoneNumber, m.text, draws[i]);
        var _ := messageQueue.TaskDone();
        i := i + 1;
        isEmpty := messageQueue.Empty();
      }
      assert initial[..i] == initial;
      assert draws[..i] == draws;
      EverySendCountedOnce(draws, failureRate);
    }
  }

  /** One message and `failure_rate` 0: the sender ends with one sent and none failed. */
  method SendOneWithZeroRate(m: Message, r: Unit) returns (sender: MessageSender)
    ensures sender.sentCount == 1 && sender.failedCount == 0
    ensures sender.processed == [m] && sender.messageQueue.items == []
  {
    var q := new Queue();
    q.Put(m);
    sender := new MessageSender(q, 0.1, 0.0);
    sender.Run([r]);
    ZeroRateAllSent([r], 0.0);
  }

  /** One message and `failure_rate` 1: the sender ends with none sent and one failed. */
  method SendOneWithFullRate(m: Message, r: Unit) returns (sender: MessageSender)
    ensures sender.sentCount == 0 && sender.failedCount == 1
    ensures sender.processed == [m] && sender.messageQueue.items == []
  {
    var q := new Queue();
    q.Put(m);
    sender := new MessageSender(q, 0.1, 1.0);
    sender.Run([r]);
    FullRateAllFailed([r], 1.0);
  }
}
