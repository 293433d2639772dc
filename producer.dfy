/**
  The generator (src/messageproducer.py): `produce_messages` runs
  `num_messages` iterations; each creates a message and puts it into the
  producer's own queue, and a failed `put` is logged and skipped. The draws of
  each `create_message` call and whether each `put` raised are inputs.
 */
module Producer {
  import opened Messages
  import opened WorkQueue

  /** How many times `for _ in range(n)` runs its body. */
  function Iterations(n: int): (k: nat)
    ensures n >= 0 ==> k == n
    ensures n < 0 ==> k == 0
  {
    if n > 0 then n else 0
  }

  /** How many of the `put` calls raised. */
  function Failures(putFails: seq<bool>): (k: nat)
    ensures k <= |putFails|
    decreases |putFails|
  {
    if putFails == [] then 0
    else Failures(putFails[..|putFails| - 1]) + (if putFails[|putFails| - 1] then 1 else 0)
  }

  predicate ValidDraws(draws: seq<Draw>) {
    forall i :: 0 <= i < |draws| ==> draws[i].Valid()
  }

  /** The message each iteration creates, whether or not its `put` then raises. */
  function Created(draws: seq<Draw>): (ms: seq<Message>)
    requires ValidDraws(draws)
    ensures |ms| == |draws|
  {
    seq(|draws|, i requires 0 <= i < |draws| => CreateMessage(draws[i]))
  }

  /** Every created message is well formed. */
  lemma CreatedWellFormed(draws: seq<Draw>)
    requires ValidDraws(draws)
    ensures forall i :: 0 <= i < |draws| ==> IsWellFormed(Created(draws)[i])
  {
  }

  /** The messages whose `put` did not raise, in the order they were created. */
  function Kept(ms: seq<Message>, putFails: seq<bool>): seq<Message>
    requires |putFails| == |ms|
    decreases |ms|
  {
    if ms == [] then []
    else
      var n := |ms| - 1;
      Kept(ms[..n], putFails[..n]) + (if putFails[n] then [] else [ms[n]])
  }

  /** What a run of the loop puts. */
  function Enqueued(draws: seq<Draw>, putFails: seq<bool>): seq<Message>
    requires |putFails| == |draws| && ValidDraws(draws)
  {
    Kept(Created(draws), putFails)
  }

  /** One item fewer for every failed `put`. */
  lemma {:induction false} KeptLength(ms: seq<Message>, putFails: seq<bool>)
    requires |putFails| == |ms|
    ensures |Kept(ms, putFails)| == |ms| - Failures(putFails)
    decreases |ms|
  {
    if ms != [] {
      var n := |ms| - 1;
      KeptLength(ms[..n], putFails[..n]);
    }
  }

  /** Only created messages are put. */
  lemma {:induction false} KeptFromCreated(ms: seq<Message>, putFails: seq<bool>)
    requires |putFails| == |ms|
    ensures forall j :: 0 <= j < |Kept(ms, putFails)| ==> Kept(ms, putFails)[j] in ms
    decreases |ms|
  {
    if ms != [] {
      var n := |ms| - 1;
      KeptFromCreated(ms[..n], putFails[..n]);
    }
  }

  /** With no failed `put`, everything created is put, in order. */
  lemma {:induction false} KeptWithoutFailures(ms: seq<Message>, putFails: seq<bool>)
    requires |putFails| == |ms|
    requires forall i :: 0 <= i < |putFails| ==> !putFails[i]
    ensures Kept(ms, putFails) == ms
    decreases |ms|
  {
    if ms != [] {
      var n := |ms| - 1;
      KeptWithoutFailures(ms[..n], putFails[..n]);
      assert ms == ms[..n] + [ms[n]];
    }
  }

  /**
    Order is kept across skipped items: the message of a successful iteration i
    sits at position i minus the number of failed `put`s before it.
   */
  lemma {:induction false} KeptPosition(ms: seq<Message>, putFails: seq<bool>, i: nat)
    requires |putFails| == |ms|
    requires i < |ms| && !putFails[i]
    ensures Failures(putFails[..i]) <= i
    ensures i - Failures(putFails[..i]) < |Kept(ms, putFails)|
    ensures Kept(ms, putFails)[i - Failures(putFails[..i])] == ms[i]
    decreases |ms|
  {
    var n := |ms| - 1;
    KeptLength(ms[..n], putFails[..n]);
    if i < n {
      assert putFails[..n][..i] == putFails[..i];
      KeptPosition(ms[..n], putFails[..n], i);
    } else {
      assert putFails[..i] == putFails[..n];
    }
  }

  /** The queue gains `num_messages` minus the failed `put`s, each a well-formed message created by the loop. */
  lemma EnqueuedProperties(draws: seq<Draw>, putFails: seq<bool>)
    requires |putFails| == |draws| && ValidDraws(draws)
    ensures |Enqueued(draws, putFails)| == |draws| - Failures(putFails)
    ensures forall j :: 0 <= j < |Enqueued(draws, putFails)| ==> IsWellFormed(Enqueued(draws, putFails)[j])
    ensures (forall i :: 0 <= i < |putFails| ==> !putFails[i]) ==> Enqueued(draws, putFails) == Created(draws)
  {
    var ms := Created(draws);
    KeptLength(ms, putFails);
    KeptFromCreated(ms, putFails);
    CreatedWellFormed(draws);
    if forall i :: 0 <= i < |putFails| ==> !putFails[i] {
      KeptWithoutFailures(ms, putFails);
    }
  }

  class MessageProducer {
    const numMessages: int
    const messages: Queue

    constructor (numMessages: int)
      ensures this.numMessages == numMessages
      ensures fresh(messages) && messages.Valid()
      ensures messages.items == [] && messages.unfinishedTasks == 0
    {
      this.numMessages := numMessages;
      messages := new Queue();
    }

    /**
      `produce_messages`: `draws[i]` feeds the `create_message` call of
      iteration i and `putFails[i]` says whether its `put` raised.
     */
    method ProduceMessages(draws: seq<Draw>, putFails: seq<bool>)
      requires |draws| == Iterations(numMessages) && |putFails| == |draws|
      requires ValidDraws(draws)
      requires messages.Valid()
      modifies messages
      ensures messages.Valid()
      ensures messages.items == old(messages.items) + Enqueued(draws, putFails)
      ensures messages.unfinishedTasks == old(messages.unfinishedTasks) + |Enqueued(draws, putFails)|
    {
      ghost var created := Created(draws);
      for i := 0 to |draws|
        invariant messages.Valid()
        invariant messages.items == old(messages.items) + Kept(created[..i], putFails[..i])
        invariant messages.unfinishedTasks == old(messages.unfinishedTasks) + |Kept(created[..i], putFails[..i])|
      {
        var m := CreateMessage(draws[i]);
        assert created[..i + 1][..i] == created[..i] && putFails[..i + 1][..i] == putFails[..i];
        assert created[..i + 1][i] == m;
        if !putFails[i] {
          messages.Put(m);
        }
      }
      assert created[..|draws|] == created && putFails[..|putFails|] == putFails;
    }
  }

  /**
    A fresh producer with no failed `put` ends with `num_messages` items (none
    when `num_messages` is not positive), each the message of its iteration.
   */
  method ProduceWithoutFailures(numMessages: int, draws: seq<Draw>) returns (producer: MessageProducer, size: nat)
    requires |draws| == Iterations(numMessages) && ValidDraws(draws)
    ensures fresh(producer)
    ensures size == Iterations(numMessages) && size == |producer.messages.items|
    ensures forall i :: 0 <= i < size ==> producer.messages.items[i] == CreateMessage(draws[i])
  {
    producer := new MessageProducer(numMessages);
    var putFails := seq(|draws|, _ => false);
    assert forall i :: 0 <= i < |putFails| ==> !putFails[i];
    producer.ProduceMessages(draws, putFails);
    EnqueuedProperties(draws, putFails);
    size := producer.messages.QSize();
  }
}
