/**
  The shared FIFO between the generator and the senders: the part of Python's
  `queue.Queue` the program uses (`put`, `empty`, `qsize`, `get`, `task_done`),
  with its `unfinished_tasks` bookkeeping. Locking is not modelled: each call is
  one atomic step.
 */
module WorkQueue {
  import opened Messages

  class Queue {
    /** The queued items, head first. */
    var items: seq<Message>
    /** Items put and not yet acknowledged with `task_done`. */
    var unfinishedTasks: nat

    /** Every item still queued is an unfinished task. */
    ghost predicate Valid()
      reads this
    {
      |items| <= unfinishedTasks
    }

    constructor ()
      ensures Valid()
      ensures items == [] && unfinishedTasks == 0
    {
      items := [];
      unfinishedTasks := 0;
    }

    /** `put(item)`: an unbounded queue never blocks; the item goes to the tail. */
    method Put(m: Message)
      requires Valid()
      modifies this
      ensures Valid()
      ensures items == old(items) + [m]
      ensures unfinishedTasks == old(unfinishedTasks) + 1
    {
      items := items + [m];
      unfinishedTasks := unfinishedTasks + 1;
    }

    /** `empty()` */
    method Empty() returns (isEmpty: bool)
      ensures isEmpty <==> |items| == 0
    {
      isEmpty := items == [];
    }

    /** `qsize()` */
    method QSize() returns (size: nat)
      ensures size == |items|
    {
      size := |items|;
    }

    /**
      `get()` on a queue that holds an item: removes and returns the head.
      On an empty queue `get()` blocks until an item arrives; the sequential
      model's only caller tests `empty()` first.
     */
    method Get() returns (m: Message)
      requires Valid()
      requires items != []
      modifies this
      ensures Valid()
      ensures m == old(items)[0] && items == old(items)[1..]
      ensures [m] + items == old(items)
      ensures unfinishedTasks == old(unfinishedTasks)
    {
      m := items[0];
      items := items[1..];
    }

    /**
      `task_done()`: acknowledges one item taken with `get`. When no task is
      unfinished it raises `ValueError`; that is `ok == false`, with nothing
      changed. It does not look at the items, so a caller that acknowledges
      more than it took can break `Valid()`.
     */
    method TaskDone() returns (ok: bool)
      modifies this
      ensures ok <==> old(unfinishedTasks) > 0
      ensures items == old(items)
      ensures unfinishedTasks == if ok then old(unfinishedTasks) - 1 else old(unfinishedTasks)
    {
      ok := unfinishedTasks > 0;
      if ok {
        unfinishedTasks := unfinishedTasks - 1;
      }
    }
  }
}
