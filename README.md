# Message-dispatch simulation: a Dafny model of its sequential core

The system simulates a bulk SMS-style workload. A producer generates
`(phone_number, message)` pairs into a FIFO queue. A pool of senders drains the
queue and counts each simulated send as sent or failed by comparing a uniform
draw with `failure_rate`. A monitor sums the senders' counters while any sender
is alive.

This project models that core with every random draw, clock reading and
liveness observation passed in as an input:

- `decimal.dfy` (module `Decimal`): `str(n)` for a non-negative integer, its inverse, and the digit-count facts the phone-number format rests on.
- `messages.dfy` (module `Messages`): `get_random_phone_number`, `get_random_message` and `create_message` as functions of their draws.
- `workqueue.dfy` (module `WorkQueue`): the part of `queue.Queue` the program uses, as a class with `items` and `unfinishedTasks` fields.
- `producer.dfy` (module `Producer`): class `MessageProducer`. `produce_messages` is a loop that puts each message, where a failed `put` is skipped. It is proved against the spec function `Enqueued` and lemmas about it.
- `sender.dfy` (module `Sender`): class `MessageSender`. `_simulate_send` updates the two counters in place. `run` drains the queue, proved against the counting functions `SentCount` and `FailedCount`.
- `monitor.dfy` (module `Monitor`): class `ProgressMonitor`. `update_progress` writes the two totals and returns the zero-guarded average. `run` polls a liveness observation per iteration.
- `schedule.dfy` (module `Schedule`): several senders, the producer and the monitor on one queue, as an explicit interleaving of atomic steps.
  - A sender's iteration is two steps: taking a message (`get()`) and counting it after the sleep (`_simulate_send`, then `task_done()`). In between, the message is in flight: it has left the queue but is in no counter.
  - It states conservation (with the in-flight messages), FIFO order, monotone counters and early exit for every schedule.
  - It shows that the sender loop as written can block forever (see "## Findings").

The sender loop has two versions in the schedule model:

- **As written.** `Check` then `Get` are two separate steps. This is distinct from the early-exit race described next.
- **Corrected.** `TryTake` is one atomic take-or-stop step.

Both versions keep the early-exit race the program has: a sender that finds the queue empty before the producer is done stops for good. `EarlyExitMissesLaterArrival` states this. The model keeps the race instead of closing it.

Two facts of the code a reader might not expect:

- A recipient is `str` of ONE integer drawn from [1000000000, 9999999999]. It is not ten independently drawn digits.
- `range(num_messages)` runs zero times for a negative count (`Producer.Iterations`).

## Model

| member | source | states |
|---|---|---|
| `Decimal.DecimalString` | src/messageproducer.py:55 | the f-string rendering of the drawn integer is a non-empty digit string, with a leading 0 exactly when the number is 0 |
| `Decimal.DecimalRoundTrip` | src/messageproducer.py:55 | reading the rendered digits back gives the drawn integer |
| `Decimal.DigitsValueBounds` | src/messageproducer.py:55 | a k-digit string denotes a value below 10^k, and at least 10^(k-1) when its first digit is not 0 |
| `Decimal.DecimalLength` | src/messageproducer.py:55 | a number in [10^(k-1), 10^k) renders as exactly k digits |
| `Decimal.CanonicalRoundTrip` | src/messageproducer.py:55 | every digit string without a leading zero is the rendering of the number it denotes |
| `Messages.GetRandomPhoneNumber` | src/messageproducer.py:48-55 | the recipient matches `^\+1\d{10}$`, its first digit is not 0, and its ten digits denote the drawn integer |
| `Messages.PhoneNumberOfItsValue` | src/messageproducer.py:55 | conversely, every string of that pattern with a non-zero first digit is the recipient of exactly one legal draw in [1000000000, 9999999999] |
| `Messages.AlphabetIsAlphanumeric` | src/messageproducer.py:66 | `ascii_letters + digits` has 62 characters, all of them letters or digits |
| `Messages.AlphabetIndexOf` | src/messageproducer.py:66 | every ASCII letter or digit occurs in the alphabet exactly where the index function says |
| `Messages.GetRandomMessage` | src/messageproducer.py:58-67 | the payload has the drawn length, between 1 and 100, and only alphanumeric characters |
| `Messages.ChoicesRoundTrip` | src/messageproducer.py:66 | the alphabet picks can be read back from the payload, so distinct picks give distinct payloads |
| `Messages.EveryPayloadIsProduced` | src/messageproducer.py:65-66 | every alphanumeric string of length 1 to 100 is produced by some draw |
| `Messages.CreateMessage` | src/messageproducer.py:36-45 | the pair is (recipient, payload) in that order, both well formed, with the recipient from the integer draw and the payload from the length and picks |
| `WorkQueue.Queue.constructor` | src/messageproducer.py:19 | a new queue is empty with no unfinished tasks |
| `WorkQueue.Queue.Put` | src/messageproducer.py:31 | the item is appended at the tail and one more task is unfinished |
| `WorkQueue.Queue.Empty` | src/messagesender.py:38 | true exactly when no item is queued |
| `WorkQueue.Queue.QSize` | tests/test.py:25 | the number of queued items |
| `WorkQueue.Queue.Get` | src/messagesender.py:39 | removes and returns the head; the rest stays in order |
| `WorkQueue.Queue.TaskDone` | src/messagesender.py:42 | one unfinished task fewer; with none unfinished it is the `ValueError` case and nothing changes |
| `Producer.Iterations` | src/messageproducer.py:28 | `range(n)` runs n times for n >= 0 and never for n < 0 |
| `Producer.CreatedWellFormed` | src/messageproducer.py:29 | every message the loop creates is well formed |
| `Producer.KeptLength` | src/messageproducer.py:30-34 | one queued item fewer for each `put` that raised |
| `Producer.KeptFromCreated` | src/messageproducer.py:29-31 | only messages the loop created get queued |
| `Producer.KeptWithoutFailures` | src/messageproducer.py:28-31 | with no failed `put`, the queue gains every created message in creation order |
| `Producer.KeptPosition` | src/messageproducer.py:28-34 | a message whose `put` succeeded sits at its iteration index minus the failures before it, so skipping keeps the order |
| `Producer.EnqueuedProperties` | src/messageproducer.py:28-34 | the queue gains `num_messages` minus the failed puts, all well formed; with no failures it gains exactly the created messages |
| `Producer.MessageProducer.constructor` | src/messageproducer.py:10-19 | keeps `num_messages` and owns a fresh empty queue |
| `Producer.MessageProducer.ProduceMessages` | src/messageproducer.py:21-34 | the queue becomes its old contents followed by `Enqueued(draws, putFails)` |
| `Producer.ProduceWithoutFailures` | tests/test.py:22-25 | a fresh producer with no failed `put` reports `qsize() == num_messages`, item i being the message of iteration i |
| `Sender.EverySendCountedOnce` | src/messagesender.py:66-69 | every send bumps exactly one of the two counters |
| `Sender.FailedCountIsDrawsBelowRate` | src/messagesender.py:66-67 | the failures are exactly the draws below `failure_rate` |
| `Sender.ZeroRateAllSent` | src/messagesender.py:66-69 | with `failure_rate <= 0` every send counts as sent, since draws lie in [0,1) |
| `Sender.FullRateAllFailed` | src/messagesender.py:66-69 | with `failure_rate >= 1` every send counts as failed, since draws lie in [0,1) |
| `Sender.MessageSender.constructor` | src/messagesender.py:8-27 | keeps the queue and settings; both counters start at 0 |
| `Sender.MessageSender.SimulateSend` | src/messagesender.py:54-69 | the failed counter grows by one iff `r < failure_rate`, otherwise the sent counter does; the other stays |
| `Sender.MessageSender.Run` | src/messagesender.py:29-42 | the queue ends empty; every item is handled once in FIFO order; all are acknowledged; the counters grow by the outcomes of the draws |
| `Sender.SendOneWithZeroRate` | tests/test.py:29-40 | one message at `failure_rate = 0.0` leaves `sent_count = 1`, `failed_count = 0` |
| `Sender.SendOneWithFullRate` | src/messagesender.py:66-69 | one message at `failure_rate = 1.0` leaves `sent_count = 0`, `failed_count = 1` |
| `Monitor.TotalsOfTwoSenders` | tests/test.py:61-75 | senders at (5, 2) and (3, 1) sum to 8 sent and 3 failed |
| `Monitor.TotalsUpdate` | src/progressmonitor.py:45-46 | changing one sender's counters moves each total by exactly that sender's difference |
| `Monitor.TotalsMonotone` | src/progressmonitor.py:45-46 | totals never decrease while no sender's counters do |
| `Monitor.AverageTimePerMessage` | src/progressmonitor.py:47-51 | 0 when no message was processed, else the value that times the count gives the elapsed time |
| `Monitor.ProgressMonitor.constructor` | src/progressmonitor.py:8-24 | keeps the senders and interval; both totals start at 0 |
| `Monitor.ProgressMonitor.UpdateProgress` | src/progressmonitor.py:38-55 | the totals become the sums of the senders' counters; `total_messages` is their sum and the average is zero-guarded; no sender's counters change |
| `Monitor.ProgressMonitor.Run` | src/progressmonitor.py:26-36 | the loop runs exactly while the poll finds some sender alive; after at least one poll the totals are the current sums |
| `Monitor.UpdateTwice` | tests/test.py:72-83 | two updates with no sender activity between them report identical totals |
| `Schedule.Record` | src/messagesender.py:66-69 | one send adds one to `failed` iff `r < failure_rate`, else one to `sent` |
| `Schedule.Step` | src/messagesender.py:38-42 | no step changes the number of senders; only a `Produce` step appends to the record of messages put |
| `Schedule.InitInv` | src/messagesender.py:26-27 | fresh senders on an empty queue satisfy the conservation/FIFO invariant |
| `Schedule.InFlightUpdate` | src/messagesender.py:39-41 | changing one sender changes the number of messages in flight by exactly that sender's difference |
| `Schedule.TakeInv` | src/messagesender.py:39 | taking the head moves one message from the queue into flight, one more in flight, and keeps the invariant |
| `Schedule.FinishInv` | src/messagesender.py:40-42 | counting the held message adds exactly one to the counters' sum and keeps the invariant |
| `Schedule.StepInv` | src/messagesender.py:38-42 | each step of any kind keeps the invariant |
| `Schedule.RunInv` | src/messagesender.py:38-42 | every schedule keeps the invariant |
| `Schedule.RunProduced` | src/messageproducer.py:31 | the messages put are exactly those of the schedule's `Produce` steps, in order |
| `Schedule.Conservation` | src/messagesender.py:38-42 | under any schedule, taken messages then the queue are exactly the messages put; counters' sum plus messages in flight plus queue length equals the number put; with no message in flight, counters plus queue alone do |
| `Schedule.StepMonotone` | src/messagesender.py:66-69 | one step never lowers a counter and never changes a terminated sender |
| `Schedule.CountersNeverDecrease` | src/messagesender.py:66-69 | under any schedule no sender's counters decrease |
| `Schedule.TerminatedStaysPut` | src/messagesender.py:38 | a sender that left its loop never changes again |
| `Schedule.EarlyExitMissesLaterArrival` | src/messagesender.py:38 | a sender whose `empty()` test comes before the first `put` stops, and never processes that message; the corrected take-or-stop step stops the same way |
| `Schedule.InFlightUnseenByMonitor` | src/progressmonitor.py:45-46 | an update while the only message is held between `get()` and `_simulate_send` sees an empty queue and zero totals though one message was put |
| `Schedule.PollIdempotent` | src/progressmonitor.py:45-46 | a second update with nothing in between changes nothing, and the update's totals are the current sums |
| `Schedule.BlockedGetStaysBlocked` | src/messagesender.py:38-39 | a sender in `get()` on an empty queue stays blocked and alive while nothing is put |
| `Schedule.AsWrittenSenderBlocksForever` | src/messagesender.py:38-39 | two senders and one message: after sender 0 takes and counts it, sender 1 stays blocked in `get()` and alive under every later schedule without a `put` |
| `Schedule.CorrectedStepProgress` | src/messagesender.py:38-42 | the corrected loop's next step by a live sender (take-or-stop, or counting its held message) strictly lowers the work left |
| `Schedule.CorrectedDrainCompletes` | src/messagesender.py:38-42 | once production is done, the corrected loop drains: every sender stops, no sender is alive, and if one was running the queue ends empty with every message counted once |

## Left out

- Threads: `start`, `join`, daemon threads and `is_alive` are left out. The schedule model's explicit interleaving stands in for them. `Monitor.ProgressMonitor.Run` takes liveness as one observation per poll.
- Time: `time.sleep`, the producer's 10 ms throttle, the monitor's interval and the wall clock are left out. Elapsed time is an input to `UpdateProgress`.
- `_get_random_sleep_time` is left out: it is a Gaussian float draw that only feeds `sleep`.
- `Monitor.AverageTimePerMessage`: computed on reals, so it does not model floating-point rounding or the `.2f` formatting of the log line.
- Randomness: the internals of `random.randint`, `random.choices` and `random.random` are left out. Their results are inputs of the types they can return (`PhoneValue`, `PayloadLength`, `AlphabetIndex`, `Unit`).
- `WorkQueue.Queue.Get`: requires a non-empty queue. On an empty queue `get()` blocks, and the class's only caller tests `empty()` first. Blocking itself appears in the schedule model (`Get` on an empty queue changes nothing).
- Queue locking and condition variables are left out: each queue call is one atomic step.
- `Schedule.Step`: the sleep, `_simulate_send` and `task_done()` after a `get()` form one `Send` step. A monitor update can fall before or after that step, not inside it.
- `Monitor.ProgressMonitor.Run`: requires that some poll finds no sender alive, since a loop without a termination bound is not expressible here. A sender blocked in `get()` stays alive for ever (`Schedule.AsWrittenSenderBlocksForever`), and then the monitor's `run` does not return; that case is outside this method's contract.
- Python's `queue.Queue` is modelled through the five calls the program makes. Its other methods are not part of this model.
- Producer failures: only a raising `put` is modelled, as an input per iteration. An exception from the `sleep` after a successful `put` is not modelled.
- The log records (`logger.exception`, `logger.info`), logging setup and JSON formatting (main.py:11-22, utils/log_formatter.py) are left out.
- Configuration parsing (src/userinput.py) and the entry point with its interrupt handling (main.py:96-104) are left out.
- main.py's wiring is not modelled: `create_senders` and the join order. `Schedule.Init` gives every sender the same queue and failure rate, as main.py:87-90 does.

## Findings

| source | as written | input that shows it | evidently intended | confidence | as-written member | corrected member |
|---|---|---|---|---|---|---|
| src/messagesender.py:38-39 | `run` tests `empty()` and then calls the blocking `get()` as two separate queue operations | two senders, one message. Both senders see a non-empty queue, sender 0 takes the message, and sender 1 waits in `get()` on an empty queue with the producer finished. It never terminates, so the monitor's `run` and main's `join` never return | a sender should take the next item or stop in one atomic step (a non-blocking `get_nowait` that stops on `queue.Empty`) | medium; not executed | `Schedule.AsWrittenSenderBlocksForever` | `Schedule.CorrectedDrainCompletes` |
