# Verified models of the Telegram delivery package

This project models, in Dafny, the bookkeeping of a Django package that moves Telegram calls from
web processes to a bot worker, and proves what that bookkeeping keeps under threads, crashes,
refusals and shutdown. It checks with `dafny verify dfyconfig.toml`.

| file | what it models |
|---|---|
| `DeliveryBooks.dfy`, `Delivery.dfy` | the delivery consumer: per-queue and per-bot counts, the park, settlement latches, the read loop |
| `EventWriter.dfy`, `EventRecorder.dfy`, `RecorderWatch.dfy` | the event log: the bisecting writer, the recorder's queues, drainers and drop ledger, and who still looks at each queue |
| `TokenBuckets.dfy`, `LimiterMap.dfy`, `LimiterRegistry.dfy` | the rate limiter: GCRA buckets, the bounded map of them, who owns a token |
| `ClientSends.dfy`, `ClientShutdown.dfy` | a send's life while `close()` runs |
| `FanOut.dfy` | one message per chat, published at once or from a commit hook |
| `ConsumerSet.dfy` | the reconciler that keeps one consumer a lane |
| `ScheduleLeases.dfy`, `BotIntents.dfy` | two lease protocols, each on a database row |
| `Outcomes.dfy`, `ShortIds.dfy` | the outcome reducer and the short-id codec |
| `Options.dfy` | a value that may be absent, shared by the others |

Concurrency is modelled as atomic steps over shared state: one step for each lock region, queue
operation, flag write or conditional UPDATE. Where the program is a class, the model is a class whose
methods call a method standing for the other threads (`Environment`, `Others`, `OthersAround`, ...)
between any two of their own steps; it takes any number of the other threads' steps, each checked
to keep the same books. What a method promises therefore holds under every interleaving. Where a
promise needs that nobody interferes, a flag says so (`alone`), and the promise is exact.

## What was found

Six things the documentation or the code suggests do not hold as stated; each has a lemma with the
input and the exact condition.

- A queue can go past `MAX_IN_FLIGHT` by one read where `serve()` lands within a turn, and in two
  ways: the lane shrinks to the transport's own queue, at its bound, between the capacity gate and the
  read, and the answer, named or not, is counted there (`ShrinkingLaneOverruns`); or it changes while a
  read of the own queue blocks, and an answer that names no queue is counted under a first queue at its
  bound (`GrowingLaneOverruns`). A turn passes a bound if and only if its answer is a call counted
  under a queue that `readable()` did not name and that is at its bound by then (`PastItsBound`, in
  what `TakeOne` and `Turn` promise of any transport); from one that keeps to what it was asked, that is a
  read that asked for no queue. With `serve()` between turns only, and such a transport, the bound
  holds on every run (`Run`).
- A second `close()` that finds the loop running clears the flags of the first, and a send made on
  the loop just then is lost without a word (`SecondCloseLosesASend`); so is a queued hand-off when
  polling starts and stops between the teardown's two looks at the loop
  (`PollingUnderTeardownLosesASend`). What is lost is exactly what is still on the loop when it is
  closed (`ClosingLoses`), and nothing is where nobody meddles (`UndisturbedLosesNothing`).
- The hand-off callback reads `_closing` and then `_draining`. On every run it refuses if and only if
  the last write of `_draining` before the second read took it down (`RefusedByLastWrite`). On a run
  with no second `close()` and nobody driving the loop under a teardown, that is if and only if by then
  the `close()` it saw is over or the turn of its drain failed (`CallbackRefusesIff`). All three
  happen: `FailedTurnRefuses`; `SkippedCloseRefuses`, where the refused send belongs to a bot that is
  open again; and `SecondCloseRefuses`, under a first `close()` that has yet to drain.
- `Consumers.collect()` settles running consumers without looking at their threads, against its own
  docstring: one is settled under its thread if and only if the thread is alive when the walk comes to
  it (`Collect`), and a reconcile followed by a `collect()` does it (`CollectWithoutStop`).
- Evicting a bucket shows in a later slot unless it is idle and nobody who looked it up has yet to
  claim on it: if and only if (`ForgettingNeverShowsIff`). Being idle is not enough, because a call
  looks its bucket up before it waits for its overall slot (`OverlappingCallsDiffer`). On every run
  whose evictions meet that condition the bounded map agrees with the unbounded one
  (`BoundedRefinesUnbounded`).
- `_rehome` puts an event into a queue it looked up earlier and does not look again, so an event can be
  left in a queue that was stopped and drained meanwhile, with no row and no count
  (`RehomingForgetsOne`). No other step leaves one to nobody, and this one does if and only if its
  target has room and nobody looks at it any more (`StepKeepsIff`). What a rehomer can check is that its
  target is live when it puts; then nothing is stranded (`LiveTargetIsSafe`). On every run, once all
  threads are done, admitted = rows + ledger + reported if and only if no queue was left with an event
  (`VanishedIffLeft`).

## Model

| member | source | states |
|---|---|---|
| DeliveryBooks.HandedNewKeeps | src/django_aiogram/consumer/delivery.py:913-948 | a hand-over of a fresh message keeps all nine books, provided none of its bot's messages is parked |
| DeliveryBooks.HandedParkedKeeps | src/django_aiogram/consumer/delivery.py:586-605 | handing over the first parked message of its bot keeps the books; its queue slot is not counted twice |
| DeliveryBooks.HandedPlainKeeps | src/django_aiogram/consumer/delivery.py:977-980 | a handler that takes no callback takes no slot and leaves the counts exact |
| DeliveryBooks.ParkedNewKeeps | src/django_aiogram/consumer/delivery.py:564-584 | parking takes one queue slot and no send, keeps the park oldest first and every bot's order |
| DeliveryBooks.ClaimedKeeps | src/django_aiogram/consumer/delivery.py:452-511 | winning a latch closes it for every other settler and moves no count |
| DeliveryBooks.ReportedKeeps | src/django_aiogram/consumer/delivery.py:478-511 | a settlement enters the finished queue once |
| DeliveryBooks.CaughtKeeps | src/django_aiogram/consumer/delivery.py:949-976 | the exception path may settle only where no callback has |
| DeliveryBooks.PoppedKeeps | src/django_aiogram/consumer/delivery.py:441-450 | taking a settlement off the queue neither loses nor repeats it |
| DeliveryBooks.GaveBackKeeps | src/django_aiogram/consumer/delivery.py:513-527 | the slots given back are there to give: neither count goes below zero, and both stay exact |
| DeliveryBooks.AckedKeeps | src/django_aiogram/consumer/delivery.py:705-718 | an acknowledgement keeps the books when the message ended completed or raised and was not acknowledged before |
| DeliveryBooks.WidenedKeeps | src/django_aiogram/consumer/delivery.py:607-628 | `serve` starts an arriving queue at zero and touches no other count |
| DeliveryBooks.ForgottenKeeps | src/django_aiogram/consumer/delivery.py:272-287 | forgetting a queue with nothing in flight loses no outstanding slot |
| DeliveryBooks.StepKeeps | src/django_aiogram/consumer/delivery.py:435-628 | every step of every thread keeps the whole invariant |
| DeliveryBooks.EveryReachableState | src/django_aiogram/consumer/delivery.py:435-628 | in every state of every run: counts equal live sends plus uncollected plus parked, one settlement a message, at most one acknowledgement and none for a refused or cancelled message, per-bot order |
| DeliveryBooks.WhereTheSlotsAre | src/django_aiogram/consumer/delivery.py:272-287 | a queue's count is its unsettled sends plus its uncollected settlements plus its parked messages |
| DeliveryBooks.WhereTheSendsAre | src/django_aiogram/consumer/delivery.py:513-527 | a bot's count is its unsettled sends plus its uncollected settlements |
| DeliveryBooks.SomethingWillFreeIt | src/django_aiogram/consumer/delivery.py:529-537 | a bot at its budget has a send or settlement that will free it |
| DeliveryBooks.Goes | src/django_aiogram/consumer/delivery.py:435-628 | an enabled step takes books some run leads to, to books some run leads to; `Delivery.Valid` is that its books are such, so each method's whole execution is a run |
| DeliveryBooks.ReachedInv | src/django_aiogram/consumer/delivery.py:435-628 | and so its books are right, whatever it has done |
| DeliveryConsumer.ShrinkingLaneOverruns | src/django_aiogram/consumer/delivery.py:289-319 | the counterexample of a lane that shrinks between gate and read, for any two queues and an answer named or not: the gate open, `readable`'s answer none, the count two under a bound of one |
| DeliveryConsumer.GrowingLaneOverruns | src/django_aiogram/consumer/delivery.py:253-270 | the counterexample of a lane that grows in front of the own queue while the read blocks, through the same gate and read |
| DeliveryConsumer.NamedQueues | src/django_aiogram/broker/base.py:46-62 | each name once, none left out |
| DeliveryConsumer.NamedInOrder | src/django_aiogram/broker/base.py:46-62 | in the order of their first mentions |
| DeliveryConsumer.Delivery.Serve | src/django_aiogram/consumer/delivery.py:607-628 | refused exactly where several queues meet a transport that cannot multiplex, changing nothing; otherwise the set moves and the counts only widen |
| DeliveryConsumer.Delivery.OtherStep | src/django_aiogram/consumer/delivery.py:478-511 | a callback, `serve` or `stop` on another thread keeps the consumer's invariant and moves only what it may |
| DeliveryConsumer.Delivery.Environment | src/django_aiogram/consumer/delivery.py:478-511 | so does any number of them |
| DeliveryConsumer.Delivery.TookASlotBack | src/django_aiogram/consumer/delivery.py:513-527 | the new books are the old with one slot and one send back, never negative |
| DeliveryConsumer.Delivery.Acknowledge | src/django_aiogram/consumer/delivery.py:705-718 | called only for a message that may be acknowledged and has not been |
| DeliveryConsumer.Delivery.HandOver | src/django_aiogram/consumer/delivery.py:913-980 | the message is handed over exactly once, and acknowledged here, with callbacks, if and only if the handler raised and none of them had been called, without, unless it was cancelled; its two slots are held afterwards exactly where it returned or a callback has them; the park is unchanged though it is walked again |
| DeliveryConsumer.Delivery.CallDeferring | src/django_aiogram/consumer/delivery.py:946-980 | a handler that returns is not acknowledged here, one that was cancelled never, one that raised exactly where no callback had the latch; the slots come back exactly where it failed with none called |
| DeliveryConsumer.Delivery.Fails | src/django_aiogram/consumer/delivery.py:949-976 | an exception out of the handler, of either kind, by whether a callback had been called before |
| DeliveryConsumer.Delivery.CallPlain | src/django_aiogram/consumer/delivery.py:946-980 | without callbacks: acknowledged if and only if it was not cancelled, and nothing counted |
| DeliveryConsumer.Delivery.GiveUp | src/django_aiogram/consumer/delivery.py:949-976 | slots come back exactly where nothing settled the message first, and the re-entrant walk hands over nothing |
| DeliveryConsumer.Delivery.HandOverParked | src/django_aiogram/consumer/delivery.py:586-605 | afterwards every parked message's bot is at its budget; where that was so before, nothing moves |
| DeliveryConsumer.Delivery.WalkOne | src/django_aiogram/consumer/delivery.py:586-605 | one message of the walk: back into the park where its bot is at its budget, else handed over, and acknowledged exactly where the hand-over says yes |
| DeliveryConsumer.Delivery.SettleOldest | src/django_aiogram/consumer/delivery.py:444-450 | the oldest settlement's slots come back, and it is acknowledged exactly if delivered |
| DeliveryConsumer.Delivery.Collect | src/django_aiogram/consumer/delivery.py:435-450 | everything finished at the call is settled, acknowledged if delivered, and nothing is left stalled |
| DeliveryConsumer.Delivery.WaitedForRoom | src/django_aiogram/consumer/delivery.py:539-562 | a yes means the bot has room and no stop came, a no that a stop came; a round of the wait settles what finished first; nothing is parked or handed over meanwhile |
| DeliveryConsumer.Delivery.HoldForCapacity | src/django_aiogram/consumer/delivery.py:663-703 | open exactly when some served queue has room and no stop came; a round of the wait settles what finished first |
| DeliveryConsumer.Delivery.ForgetRetired | src/django_aiogram/consumer/delivery.py:272-287 | exactly the counts of queues not served with nothing in flight go |
| DeliveryConsumer.Delivery.Readable | src/django_aiogram/consumer/delivery.py:289-319 | of the set it looks up, exactly the queues below their bound, in order; nothing is named exactly where the lane at its one look is the transport's own queue |
| DeliveryConsumer.Delivery.Park | src/django_aiogram/consumer/delivery.py:564-584 | the message is last in the park, one queue slot more, nothing stalled |
| DeliveryConsumer.Delivery.Dispatch | src/django_aiogram/consumer/delivery.py:785-883 | what each kind of payload leads to: acknowledged, left, handed over, parked or waited for, each with its exact effect and its exact answer; a call is left only where a stop came, and a bot below its budget is always handed over |
| DeliveryConsumer.Delivery.QueueOf | src/django_aiogram/consumer/delivery.py:253-263 | the queue the answer names where it is counted, else the first of the lane at a later look; any answer |
| DeliveryConsumer.Delivery.TakeOne | src/django_aiogram/consumer/delivery.py:253-270 | for any answer: taken once, counted under one queue, acknowledged exactly where `dispatch` says so, and past a bound exactly where it is a call counted under a queue `readable` did not name, at its bound by then |
| DeliveryConsumer.Delivery.Turn | src/django_aiogram/consumer/delivery.py:1062-1109 | one turn, with others running between any two looks at the books and for any transport, keeps conservation, the bots' budgets and no stall; a transport that always has a message has exactly one taken where the gate opens; a queue's bound is passed exactly in the way named, and never where the lane does not change within the turn and the transport keeps to what it was asked |
| DeliveryConsumer.Delivery.Run | src/django_aiogram/consumer/delivery.py:1062-1109 | any number of turns with `serve` between them, from such a transport: no queue past a set `MAX_IN_FLIGHT`, no bot past its own, nothing parked with `MAX_IN_FLIGHT` zero, and then a message a turn; a stopped consumer still collects |
| EventWriter.WritesWhatItSays | src/django_aiogram/eventlog/writer.py:128-162 | against any database: an order-preserving subset lands, each row once, the count of the missing is exact, and it raises exactly when a non-empty batch lands nothing |
| EventWriter.OnlyBadRowsAreLost | src/django_aiogram/eventlog/writer.py:217-249 | where refusal is per row, exactly the acceptable rows land |
| EventWriter.LadderCost | src/django_aiogram/eventlog/writer.py:243-249 | the ladder under one bad row costs at most two statements a halving and 32 more |
| EventWriter.OneBadRowCost | src/django_aiogram/eventlog/writer.py:128-162 | a batch of at most 32 times 2 to the k rows with one bad row costs at most 1 + 2k + 32 statements |
| EventRecorder.EventRecorder.Others | src/django_aiogram/eventlog/recorder.py:167-233 | any number of other threads' steps keep this thread's books: admitted = rows + queued + in hands + lost, lost = ledger + claims + reported |
| EventRecorder.EventRecorder.OtherStep | src/django_aiogram/eventlog/recorder.py:167-233 | and so does each one step: admit, put, get, write, lose, claim, give back, swap |
| EventRecorder.EventRecorder.Lost | src/django_aiogram/eventlog/bookkeeping.py:47-81 | the events leave the hand and are counted once |
| EventRecorder.EventRecorder.Claim | src/django_aiogram/eventlog/bookkeeping.py:83-99 | never more than is there, so the ledger does not go below zero |
| EventRecorder.EventRecorder.GiveBack | src/django_aiogram/eventlog/bookkeeping.py:101-104 | a gap nobody recorded is counted again, in full |
| EventRecorder.EventRecorder.Buffer | src/django_aiogram/eventlog/recorder.py:258-286 | the live queue, or one new empty one and no event moved |
| EventRecorder.EventRecorder.Record | src/django_aiogram/eventlog/recorder.py:167-207 | whatever the others do the event stays accounted for; alone, it is last in the live queue, or counted where there is no room, and on the synchronous path a row exactly where its write lands, else counted |
| EventRecorder.EventRecorder.Rehome | src/django_aiogram/eventlog/recorder.py:209-233 | whatever the others do, no item is lost; alone, the detached queue is left empty and its items stand behind the live queue's, in order, as far as there is room |
| EventRecorder.EventRecorder.Deliver | src/django_aiogram/eventlog/recorder.py:525-553 | the rows gained are exactly those the write lands, the number returned exactly those it does not, and it raises exactly where none did or something else broke |
| EventRecorder.EventRecorder.WriteOrCount | src/django_aiogram/eventlog/recorder.py:443-471 | the batch is exactly the rows its write lands and a count of the rest; it raises exactly where none landed |
| EventRecorder.EventRecorder.Flush | src/django_aiogram/eventlog/recorder.py:429-473 | alone: the batch as its write says, then the gap there was before it told exactly where the batch did not fail and the gap row lands; five failures in a row suspend; against a database that accepts everything the whole batch becomes rows and nothing is counted |
| EventRecorder.FlushTells | src/django_aiogram/eventlog/recorder.py:429-473 | each event of a flushed batch is a row or counted, and a gap told of is counted no more |
| EventRecorder.HealthyFlush | src/django_aiogram/eventlog/recorder.py:429-473 | against a database that accepts everything each event of the batch is a row, none is counted, and the gap there was is told |
| EventRecorder.EventRecorder.RecordGap | src/django_aiogram/eventlog/recorder.py:475-513 | a gap is told exactly where its row lands, and goes back in full otherwise |
| EventRecorder.EventRecorder.Gather | src/django_aiogram/eventlog/recorder.py:408-427 | the events in order up to the limit or a wake-up, in hand and nowhere else; it says dry only where it saw the queue empty, and alone with limit enough it does |
| EventRecorder.DrainsAll | src/django_aiogram/eventlog/recorder.py:361-374 | draining past the wake-ups empties a queue and yields every event in it |
| EventRecorder.EventRecorder.WriterRun | src/django_aiogram/eventlog/recorder.py:306-359 | however the writer ends its queue is not the live one, every event stays accounted for, and dry means its queue was seen empty after that; alone, every event of the queue is a row or counted, and against a database that accepts everything a row |
| EventRecorder.EventRecorder.WriterTurn | src/django_aiogram/eventlog/recorder.py:317-331 | a turn writes what it gathered or, while suspended, counts it lost; alone it takes exactly the queue up to a wake-up, and against a database that accepts everything makes rows of it |
| EventRecorder.EventRecorder.Abandon | src/django_aiogram/eventlog/recorder.py:376-406 | what it gathers is written or counted, and dry means it saw the queue empty; alone, exactly the queue up to the limit, and dry where the limit is larger; against a database that accepts everything all of it rows |
| EventRecorder.EventRecorder.DrainOnce | src/django_aiogram/eventlog/recorder.py:565-599 | returns how many events it took, each a row or counted; alone, exactly the first of the live queue up to its limit; against a database that accepts everything all of it rows |
| EventRecorder.EventRecorder.Stop | src/django_aiogram/eventlog/recorder.py:620-664 | the queue is detached, every event stays accounted for, and dry means the queue was seen empty; alone and with limit enough it is dry and every event in it a row or counted; against a database that accepts everything all of it rows |
| EventRecorder.NothingVanishes | src/django_aiogram/eventlog/recorder.py:167-664 | with nothing queued and no hand full, admitted = rows + ledger + reported |
| RecorderWatch.PlaceKeepsIff | src/django_aiogram/eventlog/recorder.py:226-233 | the put of a rehomed event keeps every event watched if and only if somebody still looks at its target or the target is full |
| RecorderWatch.StepKeepsIff | src/django_aiogram/eventlog/recorder.py:167-233 | every step of producers, rehomers, writers, `stop` and `drain_once` keeps every queued event watched, if and only if it is not such a put |
| RecorderWatch.LiveTargetIsSafe | src/django_aiogram/eventlog/recorder.py:226-233 | a target still live when the put lands strands nothing |
| RecorderWatch.NobodyIsForgotten | src/django_aiogram/eventlog/recorder.py:167-664 | over every run without such a put each queued event has a drainer or a producer still to look, and once all threads are done admitted = rows + ledger + reported |
| RecorderWatch.StepBalances | src/django_aiogram/eventlog/recorder.py:167-664 | every step, such a put too, keeps admitted = in hands + queued + in batches + rows + ledger + claimed + reported |
| RecorderWatch.VanishedIffLeft | src/django_aiogram/eventlog/recorder.py:167-664 | on every run at all, once all threads are done, admitted = rows + ledger + reported if and only if every queue is empty |
| RecorderWatch.RehomingForgetsOne | src/django_aiogram/eventlog/recorder.py:209-233 | a run from the start after which all threads are done and one admitted event is in a queue nobody looks at, no row and not counted |
| TokenBuckets.TokenBucket.Acquire | src/django_aiogram/producer/throttling.py:116-136 | the slot claimed, the next free time and the wait measured from a later reading |
| TokenBuckets.TokenBucket.AcquireAll | src/django_aiogram/producer/throttling.py:116-136 | successive calls claim the specified slots |
| TokenBuckets.SlotsSpread | src/django_aiogram/producer/throttling.py:116-130 | slots are at least the interval apart, and never further back than the burst |
| TokenBuckets.WindowBound | src/django_aiogram/producer/throttling.py:56-136 | a closed window of length T sees at most T*rate + max(1, capacity) calls, plus delay*rate where wake-ups come late |
| TokenBuckets.FirstClaimedFirstOut | src/django_aiogram/producer/throttling.py:71-73 | calls go out in the order they claimed |
| TokenBuckets.BurstSleepers | src/django_aiogram/producer/throttling.py:56-67 | N calls at once on an idle bucket make exactly max(0, N - max(1, floor(capacity))) sleep |
| TokenBuckets.BurstTimes | src/django_aiogram/producer/throttling.py:71-103 | and the k-th of them, counted from 0, claims the slot k/rate after now less the burst, no later and no sooner |
| TokenBuckets.ForgettableIffIdle | src/django_aiogram/producer/throttling.py:105-114 | forgetting a bucket changes no later slot if and only if it is idle |
| LimiterMap.VictimIs | src/django_aiogram/producer/throttling.py:204-222 | the victim is the first idle of the oldest eight, each judged at its own clock reading, or the oldest |
| LimiterMap.ChatBuckets.Choose | src/django_aiogram/producer/throttling.py:217-219 | the loop finds that victim |
| LimiterMap.ChatBuckets.Evict | src/django_aiogram/producer/throttling.py:204-222 | exactly the victim goes, and the rest keep their order through the pop and push |
| LimiterMap.ChatBuckets.Make | src/django_aiogram/producer/throttling.py:190-201 | a new bucket, and where it is one too many exactly the victim goes |
| LimiterMap.ChatBuckets.For | src/django_aiogram/producer/throttling.py:178-201 | the map afterwards is the specified one and within 4096, and the call holds the bucket it found |
| LimiterMap.ChatBuckets.Claim | src/django_aiogram/producer/throttling.py:233-249 | the claim goes to the bucket the call looked up, in the map or not any more |
| LimiterMap.TouchedShape | src/django_aiogram/producer/throttling.py:178-222 | at most 4096 keys, the asked one last, all others in their old relative order, a victim only where one is due |
| LimiterMap.StepRefines | src/django_aiogram/producer/throttling.py:178-249 | each look-up, claim, departure and harmless eviction keeps the simulation, and a claim gets the unbounded map's slot |
| LimiterMap.BoundedRefinesUnbounded | src/django_aiogram/producer/throttling.py:178-249 | over every run of overlapping calls whose evictions are harmless, every slot is the unbounded map's |
| LimiterMap.ForgettingNeverShowsIff | src/django_aiogram/producer/throttling.py:204-222 | an eviction changes no slot of anything that can follow if and only if its bucket is idle and no look-up of it is outstanding |
| LimiterMap.OverlappingCallsDiffer | src/django_aiogram/producer/throttling.py:233-249 | a run that evicts an idle bucket under an outstanding look-up: slots 10 and 10, against 10 and 11 |
| LimiterRegistry.Registry.Get | src/django_aiogram/producer/throttling.py:341-392 | what one ask changes and answers, for a held number, a foreign token, an unknown key and a rebuild; the stored limiter always matches the stored numbers |
| LimiterRegistry.Registry.Build | src/django_aiogram/producer/throttling.py:268-286 | a build of its own from exactly these numbers, none for an empty decision, nothing written where a key is unknown |
| LimiterRegistry.Registry.Clear | src/django_aiogram/producer/throttling.py:403-409 | everything is forgotten |
| LimiterRegistry.OwnerKeeps | src/django_aiogram/producer/throttling.py:394-401 | an owned token changes only on its owner's changed numbers, and does then |
| LimiterRegistry.UnownedIsTaken | src/django_aiogram/producer/throttling.py:341-401 | a token new or owned by nobody named goes to whoever asks for other numbers of the three budgets there are; any other budget raises and changes nothing |
| LimiterRegistry.OwnedOverRuns | src/django_aiogram/producer/throttling.py:341-401 | over any interleaving, a token's limiter stays one build until its owner asks for different numbers, and everyone is answered with it |
| ClientSends.StepKeeps | src/django_aiogram/producer/client.py:771-1294 | every step of sender, loop, close, polling or a rival close keeps the invariant |
| ClientSends.EveryRunSaysOnce | src/django_aiogram/producer/client.py:1086-1226 | on every run at most one of completion, refusal and raise is said of a send, and a drop row exactly where it was refused or cancelled |
| ClientSends.UndisturbedLosesNothing | src/django_aiogram/producer/client.py:1255-1294 | where nobody meddles no send is lost, and a drained or closed loop has nothing on it |
| ClientSends.NoRefusalUnexcused | src/django_aiogram/producer/client.py:1086-1226 | on every run, a send is refused only where one of its looks found `_closing` up, or its loop closed or replaced |
| ClientSends.CancelledOutlasted | src/django_aiogram/producer/client.py:1265-1294 | a send is cancelled only by a drain whose wait it outlasted |
| ClientSends.RudeMeansMeddled | src/django_aiogram/producer/client.py:811-818 | a run counts as disturbed exactly where a second close took `_closing` down before the first was on its way out, or somebody began driving the loop under a teardown |
| ClientSends.ClosingLoses | src/django_aiogram/producer/client.py:852-853 | closing the loop loses exactly the sends still on it |
| ClientSends.RefusedByLastWrite | src/django_aiogram/producer/client.py:1198-1216 | on every run, the hand-off callback refuses if and only if the last write of `_draining` before its second read took it down |
| ClientSends.CallbackRefusesIff | src/django_aiogram/producer/client.py:1198-1216 | with no second close and nobody driving the loop under a teardown, that is if and only if by then the close is over or its drain's turn has failed |
| ClientSends.FailedTurnRefuses | src/django_aiogram/producer/client.py:1265-1273 | a run in which the drain's turn fails and the callback is refused |
| ClientSends.SkippedCloseRefuses | src/django_aiogram/producer/client.py:855-877 | a run in which a close that skips the teardown ends between the two reads, and a bot open again refuses the send |
| ClientSends.SecondCloseRefuses | src/django_aiogram/producer/client.py:855-877 | a run in which a second close comes and goes between them, and the first refuses what it has yet to drain |
| ClientSends.HandOffsSurvive | src/django_aiogram/producer/client.py:1255-1294 | with no rival close, a hand-off on the loop when the teardown takes the lock is sent, or cancelled with its drop row, before the loop closes |
| ClientSends.SecondCloseLosesASend | src/django_aiogram/producer/client.py:801-877 | a run of two closes that loses a send |
| ClientSends.PollingUnderTeardownLosesASend | src/django_aiogram/producer/client.py:1255-1263 | a run with polling under the teardown that loses a send |
| ClientShutdown.OffLoopStays | src/django_aiogram/producer/client.py:1086-1186 | a send off the loop is moved by its own sender only, and an ended one by nobody |
| ClientShutdown.TelegramBot.Do | src/django_aiogram/producer/client.py:771-1294 | one atomic step; what happened so far is a run of the machine |
| ClientShutdown.TelegramBot.Schedule | src/django_aiogram/producer/client.py:1086-1186 | refused at once while closing, a task when made on the loop, otherwise handed off or ended, unless the lock is somebody else's; with nobody else moving exactly which: on an open loop at rest the send is driven here and completes, or raises what it raised |
| ClientShutdown.TelegramBot.UnderLock | src/django_aiogram/producer/client.py:1142-1186 | under the lock: handed off exactly where somebody or a runner drives the open loop, else driven here to completion or an exception |
| ClientShutdown.TelegramBot.Drain | src/django_aiogram/producer/client.py:1255-1294 | from the lock to a drained loop, or to where it raised |
| ClientShutdown.TelegramBot.Turn | src/django_aiogram/producer/client.py:1265-1273 | one turn runs every callback queued before it |
| ClientShutdown.TelegramBot.Teardown | src/django_aiogram/producer/client.py:812-865 | torn down and undisturbed, everything on the loop was sent or cancelled |
| ClientShutdown.TelegramBot.Close | src/django_aiogram/producer/client.py:771-877 | undisturbed and torn down, every send on the loop at the call was sent, refused or cancelled, and none refused that was there when the lock was taken; both flags are clear however it ends; with nobody else moving and nothing raising, a loop at rest is torn down |
| FanOut.Chunks | src/django_aiogram/producer/queueing.py:206-232 | the chunks concatenate back to the messages, none empty, every one but the last full |
| FanOut.GroupingIsUnique | src/django_aiogram/producer/queueing.py:206-232 | there is one such grouping |
| FanOut.DeferredPublishesTheSame | src/django_aiogram/producer/client.py:1311-1361 | for any serialisation and publish failures the hook lands what the immediate path would; the rows differ only by the drops of a bad chunk behind a refused publish |
| FanOut.WhatLands | src/django_aiogram/producer/client.py:1494-1528 | exactly the chunks before the first unserialisable or refused one, whole and in order |
| FanOut.WhatIsWritten | src/django_aiogram/producer/client.py:1494-1528 | one queued row for each message that landed, then one drop row for each message of the chunk that failed, each under its own id, and no other |
| FanOut.Producer.Publish | src/django_aiogram/producer/queueing.py:156-187 | a queued row each where it landed, a drop row each where it raised |
| FanOut.Producer.SendMany | src/django_aiogram/producer/client.py:1494-1528 | deferred: only a list on a hook registered first; immediate: the specified writes and rows; the ids in the order of the chats |
| FanOut.Producer.RunHook | src/django_aiogram/producer/client.py:1344-1361 | the held writes in order up to the first refusal; raises only where failures are asked to |
| FanOut.Producer.SendThenCommit | src/django_aiogram/producer/client.py:1311-1361 | a deferred fan-out and its commit land the immediate path's writes |
| ConsumerSet.Lanes | src/django_aiogram/consumer/serving.py:47-84 | each queue once, in its own lane and in order, no lane without a queue |
| ConsumerSet.Consumers.OneHome | src/django_aiogram/consumer/serving.py:99-128 | each consumer ever built is in exactly one of ready, running, stopped and settled |
| ConsumerSet.Consumers.OneLive | src/django_aiogram/consumer/serving.py:269-274 | a lane has at most one live thread across running and stopped |
| ConsumerSet.Consumers.Reconcile | src/django_aiogram/consumer/serving.py:130-186 | no lane runs unasked, each that runs reads its set, none that did is restarted, which lanes run is exact but for threads still turning; every stopped consumer whose thread is gone is settled; after stop it does nothing |
| ConsumerSet.Consumers.Follow | src/django_aiogram/consumer/serving.py:188-214 | told the new set, or stopped where it cannot take it |
| ConsumerSet.Consumers.StartLane | src/django_aiogram/consumer/serving.py:161-184 | started exactly where the build and the start succeed; a failed one is settled, once |
| ConsumerSet.Consumers.StopLane | src/django_aiogram/consumer/serving.py:298-326 | out of the running set and on the list, whatever the stop and the join did |
| ConsumerSet.Consumers.SettleStopped | src/django_aiogram/consumer/serving.py:276-296 | every stopped consumer whose thread was gone at the call is settled and leaves the list, and none whose thread lives |
| ConsumerSet.Consumers.Stop | src/django_aiogram/consumer/serving.py:216-239 | nothing runs afterwards, and every lane that ran is on the list though one refused |
| ConsumerSet.Consumers.Collect | src/django_aiogram/consumer/serving.py:241-254 | every running and ready consumer is settled and every stopped one whose thread is gone; threads ending as they will, every running one whose thread outlives the walk is settled under it, none whose thread was gone at the call, nobody ready or stopped, and nobody after stop; if and only if one is alive where no thread ends meanwhile |
| ConsumerSet.CollectWithoutStop | src/django_aiogram/consumer/serving.py:241-254 | a reconcile and then a collect settles a consumer under its live thread |
| ScheduleLeases.ClaimSucceeds | src/django_aiogram/producer/scheduling.py:219-245 | a claim on an unheld row begins after every earlier one lapsed |
| ScheduleLeases.LeasesNeverOverlap | src/django_aiogram/producer/scheduling.py:190-246 | over a row's life, under any clocks, winning leases do not overlap, start strictly later, and no two share a token |
| ScheduleLeases.NoLeaseIsForGood | src/django_aiogram/producer/scheduling.py:224-224 | a claim under a non-positive lease is the row's last |
| ScheduleLeases.FirstTryWins | src/django_aiogram/producer/scheduling.py:219-245 | a row nobody claimed goes to the first to try |
| ScheduleLeases.TakenAgainIff | src/django_aiogram/producer/scheduling.py:264-277 | a row claimed under a lease of L seconds is taken again if and only if L is positive and they are over, to the microsecond, whatever was tried between |
| ScheduleLeases.TokenIsTheLatest | src/django_aiogram/producer/scheduling.py:249-262 | a token matches the row if and only if its claim is the latest |
| ScheduleLeases.Schedule.Take | src/django_aiogram/producer/scheduling.py:236-240 | the update takes the row exactly where nobody claimed it or the last claim lapsed, and stamps the moment, the worker and the end of the lease |
| ScheduleLeases.Schedule.TakeThenAgain | src/django_aiogram/producer/scheduling.py:219-245 | a row a dead mover took is taken again exactly from the end of its lease on |
| ScheduleLeases.Schedule.TakeThenCancel | src/django_aiogram/producer/scheduling.py:280-303 | and cancelled exactly from then on |
| ScheduleLeases.Schedule.TakeThenSelect | src/django_aiogram/producer/scheduling.py:223-233 | and, being due, selected exactly from then on |
| ScheduleLeases.Schedule.Judge | src/django_aiogram/producer/scheduling.py:249-262 | a judgement is written exactly while the row holds the mover's claim |
| ScheduleLeases.Schedule.Select | src/django_aiogram/producer/scheduling.py:223-233 | the earliest claimable rows by due time and key, as many as allowed, none passed over |
| ScheduleLeases.Schedule.ClaimDue | src/django_aiogram/producer/scheduling.py:190-246 | what is won bears this claim, what is not was claimed or deleted by somebody else, and alone everything selected is won |
| ScheduleLeases.Schedule.Cancel | src/django_aiogram/producer/scheduling.py:280-303 | exactly the unheld rows of the id go; a due row is cancellable exactly when it is claimable |
| BotIntents.StepKeeps | src/django_aiogram/runtime/intents.py:86-156 | asks, claims, writes and crashes keep the invariant |
| BotIntents.EveryRun | src/django_aiogram/runtime/intents.py:86-156 | it holds on every run |
| BotIntents.ResultIsOfTheLatestAsk | src/django_aiogram/runtime/intents.py:127-156 | a stored result was written under a claim made after the latest ask |
| BotIntents.AnsweredOnce | src/django_aiogram/runtime/intents.py:127-156 | an answered ask is never answered again |
| BotIntents.AskSurvives | src/django_aiogram/runtime/intents.py:104-124 | only its own answer or a newer ask takes an ask off the row |
| BotIntents.ClaimableAgain | src/django_aiogram/runtime/intents.py:104-124 | a claim takes a waiting ask if and only if no claim on it is sixty seconds old or younger, and changes nothing otherwise |
| BotIntents.ClaimsAreApart | src/django_aiogram/runtime/intents.py:104-124 | over every run, two claims made under one ask are more than sixty seconds apart, in order of time |
| BotIntents.AnswerLands | src/django_aiogram/runtime/intents.py:127-156 | a worker whose claim still stands has its answer written |
| BotIntents.LateWorkerWritesNothing | src/django_aiogram/runtime/intents.py:127-156 | a worker whose claim was taken over or asked past writes nothing |
| BotIntents.BotTable.One | src/django_aiogram/runtime/intents.py:86-101 | it says it answered only where its own claim did, and alone answers exactly an ask with no claim of the last sixty seconds |
| BotIntents.BotTable.CarryOut | src/django_aiogram/runtime/intents.py:63-83 | the number returned is the number of asks answered under this pass's own claims, alone exactly those with no claim of the last sixty seconds; an unreadable table answers none |
| Outcomes.StateByContents | src/django_aiogram/eventlog/outcomes.py:251-292 | the state is a function of which rows there are |
| Outcomes.OrderDoesNotMatter | src/django_aiogram/eventlog/outcomes.py:251-292 | and so not of their order |
| Outcomes.SentStays | src/django_aiogram/eventlog/outcomes.py:272-279 | a sent row is absorbing |
| Outcomes.NarrowingCostsOnlyPending | src/django_aiogram/eventlog/outcomes.py:40-67 | without consumed and retried rows sent and failed answers are identical, and only pending moves, to unknown, where those were all the rows |
| Outcomes.QueuedNeverFails | src/django_aiogram/eventlog/outcomes.py:173-220 | a queued row never makes a message failed, and clears a failure exactly where it was only a shutdown's drop |
| Outcomes.FailureSpeaksForTheNewest | src/django_aiogram/eventlog/outcomes.py:281-288 | error and attempt are the newest ending row's |
| Outcomes.SentSpeaksForTheNewest | src/django_aiogram/eventlog/outcomes.py:223-279 | the attempt and the first messages are the newest sent row's, the older rows' follow |
| Outcomes.AlbumInOrder | src/django_aiogram/eventlog/outcomes.py:223-240 | an album is a message an id in order, any other sent row one message |
| Outcomes.NoneLeftOut | src/django_aiogram/eventlog/outcomes.py:223-279 | as many messages as the sent rows stand for |
| Outcomes.PendingSpeaksForTheNewest | src/django_aiogram/eventlog/outcomes.py:290-292 | pending with the newest row's attempt, unknown without a row |
| ShortIds.ShortId | src/django_aiogram/eventlog/events.py:96-117 | the loop computes the code of the low sixty bits |
| ShortIds.CodeDecodes | src/django_aiogram/eventlog/events.py:96-117 | a code has twelve digits of the alphabet and decodes to the id modulo 2^60 |
| ShortIds.CodeIsOnto | src/django_aiogram/eventlog/events.py:96-117 | every code is the code of what it decodes to |
| ShortIds.SharedCode | src/django_aiogram/eventlog/events.py:96-117 | two ids share a code if and only if they agree in those bits |
| ShortIds.CodeIsRandomBits | src/django_aiogram/eventlog/events.py:99-103 | no field of section 5.7 of RFC 9562 but the random one is in a code |
| ShortIds.NewCorrelationId | src/django_aiogram/eventlog/events.py:154-157 | the bytes of a new id |
| ShortIds.StampedFields | src/django_aiogram/eventlog/events.py:154-157 | their fields: the clock, version 7, the variant, the random bits; and the code is the random bytes' |
| ShortIds.TimeOrdered | src/django_aiogram/eventlog/events.py:142-157 | ids made later compare greater |
| ShortIds.CodeIsInAlphabet | src/django_aiogram/eventlog/events.py:96-117 | each character of a code is the one the alphabet lists at that digit's place |
| ShortIds.ReadsWhatItSpells | src/django_aiogram/eventlog/events.py:120-139 | an ASCII text reads as a code if and only if, stripped, it spells it |
| ShortIds.NoCodeReadsEmpty | src/django_aiogram/eventlog/events.py:137-139 | and as nothing where it spells none |
| ShortIds.StripMeans | src/django_aiogram/eventlog/events.py:135-135 | what is stripped is the white space at the two ends, all of it and nothing else |
| ShortIds.CodesAreFixed | src/django_aiogram/eventlog/events.py:120-139 | a code reads as itself |
| ShortIds.Idempotent | src/django_aiogram/eventlog/events.py:120-139 | reading twice reads no differently |
| ShortIds.WrittenDownAndBack | src/django_aiogram/eventlog/events.py:120-139 | every spelling of an id's code by case, spaces, hyphens and confusions, between any white space, reads as that code |
| ShortIds.NoU | src/django_aiogram/eventlog/events.py:128-130 | a text with a U in it spells no code |

## Left out

- The concrete transports: what one answers is arbitrary, and whether it keeps to what it was asked is a flag (`honest`).
- `consume_pending`: the read loop without its waiting; it would repeat `Turn`.
- `reclaim`, the heartbeat, decoding and latency in the consumer: their results are the kinds of payload `Dispatch` takes.
- Waiting loops: how often one goes round (`HoldForCapacity`, `WaitedForRoom`, `Rehome`, `WriterRun`, `Gather`) is a parameter or an arbitrary number, so nothing is said about when a wait ends.
- Handlers that report only through `on_complete` of a message they never received: a callback belongs to its message.
- Threads that cannot be started, forks, connection recycling, thread marks and receivers of the event log.
- An exception other than the database's in the middle of the bisecting ladder; a recorder in a process that keeps no table.
- How a handler, a driven send, a write, a transport or a teardown ends is a parameter (`ends`, `fates`, `sky`, `answers`, `breaks`), arbitrary and fixed beforehand.
- EventRecorder.EventRecorder.Rehome: with others about, where the items end up is stated only as conservation, because the live queue may change at every item; that somebody looks at that queue is stated in `RecorderWatch`.
- TokenBuckets: reals stand for floats, so rounding is not modelled; a combined rate over the three buckets is not claimed.
- LimiterMap.ChatBuckets.Evict: the eviction loop runs once, because the map is never more than one over.
- LimiterRegistry: rates that are not numbers or not positive, which raise from the limiter's own constructor; log lines about a collision.
- ClientSends.CallbackRefusesIff: stated in the phases of one close, so not of a run with a second; `RefusedByLastWrite` is the condition there.
- ClientSends: two teardowns both past their look at the loop at once, cancellation of a task by anybody but the drain, and an interrupted wait for the cancelled ones.
- ClientShutdown.TelegramBot.Schedule: a sender that never gets the lock is left waiting; fairness of locks is not modelled.
- The scheduled branch of `send_many`, the disabled bot and the awaiting twins: the same loop with another sink.
- A chat list whose iteration raises.
- ConsumerSet: log lines and the order in which lanes are visited.
- The scheduled-send mover: its publish and failure counts; its writes appear as `Judge`.
- The `bots=` filter of `claim`.
- BotIntents: what an intent does at Telegram, and redaction and truncation of its answer.
- ShortIds.ReadsWhatItSpells: stated of ASCII texts, since upper-casing maps other characters, such as U+0131, to letters of a code; upper-casing and white space outside ASCII are parameters everywhere else. The branch that uses the standard library's own version 7 ids is not modelled.
- Admin pages, the webhook view, health checks, migrations, settings parsing, token encryption and measurement scripts.
