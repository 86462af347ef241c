# Eventlet, modelled and proved in Dafny

Eventlet runs greenthreads that give up control only at a switch, so that its primitives are state machines whose steps
are the segments between two switches, together with what the hub does when it fires a timer. This project models the
parts of the program where such steps have to agree with one another, and proves what they keep over every run:

| files | what they model |
|---|---|
| `TimerHeap`, `HubTimers` | the hub's timers: a binary heap with lazy deletion, a count of the dead entries, and compaction that may replace the list while it is being drained |
| `Listeners`, `ListenerHub` | the hub's tables of primary and secondary listeners, and the interest masks in the kernel (`poll` and `epoll`) |
| `Queues`, `QueueClass` | `LightQueue` and `Queue`, with timeouts and kills, and the loop of `_unlock` |
| `Semaphores`, `SemaphoreRuns`, `CappedSemaphores` | `Semaphore`, `BoundedSemaphore`, `Lock`, `CappedSemaphore` |
| `GreenPools`, `GreenMaps` | `GreenPool` with `resize` and `waitall`; `GreenMap` on top of the queue |
| `DagPools` | `DAGPool`: greenthreads that depend on one another's values |
| `Tpools` | the native threads of `tpool` and the greenthread that collects their responses |
| `QueueLocks` | the reentrant `_QueueLock` of the ZeroMQ sockets |
| `Bytes`, `WebSocketFrames`, `WebSocketReceiver` | the frames of RFC 6455, printed, and read from a socket that splits them anywhere |
| `ChunkedCoding`, `WsgiInput`, `HttpResponse`, `ChunkedWriters` | the chunked coding of RFC 9112: two incremental readers and two writers |
| `LengthInput` | request bodies of a known length |
| `Upgrades` | `_upgrade_instances`, a walk over a cyclic object graph that rewrites it on the way |
| `Cookies` | the quoting of cookie values |
| `Options` | a value that may be missing |

The protocols are a datatype for the state, one for the steps, `Enabled` and `Step`, an invariant kept by each step, and
theorems about `Run`. Where the program changes objects in place a class has the same fields, and the `ensures` of its
methods tie the new fields to `Step` or to another specification function of the old ones. What the program leaves to
chance (which greenthread a set yields first, how a socket splits its data) is chosen arbitrarily.

## What the proofs found

- `CappedSemaphore.acquire(blocking=False)` is documented not to block, and does exactly if a unit is free that others
  are already queued for (`CappedSemaphores.NonBlockingAcquireBlocks`).
- `GreenPool.waitall` never returns to those who wait when the pool runs empty while a greenthread is blocked in
  `spawn`, and only to them (`GreenPools.WaitAllReturns`, `ForgottenForEver`); `GreenPool.resize` may leave a blocked
  spawner beside a free slot (`ResizeMayForgetSpawner`), exactly as `StepKeepsAwake` says, and then all later ones wait
  with it (`ForgottenSpawnersWait`).
- An exception thrown into a `put` that waits without blocking leaves its putter behind. `_unlock` then may break off and
  lose a wake-up (`Queues.WakeupMayBeLost`); `StepStaysAwake` and `WakeupsLost` say exactly when. A `get` from the hub's
  own greenlet may exceed the bound of a channel (`Queues.StepWithinMaxsize`).
- A consumer of a `DAGPool` that switches between two results may miss a value and wait for ever
  (`DagPools.ValueMayBeMissed`); `AttentiveStays` says which steps do that, and `SteadyRunsToTheEnd` which consumers
  are safe.
- Of the reserved bits of a WebSocket frame only RSV1 is checked, while the comment and the message of the exception
  speak of all three (`WebSocketFrames.ReservedBits`). An empty frame is sent unmasked even by a client, and a server
  refuses it, so the round trip holds only without empty frames in that direction (`WebSocketFrames.StreamRoundTrip`).
- A mapped function that returns or raises a `StopIteration` ends a `GreenMap` early (`GreenMaps.CollectsAll`), and a method that
  returns a tuple like that of `sys.exc_info()` has it raised by `tpool.execute` (`Tpools.OwnResult`).
- A read with a negative length of a request body that is not chunked takes bytes of the next request
  (`LengthInput.StaysWithinBody`).
- A container that is itself an instance of the class is left as it is by `_upgrade_instances`, and so are the slots
  that refer to it (`Upgrades.InstancesLeft`).
- A waiter of `_QueueLock` that is killed stays in the queue. When it is its turn to be woken, and only then, the lock is
  lost to everybody for ever (`QueueLocks.StuckExactly`, `StuckForEver`).

## Model

| member | source | states |
|---|---|---|
| `TimerHeap.HeapPush` | eventlet/hubs/hub.py:417-425 | the list stays a heap and gains exactly the entry |
| `TimerHeap.HeapPop` | eventlet/hubs/hub.py:452-466 | the list stays a heap and loses exactly its first entry |
| `TimerHeap.Heapify` | eventlet/hubs/hub.py:408-415 | any list becomes a heap of the same entries |
| `TimerHeap.RootIsLeast` | eventlet/hubs/hub.py:328-332 | the first entry of the heap is no later than any other |
| `HubTimers.CompactionHalves` | eventlet/hubs/hub.py:408-415 | leaving out the dead entries keeps every live timer and the dead-entry count sound, and leaves at most half of the entries once the count says so |
| `HubTimers.FiredFromReplacedBalances` | eventlet/hubs/hub.py:452-472 | a timer fired from a list that compaction has replaced leaves a dead entry behind, and the count of the dead never exceeds those held |
| `HubTimers.FiringCalls` | eventlet/hubs/hub.py:452-472 | calling the least timer of the list keeps the callbacks in the order of their deadlines |
| `HubTimers.FiringSurvivesScript` | eventlet/hubs/hub.py:452-472 | what a callback adds or cancels does not disturb the drain |
| `HubTimers.FiringEnds` | eventlet/hubs/hub.py:452-472 | when the loop stops, every entry due at the start is used up, and the callbacks were those of due entries of the list found at the start, in order |
| `HubTimers.AliveInHeap` | eventlet/hubs/hub.py:417-425 | after preparation every timer alive is in the heap, no earlier than its first entry |
| `HubTimers.DidOneMore` | eventlet/hubs/timer.py:49-76 | one more action of a callback: a timer newly scheduled gets the clock plus its seconds as its deadline, one cancelled is used up without running, and nothing else changes |
| `HubTimers.DidAll` | eventlet/hubs/timer.py:49-76 | so for all the actions of a script, one after another |
| `HubTimers.ObeyedOn` | eventlet/hubs/timer.py:49-62 | one more callback: from then on no timer that it cancelled runs, every timer that it scheduled is held, and all that was cancelled or scheduled is due to a callback |
| `HubTimers.DrainGoesOn` | eventlet/hubs/hub.py:452-472 | one turn of the loop, dead entry or callback, keeps the drain in order and all callbacks in effect |
| `HubTimers.RunsUnlessCanceled` | eventlet/hubs/hub.py:452-472 | a timer used up meanwhile has run, or a callback that ran before its turn cancelled it |
| `HubTimers.RunsOn` | eventlet/hubs/hub.py:334-361 | one more pass, or script between passes, keeps all that a run owes |
| `HubTimers.Hub.AddTimer` | eventlet/hubs/hub.py:403-406 | the timer is appended with its deadline, the clock plus its seconds, and the books stay balanced |
| `HubTimers.Hub.Cancel` | eventlet/hubs/timer.py:66-76 | a timer is cancelled once, at most, and never after it has run; the hub has compacted if it should |
| `HubTimers.Hub.TimerCanceled` | eventlet/hubs/hub.py:408-415 | after the count few entries are held or less than half are counted dead; a list replaced is at most half as long |
| `HubTimers.Hub.PrepareTimers` | eventlet/hubs/hub.py:417-425 | all new timers move to the heap or, dead, off the books |
| `HubTimers.Hub.RunScript` | eventlet/hubs/hub.py:403-450 | every action of a callback is done: cancelled timers are used up and the others scheduled with their deadlines, and no callback runs meanwhile |
| `HubTimers.Hub.Callback` | eventlet/hubs/timer.py:49-62 | the callback of the timer does all of its actions |
| `HubTimers.Hub.FireRoot` | eventlet/hubs/hub.py:456-470 | the first entry leaves the list, and its timer runs, with all the effects of its callback, unless it has been used up |
| `HubTimers.Hub.SleepUntil` | eventlet/hubs/hub.py:328-332 | the least deadline in the heap, or none if that is empty |
| `HubTimers.Hub.FireTimers` | eventlet/hubs/hub.py:452-472 | terminates whatever the callbacks do; runs exactly the timers of the heap due at entry and not cancelled before their turn, in the order of their deadlines, even if compaction replaces the list meanwhile; every callback has its effect: what it cancels does not run after it, what it schedules is held with its deadline, and nothing else is cancelled or scheduled |
| `HubTimers.Hub.Iterate` | eventlet/hubs/hub.py:341-361 | one pass of the main loop serves every timer whose deadline has passed, runs only those, with all the effects of their callbacks, and does not sleep beyond the deadline of any timer alive |
| `HubTimers.Hub.Run` | eventlet/hubs/hub.py:334-361 | over any passes and scripts between them, each timer runs at most once, never early and never after it was cancelled, and none alive is lost; what a script or callback cancels never runs afterwards, what it schedules is held, and whatever was cancelled or scheduled some script or callback asked for; callbacks run only in passes, for their time |
| `Listeners.AddRefines` | eventlet/hubs/hub.py:153-188 | a new listener comes last among those of its file and event |
| `Listeners.RemovableIfLive` | eventlet/hubs/hub.py:223-242 | a listener that is not spent can be removed if and only if it is live; otherwise there is a `KeyError` or `ValueError` |
| `Listeners.RemoveRefines` | eventlet/hubs/hub.py:223-242 | the others keep the order of their arrival, the first of them being the primary listener |
| `Listeners.ObsoleteRefines` | eventlet/hubs/hub.py:190-214 | exactly the live listeners of the file are queued on `closed`, each once, and the rest stay in order |
| `Listeners.RegisteredInStep` | eventlet/hubs/poll.py:31-56 | `register` brings the mask of one file in step and leaves all others so |
| `Listeners.ObsoleteInStep` | eventlet/hubs/hub.py:190-214 | making a file obsolete keeps the kernel in step with the primary listeners |
| `Listeners.KernelReports` | eventlet/hubs/poll.py:31-56 | of a file that the kernel has not forgotten it reports input and urgent data exactly if a listener waits to read, output exactly if one waits to write, and errors and hang-ups if either does |
| `Listeners.RunRefines` | eventlet/hubs/hub.py:153-282 | after every run each slot holds its live listeners in the order of arrival, and the kernel knows the masks of the primary listeners and no others |
| `ListenerHub.KnownHasListeners` | eventlet/hubs/epolls.py:18-28 | a file that the kernel knows has a primary listener, so that the choice of registering anew never meets `EEXIST` |
| `ListenerHub.Hub.Register` | eventlet/hubs/poll.py:31-56 | the kernel ends up with the mask of the primary listeners; only a file already known to an epoll can be refused, and only when registered anew |
| `ListenerHub.Hub.Add` | eventlet/hubs/epolls.py:18-28 | a second listener is refused or queued behind the first, as configured, and the kernel is in step |
| `ListenerHub.Hub.Remove` | eventlet/hubs/poll.py:27-29 | a live listener leaves its place; removing one already spent changes nothing |
| `ListenerHub.Hub.Obsolete` | eventlet/hubs/hub.py:190-214 | every live listener of the file, and no other, is spent and on `closed`; tells whether there was any |
| `ListenerHub.Hub.CloseOne` | eventlet/hubs/hub.py:274-282 | takes one listener off `closed`, and throws into its greenlet unless that is dead, everything else staying in step |
| `Queues.StepStaysAwake` | eventlet/queue.py:229-388 | no segment of `put`, `get`, `resize` and `_unlock`, and no exception thrown, loses a wake-up, except `_unlock` breaking off on a putter whose greenthread has gone, exactly if that leaves behind a `put` that waits without blocking |
| `Queues.StepFollows` | eventlet/queue.py:229-388 | what each segment and each exception does to the items, to those who wait in `get` and `put`, and to the calls of `get`, by equations |
| `Queues.RefusedAfter` | eventlet/queue.py:229-279 | exactly which calls of `put` end by `Full` or an exception |
| `Queues.WakeupsLost` | eventlet/queue.py:339-384 | a run loses no wake-up at any time if and only if none of its steps is such a one |
| `Queues.SparedRunsOn` | eventlet/queue.py:270-277 | no step is, if no exception is thrown into a waiting `put` that does not block |
| `Queues.WakeupMayBeLost` | eventlet/queue.py:373-384 | a run in which one is lost |
| `Queues.NoLostWakeup` | eventlet/queue.py:339-388 | in every such run, unless `_unlock` runs or is scheduled or the hub itself is in `get`, no item waits beside a getter, no putter beside a getter or a free slot, and no non-blocking putter waits |
| `Queues.NothingLostOrDoubled` | eventlet/queue.py:229-384 | what entered is what was taken, each by its own `get`, into which nothing was thrown, and then what is queued; each `put` enters once at most, and not if it raised; the count of tasks agrees |
| `Queues.GetsEndOnce` | eventlet/queue.py:289-329 | in every run each call of `get` is one of these and no other: waiting, given one item, ended by an exception thrown into it, or by `Empty`; none that has raised is ever given an item |
| `Queues.StepWithinMaxsize` | eventlet/queue.py:197-312 | a step leaves more than `maxsize` items exactly if it shrinks the queue below what it holds, or if the hub lets in the putter of a channel |
| `Queues.CapacityKept` | eventlet/queue.py:229-312 | so without `resize`, and without `get` from the hub, the size never exceeds `maxsize` |
| `Queues.OneProducerIsFifo` | eventlet/queue.py:339-384 | with one producer the items come out of a new queue in the order of the calls |
| `QueueClass.Queue.Put` | eventlet/queue.py:229-279 | stored at the end exactly if there is space, else blocked or `Full`; all fields by equations |
| `QueueClass.Queue.PutInHub` | eventlet/queue.py:245-255 | from the hub: stored if there is space or a getter, which is then served, and `Full`, with nothing changed, otherwise |
| `QueueClass.Queue.Get` | eventlet/queue.py:289-329 | returns the first item, blocks among the getters, or is `Empty`; all fields by equations |
| `QueueClass.Queue.ThrowGetter` | eventlet/queue.py:319-326 | a `get` into which an exception is thrown is no longer among the getters |
| `QueueClass.Queue.GetInHub` | eventlet/queue.py:303-312 | from the hub: putters are let in one after another until there is an item, which is returned, and `Empty` means that none is left |
| `QueueClass.Queue.Resize` | eventlet/queue.py:197-205 | sets the bound and schedules `_unlock` exactly if it grows |
| `QueueClass.Queue.TaskDone` | eventlet/queue.py:438-454 | refused exactly when every item has been reported; the `Event` is unsent when it is sent |
| `QueueClass.Queue.Unlock` | eventlet/queue.py:339-384 | terminates whatever the greenthreads that it switches into do, and leaves no work behind unless it breaks off |
| `Semaphores.WakeupsSuffice` | eventlet/semaphore.py:137-153 | the scheduled calls let the first waiters have all the free units, in order, or serve all of them |
| `Semaphores.WithoutFirst` | eventlet/semaphore.py:125-130 | a waiter that gives up leaves the others in their order |
| `SemaphoreRuns.StepKeepsInv` | eventlet/semaphore.py:105-153 | every segment keeps the counter from 0 up, bounded if the semaphore is, and as many wake-ups under way as units are free beside a waiter |
| `SemaphoreRuns.WaitersInOrder` | eventlet/semaphore.py:105-153 | whoever has to wait comes last, the first is woken first, and nobody overtakes |
| `SemaphoreRuns.HoldersAfter` | eventlet/semaphore.py:105-153 | exactly who holds a unit after each segment |
| `SemaphoreRuns.EveryRun` | eventlet/semaphore.py:105-153 | the same after every run, with timeouts, kills and stray switches; the pending calls serve the waiters in order |
| `SemaphoreRuns.UnitsConserved` | eventlet/semaphore.py:105-153 | if only holders release, free units and holders add up to the initial value |
| `Semaphores.Semaphore.Acquire` | eventlet/semaphore.py:105-132 | takes a unit if one is free and nobody waits (or with a timeout, even then), else waits behind all others; all fields by equations |
| `Semaphores.Semaphore.TryAcquire` | eventlet/semaphore.py:90-132 | never blocks, and is refused exactly when nothing is free |
| `Semaphores.Semaphore.ReleaseUnit` | eventlet/semaphore.py:188-199 | a bounded semaphore, or a lock with the limit 1, refuses to go beyond its limit |
| `Semaphores.Semaphore.DoScheduledAcquire` | eventlet/semaphore.py:150-153 | wakes the first waiter exactly if a unit is free |
| `CappedSemaphores.StepKeepsInv` | eventlet/semaphore.py:275-305 | every step, the rollbacks included, keeps the sum of the counters equal to the limit plus the operations in flight |
| `CappedSemaphores.Conserved` | eventlet/semaphore.py:226-305 | in every run the counters add up, and no waiter is left beside a free unit |
| `CappedSemaphores.NonBlockingAcquireBlocks` | eventlet/semaphore.py:275-285 | `acquire(blocking=False)` does block, exactly if a unit is free that others are queued for |
| `CappedSemaphores.NonBlockingAcquireBlocksInRun` | eventlet/semaphore.py:256-285 | a run that leads there |
| `CappedSemaphores.CappedSemaphore.AcquireUnit` | eventlet/semaphore.py:275-285 | gives the upper semaphore its unit back, then takes the lower one or waits behind all others; both counters and queues by equations |
| `CappedSemaphores.CappedSemaphore.ThrowAcquire` | eventlet/semaphore.py:278-285 | a killed `acquire` takes back its half |
| `GreenPools.Accounts` | eventlet/greenpool.py:30-132 | in every run free units and greenthreads running add up to the size, across resizes, and `no_coros_running` is unsent whenever it may be sent |
| `GreenPools.SpawnDoes` | eventlet/greenpool.py:67-115 | `spawn` runs the function at once in a greenthread of a full pool, starts a greenthread with one unit less if a unit is free and nobody waits, and otherwise waits behind all others |
| `GreenPools.WakeDoes` | eventlet/greenpool.py:67-115 | a wake-up starts the greenthread of the first spawner, with one unit less, exactly if a unit is free |
| `GreenPools.DoneSends` | eventlet/greenpool.py:125-132 | the event is sent exactly if now nothing runs and nobody is blocked in `spawn` |
| `GreenPools.LastDoneReleases` | eventlet/greenpool.py:117-132 | the callers of `waitall` are released when the pool empties, unless somebody is blocked in `spawn` |
| `GreenPools.Strands` | eventlet/greenpool.py:67-82 | exactly which callers of `waitall` each step leaves on a replaced event |
| `GreenPools.StepForgets` | eventlet/greenpool.py:67-132 | a step leaves callers of `waitall` with nothing to wake them if and only if it ends the last greenthread while a spawner is blocked, and then all of them |
| `GreenPools.ForgottenForEver` | eventlet/greenpool.py:117-132 | whoever has been left so is never released, unless something is thrown into it |
| `GreenPools.WaitAllReturns` | eventlet/greenpool.py:117-132 | nobody is left so at any time in a run if and only if the pool never runs empty while a spawner is blocked and somebody waits in `waitall` |
| `GreenPools.WaitAllMayHang` | eventlet/greenpool.py:67-132 | a run in which it does not |
| `GreenPools.StepKeepsAwake` | eventlet/greenpool.py:30-41 | no step but `resize` loses a wake-up, and `resize` does exactly if a spawner is blocked and the new units are not covered |
| `GreenPools.ResizeMayForgetSpawner` | eventlet/greenpool.py:30-41 | a run in which it does |
| `GreenPools.ForgottenSpawnersWait` | eventlet/greenpool.py:30-82 | in an empty pool the spawners so forgotten wait for ever, and every later one joins them |
| `GreenPools.Bounded` | eventlet/greenpool.py:67-115 | without `resize` at most `size` greenthreads run |
| `GreenPools.GreenPool.SpawnChild` | eventlet/greenpool.py:67-115 | spawned, with the child running and one unit less, exactly if a unit is free and nobody waits; run inline, with nothing changed, exactly in a greenthread of a full pool; otherwise the caller waits behind all others |
| `GreenPools.GreenPool.FinishChild` | eventlet/greenpool.py:125-132 | the child runs no more, one unit comes back, and the event is sent exactly if the pool is empty and nobody is blocked in `spawn`; the assertion of `Event.send` holds |
| `GreenPools.GreenPool.SendEvent` | eventlet/event.py:160-168 | requires an unsent event, and releases its waiters |
| `GreenPools.GreenPool.WaitForAll` | eventlet/greenpool.py:117-123 | returns at once exactly if nothing runs, and otherwise waits on the event of the pool |
| `GreenMaps.StepKeepsInv` | eventlet/greenpool.py:142-167 | every step of the producer, the consumer and the queue between them keeps the items numbered in order, and all of them accounted for |
| `GreenMaps.MapsInOrder` | eventlet/greenpool.py:208-254 | in every run the results come in the order of the inputs, the end once and last, and at most `size + 1` greenthreads have been spawned and not taken |
| `GreenMaps.CollectsAll` | eventlet/greenpool.py:245-254 | a list of the results is complete if and only if the function returned each time, and never a `StopIteration`; otherwise it ends where the function did not, silently at a `StopIteration` returned or raised |
| `GreenMaps.ConsumerServed` | eventlet/greenpool.py:230-254 | a consumer waits only while nothing is queued and the producer is not blocked |
| `GreenMaps.ProducerServed` | eventlet/greenpool.py:208-217 | a producer is blocked only while the queue is full and the consumer not waiting |
| `DagPools.StepKeepsInv` | eventlet/dagpool.py:279-477 | every step keeps what has been delivered and what is pending together equal to the dependencies, and only waiters of the current event unwoken |
| `DagPools.ValuesAfter` | eventlet/dagpool.py:352-477 | each step leaves the values as they are, but for the one that it gives |
| `DagPools.GivesExactly` | eventlet/dagpool.py:352-477 | a value is given by a `post` that does not collide, and by the end of a function whose key has none, and by nothing else |
| `DagPools.ValueIsLastGiven` | eventlet/dagpool.py:352-477 | after every run a key has the very value that it was given last, or the one preloaded |
| `DagPools.NewStrand` | eventlet/dagpool.py:212-350 | what a new greenthread or generator waits for |
| `DagPools.AttentiveStays` | eventlet/dagpool.py:290-306 | a step makes a greenthread miss a value if and only if it gives a value to a key that a greenthread standing at a `yield` has already looked for |
| `DagPools.SwitchingDistracts` | eventlet/dagpool.py:279-306 | no step does if nobody switches between two results or posts what it waits for itself |
| `DagPools.SomeoneGoes` | eventlet/dagpool.py:279-377 | with acyclic, known dependencies somebody can go on as long as a spawned greenthread has not ended |
| `DagPools.NoDeadlock` | eventlet/dagpool.py:279-377 | when nobody can go on every key spawned has a value, and nobody waits for known keys |
| `DagPools.RunsToTheEnd` | eventlet/dagpool.py:279-477 | the same after every undistracted run from a new pool, whatever functions return or raise |
| `DagPools.SteadyRunsToTheEnd` | eventlet/dagpool.py:279-477 | the same after every run in which nobody switches between two results or posts what it waits for itself |
| `DagPools.WaitsUntilPost` | eventlet/dagpool.py:290-306 | a greenthread that waits for the current event waits until a value is given to some key |
| `DagPools.EachDeliveredOnce` | eventlet/dagpool.py:279-306 | a generator that has ended has delivered each dependency exactly once |
| `DagPools.ValueMayBeMissed` | eventlet/dagpool.py:290-306 | a run in which a value is missed, and a greenthread waits for ever |
| `DagPools.DAGPool.Spawn` | eventlet/dagpool.py:337-350 | a known key is a `Collision`; otherwise a greenthread for the key is scheduled, waiting for its dependencies |
| `DagPools.DAGPool.Post` | eventlet/dagpool.py:454-477 | a `Collision` exactly if the key is that of another greenthread, or has a value not to be replaced; otherwise the key has exactly that value, and the waiters are woken |
| `DagPools.DAGPool.Finish` | eventlet/dagpool.py:352-377 | forgets the greenthread first, and gives the key the value unless it has one |
| `DagPools.DAGPool.Next` | eventlet/dagpool.py:262-306 | delivers a pending key with its stored value, raises its `PropagateError`, stops when none is pending, or waits for the current event |
| `DagPools.DAGPool.Wake` | eventlet/dagpool.py:262-306 | the same once the event has come |
| `Tpools.StepKeepsInv` | eventlet/tpool.py:52-92 | every step of every thread keeps each request in exactly one place with its own result, and while the trampoline is at `recv` every queued response has its byte, or a thread about to send it |
| `Tpools.SentOnce` | eventlet/tpool.py:60-67 | no `Event` is sent twice |
| `Tpools.OwnResult` | eventlet/tpool.py:95-126 | a caller gets what its own method did if and only if the method did not return what looks like `sys.exc_info()` |
| `Tpools.NothingLost` | eventlet/tpool.py:52-92 | when nothing more can happen, each request has been answered, or its thread has died of it |
| `Tpools.RequestsInOrder` | eventlet/tpool.py:71-82 | in every run the requests are taken in the order in which they were made, by whichever thread |
| `Tpools.ResponsesInOrder` | eventlet/tpool.py:60-92 | and the responses are fetched in the order in which they were put |
| `Tpools.BytesConserved` | eventlet/tpool.py:52-92 | no byte of the socket is lost or read twice |
| `Tpools.AnsweredWithOwn` | eventlet/tpool.py:71-126 | over any run from the start what a caller is sent is what a thread that worked on its request came to |
| `Tpools.RunsEnd` | eventlet/tpool.py:52-92 | however the threads interleave, they come to rest a bounded number of steps after the last request, and then no request is left |
| `WebSocketFrames.MaskTwice` | eventlet/websocket.py:627-631 | masking is its own inverse, so that the receiver undoes it |
| `Bytes.XorAt` | eventlet/websocket.py:627-631 | a bit of the exclusive or is 1 exactly if one of the two bits is and the other not |
| `WebSocketFrames.MaskedByte` | eventlet/websocket.py:627-631 | bit by bit, what masking makes of each byte with its byte of the mask |
| `WebSocketFrames.MaskNothing` | eventlet/websocket.py:627-631 | a mask of zeros changes nothing |
| `WebSocketFrames.MaskPieces` | eventlet/websocket.py:627-631 | masking in pieces, each with its offset, masks the whole |
| `WebSocketFrames.LengthRoundTrip` | eventlet/websocket.py:795-815 | the three forms of the length are read back |
| `WebSocketFrames.HeaderParses` | eventlet/websocket.py:687-762 | the header of a frame is read back, or refused as too long |
| `WebSocketFrames.WireLayout` | eventlet/websocket.py:787-822 | the bytes of a frame are those of section 5.2 of RFC 6455: flags and opcode, mask bit and length, the extended length in big-endian order, mask, masked payload |
| `WebSocketFrames.Refused` | eventlet/websocket.py:687-731 | exactly which first two bytes are a protocol error |
| `WebSocketFrames.CloseStatusIs` | eventlet/websocket.py:633-653 | the status of a close frame is its first two bytes in big-endian order, 1000 if there are none, and 1002 if there is one |
| `WebSocketFrames.SendParses` | eventlet/websocket.py:764-822 | one `send` is read as what was sent, or refused if it is too long, or empty and at a server |
| `WebSocketFrames.ReservedBits` | eventlet/websocket.py:687-706 | of the reserved bits only the first is checked, the others being ignored |
| `WebSocketFrames.StreamRoundTrip` | eventlet/websocket.py:633-822 | for any fragments and control frames between them, the receiver gets every message whole and in order, answers every ping with an equal pong and the close frame with its status, if and only if all frames fit |
| `WebSocketReceiver.WebSocket.GetBytes` | eventlet/websocket.py:591-598 | exactly the next bytes, however `recv` splits them, or the end of the stream |
| `WebSocketReceiver.WebSocket.RecvHeader` | eventlet/websocket.py:687-740 | the header that the bytes hold |
| `WebSocketReceiver.WebSocket.RecvPayload` | eventlet/websocket.py:741-762 | the whole payload, unmasked piece by piece with the exclusive or of `MaskedByte` |
| `WebSocketReceiver.WebSocket.RecvFrame` | eventlet/websocket.py:687-762 | the first frame of the bytes, added to the message under way or, a control frame, apart from it |
| `WebSocketReceiver.WebSocket.CloseReceivedWith` | eventlet/websocket.py:633-653 | a close frame is answered with its status, or refused for a bad status or text |
| `WebSocketReceiver.WebSocket.NextFrame` | eventlet/websocket.py:662-677 | one turn of the loop: a message, a pong, or an end |
| `WebSocketReceiver.WebSocket.IterFrames` | eventlet/websocket.py:662-677 | all that the bytes mean: messages, pongs and the way it ends |
| `WebSocketReceiver.Exchange` | eventlet/websocket.py:662-822 | over a whole connection that splits the bytes anywhere, the reader gets what the sender meant if and only if all frames fit |
| `ChunkedCoding.HexReads` | eventlet/wsgi.py:577 | the digits of a size are read back as the size |
| `ChunkedCoding.DigitMeans` | eventlet/wsgi.py:206 | which characters are the digits from 0 to 15 |
| `ChunkedCoding.FirstDigit` | eventlet/wsgi.py:206 | the first digit weighs most, and a character that is no digit spoils the number |
| `ChunkedCoding.SizeStandsAlone` | eventlet/wsgi.py:206 | spaces around the size, and extensions after a semicolon, do not change it |
| `ChunkedCoding.LineEnds` | eventlet/wsgi.py:200-206 | a line ends with the first line feed, or with the bytes |
| `ChunkedCoding.SizeLine` | eventlet/green/http/client.py:1122-1126 | the size line of either writer is read as the size |
| `WsgiInput.ReadStands` | eventlet/wsgi.py:162-214 | a read of a well-formed body returns the next bytes, as many as asked for, to the end of the line, or all that remain, and never moves beyond the body |
| `WsgiInput.WantedIs` | eventlet/wsgi.py:162-214 | what a read wants is the longest prefix within its limit that goes on past no line feed, if it reads a line |
| `WsgiInput.TurnFails` | eventlet/wsgi.py:186-211 | exactly when a turn of the loop raises, and what it leaves behind |
| `WsgiInput.ReadsInTurn` | eventlet/wsgi.py:162-225 | any calls of `read` and `readline` together return exactly as much of the content as they want, or all of it, and come to the end of the body exactly if one of them wants more |
| `WsgiInput.AsksForMore` | eventlet/wsgi.py:162-225 | plain reads that ask for more than there is return all of it and come to the end |
| `WsgiInput.CallsEnough` | eventlet/wsgi.py:162-225 | and so do any calls that are more than the bytes there are |
| `WsgiInput.ReadConsumes` | eventlet/wsgi.py:162-214 | a read takes at least what it returns off the stream, of any bytes |
| `WsgiInput.Input.ReadChunked` | eventlet/wsgi.py:162-214 | the loop does what the specification says for all bytes, errors included |
| `WsgiInput.Input.DiscardTrailers` | eventlet/wsgi.py:156-160 | reads up to a blank line or the end |
| `WsgiInput.Input.Discard` | eventlet/wsgi.py:258-260 | after a well-formed body the stream stands at the first byte of the next request |
| `LengthInput.ReadsBody` | eventlet/wsgi.py:140-154 | a call without a negative length returns the next bytes of the body, as many as asked for, to the end of the line, or all that remain |
| `LengthInput.StaysWithinBody` | eventlet/wsgi.py:140-154 | exactly when a call takes bytes of the next request |
| `LengthInput.LengthBody.Read` | eventlet/wsgi.py:140-154 | does what the specification says, and keeps count |
| `LengthInput.LengthBody.Discard` | eventlet/wsgi.py:258-260 | the stream then stands at the first byte of the next request |
| `HttpResponse.LoopReads` | eventlet/green/http/client.py:588-648 | a read of a well-formed body returns the next bytes, as many as asked for or all that remain, and closes the response, at the last byte of the body, exactly if it asks for more or nothing remains |
| `HttpResponse.ReadsInTurn` | eventlet/green/http/client.py:588-648 | no read fails, and any reads together return exactly as much of the content as they ask for, or all of it, and close the response exactly if one of them comes upon the end |
| `HttpResponse.AsksForMore` | eventlet/green/http/client.py:588-648 | reads that ask for more than there is return all of it and come to the end |
| `HttpResponse.Response.SafeRead` | eventlet/green/http/client.py:650-671 | exactly the bytes asked for, however the file gives them, or `IncompleteRead` |
| `HttpResponse.Response.DiscardTrailer` | eventlet/green/http/client.py:574-586 | reads up to a blank line or the end, a long line being an error |
| `HttpResponse.Response.FindChunkLeft` | eventlet/green/http/client.py:588-610 | follows the specification for all bytes, errors included |
| `HttpResponse.Response.ReadChunked` | eventlet/green/http/client.py:612-648 | the loop does what the specification says for all bytes, errors included |
| `ChunkedWriters.FullKeeps` | eventlet/wsgi.py:633-656 | batching keeps the bytes and their order |
| `ChunkedWriters.FullIsFull` | eventlet/wsgi.py:643-656 | every write but the last has the minimum size |
| `ChunkedWriters.PiecesEncode` | eventlet/wsgi.py:575-577 | chunks written one after another, and an empty one last, are a body in the chunked coding |
| `ChunkedWriters.BodyIsGood` | eventlet/wsgi.py:575-577 | such a body is well-formed, with size lines that the client accepts |
| `ChunkedWriters.ResponseReadBack` | eventlet/wsgi.py:633-658 | however the client reads the response it gets the bytes of the application in order, exactly as many as it asks for or all of them; exactly if a read comes upon the end, the response is closed after the body |
| `ChunkedWriters.ResponseReadWhole` | eventlet/green/http/client.py:612-648 | reads that ask for more than the application gave return all of it |
| `ChunkedWriters.ResponseReadAtOnce` | eventlet/green/http/client.py:612-624 | a single read without limit returns all of it and leaves nothing of the body |
| `ChunkedWriters.RequestReadBack` | eventlet/green/http/client.py:1118-1131 | however the server reads the request it gets the bytes of the message in order, exactly as many as it wants or all of them; exactly if a call wants more, the stream stands after the body |
| `ChunkedWriters.RequestReadWhole` | eventlet/wsgi.py:162-218 | plain reads that ask for more than the message holds return all of it |
| `ChunkedWriters.BrokenOffIsIncomplete` | eventlet/wsgi.py:659-671 | a response whose application failed halfway is an `IncompleteRead` for the client, holding what had been written |
| `ChunkedWriters.Response.Write` | eventlet/wsgi.py:525-582 | the headers go out once, before the first data; each call adds one chunk, or the bare data |
| `ChunkedWriters.Response.Respond` | eventlet/wsgi.py:633-671 | for any items, empty ones included, and any minimum size: one terminator, at the end, or none if the application failed |
| `ChunkedWriters.Connection.SendOutput` | eventlet/green/http/client.py:1080-1131 | for any chunks, empty ones included: the message head, the chunks and one terminator |
| `Upgrades.Walk.Visit` | eventlet/patcher.py:554-609 | visits the container, and deals completely with every object visited on the way |
| `Upgrades.Walk.UpgradeRow` | eventlet/patcher.py:586-609 | handles each slot of a dictionary, of which it has a copy, or of a list that may change under it |
| `Upgrades.Walk.UpgradeOrTraverse` | eventlet/patcher.py:573-584 | what has been visited stays, an instance is upgraded once at most, anything else is walked through |
| `Upgrades.UpgradeInstances` | eventlet/patcher.py:554-609 | terminates on every graph and leaves what `WalkEnds` states |
| `Upgrades.WalkEnds` | eventlet/patcher.py:554-609 | all that can be reached without passing through an instance has been visited; exactly the slots of what has been visited are renewed; each instance that they referred to has been upgraded exactly once |
| `Upgrades.InstancesLeft` | eventlet/patcher.py:573-584 | a slot within reach still refers to an instance if and only if that is the container that the walk began with |
| `Upgrades.SharingKept` | eventlet/patcher.py:576-581 | slots refer to one object afterwards if and only if they did before |
| `Cookies.Unquote` | eventlet/green/http/cookies.py:250-291 | the loop over the two searches does what the specification says |
| `Cookies.SearchFindsFirst` | eventlet/green/http/cookies.py:247-248 | a search finds no match before the first |
| `Cookies.UnescapeScans` | eventlet/green/http/cookies.py:247-291 | the loop over two regular expressions reads every string as a scan from left to right does, one character or escape at a time |
| `Cookies.EscapeIs` | eventlet/green/http/cookies.py:221-230 | a character stays, or is escaped by a backslash, or by a backslash and its code in three octal digits |
| `Cookies.QuotedUnlessLegal` | eventlet/green/http/cookies.py:231-245 | a string goes without quotation marks exactly if it is a legal key |
| `Cookies.TranslateUndone` | eventlet/green/http/cookies.py:221-230 | what translation makes of a string is turned back into it |
| `Cookies.RoundTrip` | eventlet/green/http/cookies.py:221-291 | unquoting undoes quoting, for every string |
| `Cookies.QuoteInjective` | eventlet/green/http/cookies.py:234-245 | no two strings are quoted alike |
| `Cookies.QuoteSafe` | eventlet/green/http/cookies.py:214-245 | nothing quoted holds a comma, a semicolon, a control character or another byte outside ASCII |
| `QueueLocks.AssertionsHold` | eventlet/green/zmq.py:52-75 | both assertions of `acquire` hold, and at most one switch is pending |
| `QueueLocks.StepKeepsInv` | eventlet/green/zmq.py:52-75 | every step, and every waiter killed, keeps the order of the requests and at most one switch, to the first waiter of a free lock |
| `QueueLocks.StepKeepsExclusive` | eventlet/green/zmq.py:52-75 | as long as only the holder releases, nobody else has the lock |
| `QueueLocks.RunKeepsExclusive` | eventlet/green/zmq.py:52-75 | the same after every such run |
| `QueueLocks.KillFreeRuns` | eventlet/green/zmq.py:52-75 | in every run without kills both assertions hold, the lock is granted in the order of the requests, and whoever waits for a free lock is about to be woken |
| `QueueLocks.StuckByDead` | eventlet/green/zmq.py:52-75 | a step leaves a free lock with waiters and no switch pending if and only if it is the switch to a killed waiter |
| `QueueLocks.StuckForEver` | eventlet/green/zmq.py:52-75 | nobody ever gets such a lock again, whoever asks for it |
| `QueueLocks.StuckExactly` | eventlet/green/zmq.py:52-75 | after any run the lock is stuck if and only if a killed waiter has been woken |
| `QueueLocks.KillLosesLock` | eventlet/green/zmq.py:52-75 | a run in which that happens |
| `QueueLocks.QueueLock.Acquire` | eventlet/green/zmq.py:52-64 | gets the lock exactly if it holds it already, or if it is free and nobody waits, and otherwise waits behind all others |
| `QueueLocks.QueueLock.Resume` | eventlet/green/zmq.py:57-64 | after the switch the first waiter has the lock once, and both assertions hold |
| `QueueLocks.QueueLock.Release` | eventlet/green/zmq.py:66-75 | one acquisition less; at the last the lock is free and the first waiter is scheduled; a free lock is an error |

## Left out

- QueueClass.Queue.Unlock: of exceptions in the loop itself, only that of a putter without a greenthread is modelled.
- Tpools.RunsEnd: the threads are steps on values, since their interleaving is the point; `setup`, `killall`, and direct
  calls without a thread (inside a thread of the pool, during an import, or with no threads) are not modelled, nor are
  the exceptions of a closed socket.
- GreenMaps.MapsInOrder: the producer and the consumer are steps on values above the machine of `Queues`; the pool's own
  bound on running greenthreads is that of `GreenPools`, and a `put` of the producer is never killed.
- DagPools.RunsToTheEnd: `kill` is not modelled, and the order in which a set of keys is looked through is arbitrary.
- GreenPools.Accounts: the links of greenthreads and `GreenPile` are not modelled; `resize` is one step.
- HubTimers.Hub.Run: each timer is scheduled once, callbacks are finite lists of scheduling and cancelling, exceptions
  in callbacks are swallowed as the hub does, and `abort` is not modelled. `LocalTimer` is not, either.
- ListenerHub.Hub.Register: file numbers are valid, so that there is no `ValueError`; `remove_descriptor`, which calls
  back into the greenthreads, and the calls of the callbacks in `wait` are not modelled.
- WebSocketFrames.StreamRoundTrip: without compression and without the UTF-8 decoding of text messages, though a close
  frame's text is decoded; of what is sent in answer to a close frame only the status is modelled.
- WsgiInput.Input.ReadChunked: the `100 Continue` response, `readlines` and the end of a TLS stream are not modelled.
- ChunkedCoding.HexReads: of what `int(text, 16)` accepts the model leaves out signs, underscores and a `0x` prefix.
- HttpResponse.Response.ReadChunked: `readinto` copies into a buffer of the caller, which is a byte string here;
  `read1`, `peek` and the closing of the connection are not modelled beyond `fp` being `None`.
- ChunkedWriters.ResponseReadBack: lengths are below 2^63, as those of Python's byte strings are. Status line and
  headers are one given byte string, and the application does not call `write` itself.
- Upgrades.UpgradeInstances: setting an attribute never fails, and `upgrade` answers for each instance with an object
  that is no instance of the class, without changing other objects.
- Cookies.RoundTrip: `None` is not a string here; strings hold no surrogates.
- Semaphores.Semaphore.Acquire: calls outside any greenlet, and the errors for senseless timeouts, are not modelled;
  a timeout is an exception thrown into the waiter.
- Semaphores.Semaphore.constructor: the `ValueError` for a negative count is a precondition, as are those of
  `CappedSemaphore` for a count beyond its limit and of `GreenPool` for a negative size.
- QueueLocks.StuckExactly: a waiter into which an exception is thrown is taken to be dead.
- Sockets, TLS, DNS, file objects, monkey patching apart from `_upgrade_instances`, WSGI headers and logging, connection
  pools, the cookie jar: input and output over libraries that are not shown, or easy bookkeeping.
