# A verified model of pmmpthread's concurrent core

pmmpthread shares PHP objects between OS threads. This project models the parts of it that are
protocols rather than glue, and proves what those protocols are for. Every monitor-protected section
is one atomic step; what the code does after it has released a monitor is a step of its own, so other
threads may come in between.

* **Property store.** `ZendHash` is the engine's ordered table (slots, tombstones, trimming, compaction
  on insert). `Store` gives every operation of src/store.c as a function on a shared table and one
  thread's cache. `StoreBounds` proves the cached `first`/`last` positions right, or says exactly which
  append makes them wrong. `StoreMachine` runs any number of threads over one object, in any order, and
  proves that caches agree with the table and that no raw string pointer dangles; `StoreCases` has three
  runs of it that end badly. `StoreEffects` says what every step does to the plain ordered map the table
  stands for and to the caches, and `StoreOwnership` who owns each string in it. `StoreMerge` compares the
  two merge paths. `StoreObject` has the same operations as classes updated in place, each method proved
  equal to its function in `Store`.
* **Workers and the start/join handshake.** `WorkerProtocol` is the creator and the worker as a state
  machine: task ledger, private list of finished tasks, flags, condition variable, shutdown. `Queue` is
  the linked list, `WorkerData` the worker's data and its routine's loop on top of it, proved against the
  protocol's functions.
* **Connections.** `Connections` has reference counts, the global table of live addresses and each
  thread's resolve map; `ConnectionRegistry` the same tables updated in place. `FullSync` is the
  recursive sync of `join()` over an arbitrary, possibly cyclic object graph.
* **Monitor, running count and lock order.** `Monitor` is the recursive lock with its wait loop;
  `RunningCount` the thread counter behind `Thread::getRunningCount()`; `LockOrder` takes every acquisition
  of a lock as a step of its own and says which calls can deadlock.
* **Copying.** `AstCopy` copies constant-expression trees into one pre-sized buffer; `Opcodes` relocates
  opcodes.

`dafny verify dfyconfig.toml` checks the whole project.

## Main results

1. *No stale read, no dangling string.* In every run of any threads every string in the shared table is
   permanent, or a persistent copy made for this table that no other entry shares, or a string in the heap of an
   attached thread that keeps it alive (`StoreOwnership.EveryStringLives`). `StoreMachine.RunCoherent` says that a cache with the current modification count holds what the table holds,
   if and only if no thread overwrote its own cached value, while in sync, by a value that is never cached
   (`Hazard`). `StoreCases.StaleRead` is a run from the empty object into that failure.
2. *`first` never lies, and exactly when `last` does.* Shift, chunk, pop and the start of an iteration refine a
   plain ordered map (`StoreBounds.ShiftRefines`, `ChunkTakesFront`, `PopRefines`, `ResetRefines`);
   `AppendKeepsLastIff` characterises the bad appends, `StoreCases.StaleLast` is a run into one of them, and
   `MisplacedPopFindsNothing` and `KeyedWriteRecovers` say what follows.
3. *The shared object is a plain ordered map.* In every run each step of each thread does to the map exactly what
   its name says (`StoreEffects.RunDoes`), to its own thread's cache likewise (`StepCaches`), and to other
   connections nothing (`OthersUntouched`). chunk(n) is n shifts (`StoreBounds.ChunkIsShifts`); the two merges agree
   (`StoreMerge.MergesAgree`), and the one that can fail does so exactly at the first element that is not passed over
   and cannot be stored (`ArrayMergeSucceedsIff`, `ArrayMergeStopsAt`).
4. *Worker protocol.* One invariant over every run (`WorkerProtocol.RunInv`): ledger and FIFO, the private
   list mirrors the collector, no lost wakeup. A join never deadlocks and ends (`JoinNeverStuck`,
   `JoinEnds`), having drained the queue unless something failed (`JoinReturns`). A failure is final: no further task
   goes to the worker, and ERROR is set before the failed task can be collected (`FailureIsFinal`). stack() accepts
   exactly until the first failure, departure or join (`AcceptsUntilClosed`). A task is stacked in vain if
   and only if the worker is already on its way out (`AddedInVainIff`).
5. *Rescue at join.* The recursive sync ends on cyclic graphs and visits exactly what is reachable by what it
   follows (`FullSync.VisitIsReach`). Its connections are steps of `Connections` at the stored addresses.
   `FullSync.Rescue` leaves everything reachable held by the creator's caches if and only if every cache it
   trusted within reach was honest, and then everything reachable outlives whatever the other threads do.
   `StoreMachine.FullSyncCachesAll` says that without the hazard of result 1 they are honest.
6. *Connections are unique and counted exactly* (`Connections.RunInv`, `OnePerThread`, `FreedWithTheLast`).
7. *Copies mean the same.* `AstCopy.CopyAst` fills its buffer to the last word and reads back as the tree;
   `Opcodes.CopyMeansTheSameIff` gives the exact condition for a copied function, before and after the second
   compiler pass, and `HandedKeepsMeaning` follows it through any number of copies.
8. *Deadlock.* `LockOrder.DeadlockIff` says exactly which nested acquisitions can deadlock, whatever they are;
   `CrossingDeadlockIff` and `RingDeadlockIff` say it, for any number of threads, of five kinds of nesting the
   extension has: freeing a connection, restoring a reference, testing an address, evicting a connection from a
   cache, merging.

## Where the code does less than one might expect

* An in-sync connection that overwrites its own cached string or object by null, a boolean, a number or an
  enum case moves both counters together and keeps the old cache entry, so its next read is stale
  (`StoreMachine.Hazard`, `WriteCoherentIff`, `StoreCases.StaleRead`).
* The same stale entry misleads the rescue at join. If another thread meanwhile stores an object under that key,
  no count moves; the full sync returns early from the local sync, takes the cached entry for the stored one, and
  never connects to the stored object (`StoreCases.MissedObject`, `FullSync.MissedReference`). The exact
  condition is `FullSync.Honest` for every object within reach.
* The comment at src/store.c:568 says that after an append the last element is the new item. The guard
  before it looks for a rehash only if `first` is cached past slot 0, so an append that compacts the table
  can leave `last` behind, and so can an append to a table whose next index is exhausted
  (`StoreBounds.AppendKeepsLastIff`, `StoreCases.StaleLast`).
* `Worker::stack()` checks the flags and adds the task in two separate sections; a worker that fails in
  between strands the task (`WorkerProtocol.AddedInVainIff`, `StrandedTask`).
* Opcode constants are rewritten whether or not the second compiler pass has been done. Before that pass a
  constant is the number of a literal, and the rewriting changes it unless the numbers and the two memory
  blocks happen to fit (`Opcodes.UnpassedConstIff`, `AlignedUnpassedIff`); `UnpassedCopyIsWrong` is such a function.
* Freeing a connection takes the global lock and then the object's monitor. Restoring a reference found in an
  object, testing a stored address in the sync of its cache, and evicting a connection from that cache take the
  global lock under the monitor, and the eviction takes the evicted object's monitor under both. Two merges in
  opposite directions take their two monitors in opposite orders. These can deadlock
  (`LockOrder.CrossingDeadlockIff`, `RingDeadlockIff`, `OppositeMergesIff`).

## Model

| member | source | states |
|---|---|---|
| ZendHash.PutItems | src/store.c:412-433 | A put on the slot table, whether the engine compacts, pads or overwrites, is a set on the ordered map it stands for. |
| ZendHash.DelItems | src/store.c:293-295 | A delete by key removes exactly that key from the ordered map and keeps the order of the rest. |
| ZendHash.FindIsGet | src/store.c:272-281 | Looking a key up in the slots is looking it up in the ordered map. |
| ZendHash.AppendKeyStorable | src/store.c:542-545 | The key of an append is a representable integer and is unused unless the next free index is exhausted. |
| StoreBounds.ShiftRefines | src/store.c:605-654 | If `first` is right, shift returns the oldest pair and leaves exactly the others; `first` is right afterwards and `last` stays right; an empty table is left alone. |
| StoreBounds.PopRefines | src/store.c:720-771 | If `last` is right, pop returns the newest pair and leaves exactly the others, and both positions are right afterwards. |
| StoreBounds.WriteKeepsFirst | src/store.c:519-566 | Every write, keyed or appended, with any growth of the table, leaves `first` right and sets the ordered map at its key. |
| StoreBounds.AppendKeepsLastIff | src/store.c:555-572 | An append keeps `last` right if and only if it is not the one bad case: `last` cached, the rehash guard not looking, and slots moved or no fresh index. |
| StoreBounds.KeyedWriteRecovers | src/store.c:563-566 | Whatever `last` was before a keyed write, the next pop takes the newest element of the written map and leaves exactly the others. |
| StoreBounds.ResetRefines | src/store.c:1373-1389 | An iteration starts nowhere exactly if the map is empty, else at the slot that holds its first pair; `first` is then that position and nothing else changed. |
| StoreBounds.MisplacedPopFindsNothing | src/store.c:727-763 | With a misplaced `last` a pop finds nothing and changes nothing. |
| StoreBounds.WriteKeepsLastWeak | src/store.c:555-572 | Right or not, `last` never comes to point before the last slot. |
| StoreBounds.ChunkIsShifts | src/store.c:657-717 | chunk(n) and n shifts take the same pairs in order, leave the same table, positions and own cache, and make the same other connections stale. |
| StoreBounds.ChunkTakesFront | src/store.c:657-717 | chunk(n) takes the first min(n, size) pairs of the ordered map and leaves the rest. |
| StoreBounds.ChunkLoopSound | src/store.c:668-706 | The loop of chunk splits the ordered map into what it took and what stays, keeping both positions as right as they were. |
| StoreMachine.StepSound | src/store.c:71-143 | Any step of any thread keeps the shape and the no-dangling invariant; it keeps in-sync caches honest if and only if it is not the hazard. |
| StoreMachine.RunSafe | src/store.c:519-590 | In every run from the empty object `first` is right and every raw string pointer is held by its owner's live connection or its write in flight. |
| StoreMachine.RunCoherent | src/store.c:241-250 | In every run caches with the current modification count hold what the table holds, up to and exactly until the first hazard. |
| StoreMachine.WriteCoherentIff | src/store.c:541-583 | A write keeps all caches honest if and only if it is not an in-sync overwrite of an own cached value by one that is never cached. |
| StoreMachine.ReadReturnsShared | src/store.c:436-492 | With honest caches a read returns the value the table holds, from the cache or restored, null only for a dead reference, and nothing only if the key is absent or an indirect access meets something that is no thread-safe object. |
| StoreMachine.SnapshotIsShared | src/store.c:774-834 | Converting to an array yields exactly the keys of the table with their shared values, and null only under a dead reference. |
| StoreMachine.PersistRescues | src/store.c:863-888 | Freeing a connection turns its thread's string pointers, and nothing else, into strings of the table with equal bytes; PersistCopies says which. |
| StoreMachine.DetachSound | src/object.c:349-384 | Freeing a connection keeps all invariants for the others; the last one takes the table with it. |
| StoreMachine.DeleteSound | src/store.c:284-317 | A delete, whose own cache entry goes after the unlock, keeps every invariant; DeleteEffect says what it does. |
| StoreMachine.ShiftSound | src/store.c:605-654 | A shift keeps every invariant of all connections. |
| StoreMachine.PopSound | src/store.c:720-771 | A pop keeps every invariant of all connections, even with a misplaced `last`. |
| StoreMachine.ChunkSound | src/store.c:657-717 | A chunk, which moves the modification count at most once, keeps every invariant. |
| StoreMachine.MergeSound | src/store.c:1211-1266 | A merge from a thread-safe array keeps every invariant. |
| StoreMachine.ReadSound | src/store.c:443-486 | A read, whose value is cached after the unlock, keeps every invariant. |
| StoreMachine.ToHashSound | src/store.c:774-860 | What tohash adds to the object's own table is never taken for an honest cache. |
| StoreMachine.FullSyncSound | src/store.c:187-230 | The caching part of a full sync keeps every invariant, given live references. |
| StoreMachine.FullSyncCachesAllIff | src/store.c:187-230 | Given live references a full sync leaves every cacheable key cached with what the table holds if and only if the cache it trusts was right under those keys. |
| StoreMachine.FullSyncCachesAll | src/store.c:187-230 | With honest caches it does so. |
| StoreMachine.SyncCoherent | src/store.c:71-143 | A sync only removes entries, leaves the connection in sync and everything it keeps honest. |
| StoreMachine.SyncHolds | src/store.c:119-127 | A sync never throws out a string the table still points to. |
| StoreCases.StaleRead | src/store.c:552-583 | A run from the empty object (attach, write a string, write null) after which the writer's read returns something other than the table holds. |
| StoreCases.MissedObject | src/store.c:187-218 | A run of two threads from the empty object after which a full sync keeps the first thread's stale entry and does not connect to the object the table holds. |
| StoreCases.StaleLast | src/store.c:555-572 | A run from the empty object (eight appends, five deletions, a pop, a compacting append) after which `last` is wrong and a pop returns nothing although three elements are there. |
| StoreMachine.StepLast | src/store.c:555-572 | Every step keeps `last` right if and only if it is not a misplacing append. |
| StoreMachine.RunLast | src/store.c:555-572 | In every run without a misplacing append `last` is right. |
| StoreEffects.DeleteEffect | src/store.c:284-317 | A delete unsets the key in the ordered map, whatever it held, drops it from the own cache if the map held it, moves the count if and only if that value may be cached, and forgets both positions. |
| StoreEffects.ShiftEffect | src/store.c:605-654 | A shift takes the oldest pair off the map, drops its key from the own cache, moves the count if and only if the value may be cached, and keeps the connection as much in sync as it was. |
| StoreEffects.PopEffect | src/store.c:720-771 | The same of a pop and the newest pair, while `last` is right. |
| StoreEffects.ChunkEffect | src/store.c:657-717 | A chunk takes the leading pairs, drops all their keys from the own cache, and moves the count once if and only if one of the values may be cached. |
| StoreEffects.WriteEffect | src/store.c:519-572 | A write sets its key in the ordered map to the saved value and moves the count if and only if it replaced something that may be cached. |
| StoreEffects.WriteCaches | src/store.c:573-584 | A write leaves its connection in sync and has strings, objects and closures cached under the key. |
| StoreEffects.WriteKeepsCache | src/store.c:573-584 | Under every other key, and under the written one if the new value is never cached, an in-sync cache stays as it is and any cache gains nothing. |
| StoreEffects.RefusedWrite | src/store.c:537-540 | A value cannot be stored if and only if it is not thread-safe, and then nothing changes. |
| StoreEffects.ReadEffect | src/store.c:436-492 | A read yields the synced cache's value, else the restored one, which is then cached if it may be; it yields nothing if and only if nothing is cached and the key is absent or an indirect access meets no object. The rest of the cache stays. |
| StoreEffects.SyncKeepsUsable | src/store.c:92-129 | A sync keeps the thread's own strings, the same closure, the very connection stored, and any connection to the object a live address leads to. |
| StoreEffects.SyncDropsOthers | src/store.c:92-142 | An out-of-date cache keeps nothing else: no key the table lacks, no value that differs, no foreign string, no other connection under a dead address. |
| StoreEffects.OwnTableEffect | src/store.c:774-860 | Converting to an array gives the object's own table exactly the missing keys, and leaves the connection in sync if and only if none was missing. |
| StoreEffects.FullSyncEffect | src/store.c:187-230 | A full sync adds exactly the keys that may be cached and are not, and is in sync. |
| StoreEffects.MergeEffect | src/store.c:1211-1266 | A merge folds the pairs into the ordered map, drops exactly the keys it wrote from the own cache, moves the count if and only if it replaced something that may be cached, and forgets both positions. |
| StoreEffects.DetachEffect | src/object.c:349-384 | Freeing a connection leaves keys, order and meanings of the map alone while others are attached, and the last one takes the map away. |
| StoreEffects.StepDoes | src/store.c:284-888 | Every step of any thread does to the ordered map what its name says: set, unset, drop the first, the last or the leading pairs, fold, keep up to copies of strings, or nothing. |
| StoreEffects.RunDoes | src/store.c:284-888 | So does every step of every run from the empty object. |
| StoreEffects.StepCaches | src/store.c:71-888 | Every step does to the cache of its own thread, once finished, what its name says. |
| StoreEffects.StepSyncs | src/store.c:71-143 | After a sync, a full sync, a write, or a read through the object's own table the connection is in sync. |
| StoreEffects.OthersUntouched | src/store.c:241-250 | No step touches another thread's connection. |
| StoreOwnership.CopyIs | src/store.c:1162-1200 | A copied string is a new persistent allocation with the same bytes unless it is permanent, wherever it was before; other storages are kept. |
| StoreOwnership.PersistCopies | src/store.c:863-888 | Every string the freed thread had lent becomes a persistent allocation of its own with the same bytes, or stays if it is permanent. |
| StoreOwnership.StepOwned | src/store.c:494-505 | Every step keeps each string of the table permanent, a persistent copy made for this table and shared by no other entry, or a pointer into its owner's heap. |
| StoreOwnership.RunOwned | src/store.c:494-505 | So it is in every run from the empty object. |
| StoreOwnership.EveryStringLives | src/store.c:863-888 | In every run a string in the table is permanent, or an unshared persistent copy of this table's, or in the heap of an attached thread that has it cached under that key or is about to. |
| StoreMerge.MergesAgree | src/store.c:1203-1336 | Merging a PHP array by writes and merging a thread-safe array with the same contents give the same keys in the same order with values that mean the same, and the writes all succeed. |
| StoreMerge.MergeBias | src/store.c:1222-1253 | The merged map takes the source's value for a key exactly if the source has it and overwriting is on or the key was absent, and is unchanged elsewhere. |
| StoreMerge.StopsThere | src/store.c:1300-1331 | After a failed element nothing further is written; ArrayMergeSucceedsIff says which elements fail. |
| StoreMerge.ArrayMergeSucceedsIff | src/store.c:1300-1331 | Merging a PHP array succeeds if and only if no element blocks it: one that cannot be stored and is not passed over, that is, overwriting is on or neither the object nor an earlier element has its key. |
| StoreMerge.ArrayMergeStopsAt | src/store.c:1300-1331 | With a blocking element it does exactly what the elements before the first such one do, and reports failure. |
| StoreMerge.MergeFolds | src/store.c:1222-1253 | The merge loop over a thread-safe array is the fold of its pairs, copied, into the ordered map. |
| StoreMerge.MergeDrops | src/store.c:1222-1257 | It drops from the own cache exactly the keys it writes, and the count is to move if and only if one of them held something that may be cached. |
| StoreObject.SharedObject.Reset | src/store.c:1373-1389 | The method is `Store.Reset`, which ResetRefines characterises. |
| StoreObject.SharedObject.PersistLocalProperties | src/store.c:863-888 | The in-place loop is `Store.Persist`, of which PersistRescues and PersistCopies say what it copies. |
| StoreObject.Connection.SyncLocalProperties | src/store.c:71-143 | The in-place loop keeps exactly the entries the table vouches for and marks the connection in sync. |
| StoreObject.Connection.ReadLocked | src/store.c:443-480 | The section of a read is `Store.Read`. |
| StoreObject.Connection.WriteLocked | src/store.c:537-578 | The section of a write is `Store.Write`. |
| StoreObject.Connection.DeleteLocked | src/store.c:291-311 | The section of a delete is `Store.Delete`, which DeleteEffect characterises. |
| StoreObject.Connection.TakeFront | src/store.c:675-705 | One element comes off at a position, with its effect on bounds, table and cache. |
| StoreObject.Connection.Shift | src/store.c:605-654 | The method is `Store.Shift`. |
| StoreObject.Connection.TakeUpTo | src/store.c:668-706 | The while loop is the recursion `Store.ChunkLoop`. |
| StoreObject.Connection.Chunk | src/store.c:657-717 | The method is `Store.Chunk`. |
| StoreObject.Connection.Pop | src/store.c:720-771 | The method is `Store.Pop`. |
| StoreObject.Connection.MergeFrom | src/store.c:1211-1266 | The loop over another thread-safe array is `Store.Merge`, which MergeEffect and CopyIs characterise. |
| StoreObject.Connection.MergeArray | src/store.c:1274-1336 | The loop of writes, ended by the first value that cannot be stored, is `StoreMerge.ArrayMerge`, of which ArrayMergeSucceedsIff and ArrayMergeStopsAt say where it ends. |
| StoreObject.Connection.ToOwnTable | src/store.c:774-858 | The loop adds exactly the missing keys and makes the connection stale if it added any. |
| WorkerProtocol.StepInv | src/worker.c:70-195 | Every step of creator or worker keeps ledger, mirror, flags and no-lost-wakeup; a task handed over as failed has ERROR set. |
| WorkerProtocol.RunInv | src/worker.c:70-195 | In every run: stacked is what left the queue followed by the queue, what the worker took is collected, collectable and running in order, the private list mirrors the collector, and nobody sleeps through a wakeup. |
| WorkerProtocol.RunRecords | src/worker.c:70-143 | In every run what was stacked is what passed the guard of stack(), in order, but for the one on its way in; as many tasks were collected as the collector accepted; and unstack() and the turns of the worker's loop, and nothing else, took the oldest task whenever there was one. |
| WorkerProtocol.FailureIsFinal | src/routine.c:120-141 | In every run, once run() of a task or of the worker has failed, no further task goes to the worker; ERROR is set, or the failed task is still the running one, so nobody can collect it before. |
| WorkerProtocol.AcceptsUntilClosed | classes/worker.c:43-54 | In every run stack() lets a task pass if and only if no failure was marked, the routine has not departed and no join was called. |
| WorkerProtocol.GoneKeepsNothing | src/routine.c:147-160 | In every run a worker that is gone has let go of its private list. |
| WorkerProtocol.Drain | src/worker.c:169-176 | When the worker shortens its private list it drops exactly the tasks collected since the last time and keeps exactly those still collectable. |
| WorkerProtocol.CollectReports | src/worker.c:137-142 | The count reported is stacked minus unstacked minus collected. |
| WorkerProtocol.ShutdownOnlyDrains | classes/worker.c:37-54 | Once JOINED is set nothing is stacked any more and the queue only loses its head. |
| WorkerProtocol.Drained | src/worker.c:177-181 | A worker past its loop without an error has taken every task that was not unstacked. |
| WorkerProtocol.JoinStepDecreases | src/routine.c:215-260 | During a join every step but a spurious wakeup decreases the rank, or is the return of join after the worker is gone. |
| WorkerProtocol.JoinNeverStuck | src/routine.c:215-260 | During a join some step other than a spurious wakeup is always possible. |
| WorkerProtocol.JoinEnds | src/routine.c:215-260 | The number of steps of a join is at most its rank plus two per spurious wakeup. |
| WorkerProtocol.JoinReturns | src/routine.c:257-259 | When join returns the worker is gone, nothing is accepted, and without an error the queue is drained in submission order. |
| WorkerProtocol.DoomedNeverTakes | src/routine.c:120-145 | In every continuation a worker past its loop, or leaving it with a failed task, takes nothing; what is queued can only be unstacked. FailureIsFinal says that every failure leads there. |
| WorkerProtocol.WillingTakesAll | src/worker.c:165-195 | Any other worker has a continuation in which it takes everything that is queued, in order. |
| WorkerProtocol.AddedInVainIff | classes/worker.c:43-54 | The task add_task puts in is taken by the worker in no continuation if and only if the worker is on its way out at that moment. |
| WorkerProtocol.StrandedTask | classes/worker.c:43-54 | From any state in which run() of the worker is going on: if it fails between the guard and the queue, the task is accepted and in no continuation taken. |
| Queue.List.Push | src/queue.c:41-52 | The item becomes the last; list, links, size and values agree. |
| Queue.List.PushNew | src/queue.c:54-56 | A fresh item with the value becomes the last. |
| Queue.List.Unlink | src/queue.c:80-97 | The pointer surgery removes exactly one member, wherever it is, and leaves every link consistent. |
| Queue.List.Remove | src/queue.c:74-112 | That member's value is handed out and the sequence loses exactly it. |
| Queue.List.Shift | src/queue.c:114-116 | The first item is removed; an empty list is left alone. |
| Queue.List.Pop | src/queue.c:118-120 | The last item is removed; an empty list is left alone. |
| WorkerData.Worker.AddTask | src/worker.c:70-86 | The queue gains the task, the notification is due exactly if it was empty. New items are fresh and the collector's list is untouched. |
| WorkerData.Worker.DequeueTask | src/worker.c:100-110 | unstack takes the oldest task, if any. No item is added to any list. |
| WorkerData.Worker.TakeTask | src/worker.c:185-188 | The head of the queue becomes `running`, the very same item. The other items stay where they are. |
| WorkerData.Worker.HandOver | src/worker.c:88-93 | The running item, in neither list until now, becomes the last of the collector's list. No other item moves. |
| WorkerData.Worker.CollectTasks | src/worker.c:112-143 | Exactly the leading tasks the collector accepts leave, the worker is told how many, and the remaining count is returned. No item is added to any list. |
| WorkerData.Worker.Acknowledge | src/worker.c:169-176 | The private list loses as many tasks from the front as were collected and the tally is cleared. |
| WorkerData.Worker.NextTask | src/worker.c:165-195 | One turn of the loop: acknowledge, then take, leave or sleep. The worker's private list stays apart from the common ones, so the next turn can follow. |
| WorkerData.Worker.AddGarbage | src/worker.c:88-98 | The finished task goes to the collector and then into the private list, as a fresh item of its own. |
| WorkerData.Routine.Serve | src/routine.c:124-141 | The routine's loop hands every queued task to the collector and into the private list, in order, and ends asleep or, if joined, for good. |
| WorkerData.Lifecycle | src/routine.c:111-141 | Stacked, served, collected and acknowledged, exactly the tasks from the first refused one on are still kept, and that many are reported. |
| WorkerData.TurnOnBooks | src/worker.c:165-195 | That turn is the protocol's step. |
| WorkerData.Leading | src/worker.c:118-131 | The number of accepted tasks before the first refusal. |
| Connections.StepInv | src/object.c:182-384 | Every step keeps the tables exact, the counts exact and the resolve maps exact. |
| Connections.RunInv | src/globals.c:145-191 | In every run the global table holds exactly the live addresses, each count is the number of live connections, and each thread resolves a shared object to its one connection. |
| Connections.OnePerThread | src/object.c:219-231 | A thread never has two connections to one shared object. |
| Connections.ConnectReaches | src/object.c:205-237 | An address can be followed exactly while its connection exists, and leads the caller to its own connection to the same shared object. |
| Connections.FreedWithTheLast | src/object.c:367-372 | The shared part is freed exactly with its last connection. |
| Connections.OthersUntouched | src/object.c:349-384 | No step frees another thread's connection. |
| Connections.KeptAlive | src/object.c:367-373 | While one thread keeps its connection nothing the others do can free the shared part. |
| ConnectionRegistry.Registry.ObjectAlloc | src/globals.c:145-158 | A fresh address is listed; the invariant holds. |
| ConnectionRegistry.Registry.BaseCtor | src/object.c:297-314 | A new object gets a shared part with one reference and becomes its thread's connection. |
| ConnectionRegistry.Registry.ObjectConnect | src/object.c:205-237 | Valid exactly if the connection at the address exists; then the result is the caller's connection to the same shared object. |
| ConnectionRegistry.Registry.BaseFreeBegin | src/object.c:356-359 | Only the primary connection leaves the resolve map. |
| ConnectionRegistry.Registry.BaseFreeEnd | src/object.c:367-381 | The shared part is freed if and only if this was its only connection. |
| FullSync.VisitSound | src/store.c:175-238 | Whatever the walk visits is reachable without touching the recursion stack. |
| FullSync.VisitComplete | src/store.c:175-238 | Whatever a path, even a cyclic one, leads to is visited. |
| FullSync.VisitIsReach | src/store.c:175-238 | Started with an empty stack the walk visits exactly what is reachable in the graph it follows; it ends because the objects off the stack get fewer. |
| FullSync.Creator.SyncLocal | src/store.c:71-143 | Nothing happens if the modification counts agree; else the cache keeps exactly the entries the table vouches for and is in sync. What the walk sees does not change. |
| FullSync.Creator.Sync | src/store.c:175-238 | The thread becomes connected to exactly what the walk visits, following a trusted entry where there is one and the stored address where there is none, and each visited object's cache holds all the walk sees there. |
| FullSync.Creator.SyncRefs | src/store.c:197-230 | The loop over one table connects to everything the walk sees there and leaves each entry in the cache. |
| FullSync.Creator.SyncRef | src/store.c:201-229 | One reference: a cached entry is taken for it, kept and synced, even where it differs; else the stored address is connected to, synced and cached. |
| FullSync.Creator.SyncTasks | src/worker.c:146-163 | Every collectable task of a worker is synced, and everything the walk sees from it connected. |
| FullSync.Creator.Connect | src/store.c:213-214 | Following the address stored under a key is a Connect step of the creator at that address, after which its object is held too. |
| FullSync.Rescue | src/routine.c:238-259 | By Connect steps at stored addresses: everything the walk sees is connected and outlives every run of the other threads; everything stored within reach of the thread, its collectable tasks or the shared globals is held by a cache if and only if every trusted cache within reach was honest, and then all of it is connected and outlives them. |
| FullSync.SeenIffHonest | src/store.c:203-213 | At an object the walk sees what is stored if and only if its cache is out of sync or every entry under a stored reference is that reference. |
| FullSync.RescueIff | src/store.c:203-213 | Everything stored within reach ends up held if and only if every object within reach was honest; a wrong trusted entry is never replaced. |
| FullSync.MissedReference | src/store.c:203-213 | A graph and a cache for which a stored object is reachable and the walk does not see it. |
| FullSync.HeldOutlives | src/routine.c:147-159 | What the creator is connected to keeps its shared part in whatever the other threads do while it waits. |
| Monitor.Lockable.Unlock | src/monitor.c:58-60 | One level is given up by the owner, and the lock is free with the last; anyone else gets an error and changes nothing. |
| Monitor.Lockable.Check | src/monitor.c:62-70 | The masked flags, at unchanged lock depth. |
| Monitor.Lockable.Add | src/monitor.c:113-119 | The flags gain the mask, at unchanged lock depth; WithSets says no other flag changes. |
| Monitor.Lockable.Remove | src/monitor.c:121-127 | The flags lose the mask, at unchanged lock depth; WithoutClears says no other flag changes. |
| Monitor.Lockable.WaitUntil | src/monitor.c:102-111 | The depth is restored, every wait is entered one level above the depth at entry, and the outcome is `Monitor.Result`. |
| Monitor.Lockable.Acknowledge | src/worker.c:169-176 | COLLECT_GARBAGE is clear afterwards and no other flag changed, JOINED being named, at unchanged lock depth. |
| Monitor.Lockable.NextTask | src/worker.c:165-195 | The worker's wait restores the depth, enters every wait one level above the depth at entry, leaves only with JOINED set or a task, and leaves at once if joined and without a task. |
| Monitor.FreeWaitSeesIff | src/monitor.c:102-111 | Entered with the monitor free, the loop sees the flag if and only if some wakeup, before any failed wait, finds it set. |
| Monitor.HeldWaitSeesIff | src/monitor.c:102-111 | Entered with the monitor held, it sees the flag if and only if it was set already. |
| Monitor.WaitFailsIff | src/monitor.c:102-111 | It reports a failure if and only if it did not see the flag and some wait failed. |
| Monitor.WithSets | src/monitor.c:113-119 | Setting a mask sets it and changes no other flag. |
| Monitor.WithoutClears | src/monitor.c:121-127 | Clearing a mask clears it and changes no other flag. |
| Monitor.JoinedLeaves | src/worker.c:177-188 | A task comes first; without one a joined worker leaves, whatever else is set. |
| Monitor.FoundIs | src/worker.c:165-195 | The first turn that finds a task or JOINED decides how the worker's loop ends, failed waits being turns like others; without one it is still asleep. |
| RunningCount.StepInv | src/prepare.c:892-954 | Every step keeps the count equal to the number of threads counted in and not out, and the creator's calls in step with the routine. |
| RunningCount.CountIsExact | classes/thread.c:119-131 | In every run a count read under the global lock includes every thread whose start returned and whose join was not called, and excludes every thread whose join returned. |
| RunningCount.QuietCount | classes/thread.c:119-131 | With no start or join under way the count is the number of running threads. |
| RunningCount.UnlockedReadMisses | src/prepare.c:948-951 | A run in which start has returned while the count is still zero, which only a reader without the lock could see. |
| RunningCount.RunInv | src/prepare.c:988-999 | In every run, shutdowns included, the count is the number of threads counted in and not yet out, and critical sections exclude each other. |
| AstCopy.ComputeTreeSize | src/copy.c:133-162 | The accumulating loops compute the size of the layout. |
| AstCopy.CopyTree | src/copy.c:164-218 | The copier consumes exactly that size, lays the tree out there and touches nothing else. |
| AstCopy.CopyChildren | src/copy.c:190-215 | Each child pointer leads to where its subtree was put, null stays null. |
| AstCopy.CopyAst | src/copy.c:220-234 | One allocation filled to the last word that reads back as the tree and whose nodes tile it. |
| AstCopy.DecodeHeld | src/copy.c:164-218 | Following the pointers of a laid-out copy gives the tree back: kinds, attributes, null children, values. |
| AstCopy.NodesTile | src/copy.c:128-162 | The nodes of a copy follow each other without gap or overlap from start to end of the computed size. |
| AstCopy.TilesApart | src/copy.c:164-218 | Any two node regions are disjoint and inside the buffer. |
| AstCopy.HeldNodes | src/copy.c:164-218 | Each of these regions begins with a node header in the copy. |
| AstCopy.HoldsFrame | src/copy.c:190-215 | A laid-out subtree depends on its own words only, so later siblings do not disturb it. |
| Opcodes.CopyOpcodes | src/copy.c:378-470 | The block is copied and every opcode patched as specified. |
| Opcodes.PatchOpcode | src/copy.c:387-466 | The branches rewrite exactly the constant operands and the operand that is a jump in this PHP version. |
| Opcodes.PassedConstIff | src/copy.c:388-422 | After pass two a constant of the copy resolves to its literal if and only if its new offset fits 32 signed bits or constants are absolute. |
| Opcodes.UnpassedConstIff | src/copy.c:388-422 | Before pass two a literal number survives the rewriting if and only if, with absolute constants, the literals do not move, or, with relative ones, their drift equals the number's overhang modulo 2^32. |
| Opcodes.AlignedUnpassedIff | src/copy.c:400-420 | With aligned blocks and relative constants that is: the number is a multiple of 16 and the literals keep their distance from the opcodes. |
| Opcodes.ConstKeptIff | src/copy.c:388-422 | Both cases: a constant keeps its literal if and only if the condition of its pass holds. |
| Opcodes.JumpKept | src/copy.c:423-465 | A jump of the copy resolves to the same opcode index, absolute or relative, before or after the second pass. |
| Opcodes.JumpTable | src/copy.c:423-465 | Which operand of which opcode is a jump, by PHP version. |
| Opcodes.CopyMeansTheSameIff | src/copy.c:378-470 | The whole function keeps its meaning if and only if every constant meets its condition, pass two done or not, and is then well formed again. |
| Opcodes.OneBlockFits | src/copy.c:605-612 | In the one-allocation layout every constant is within reach if the block is no larger than 2 GiB. |
| Opcodes.SameDistanceFits | src/copy.c:605-612 | A copy that keeps the literals at their distance keeps every constant within reach, whatever the size. |
| Opcodes.HandedKeepsMeaning | src/copy.c:605-623 | Copied from thread to thread any number of times into the memory the copier chooses, a function laid out as pass two lays it out keeps its meaning whatever its size; one laid out otherwise does so up to 2 GiB. |
| Opcodes.UnpassedNumberIsLost | src/copy.c:605-623 | A function copied before pass two that uses a literal whose number is no multiple of 16 is never copied right by a relative build with aligned blocks. |
| Opcodes.UnpassedCopyIsWrong | src/copy.c:605-623 | One such function, for every pair of memory blocks. |
| LockOrder.RunExclusive | src/monitor.c:54-60 | In every run of single acquisitions no two threads hold the same lock. |
| LockOrder.DeadlockIff | src/monitor.c:54-56 | Threads can reach a deadlock if and only if their programs have places, reached without conflict, at each of which a thread wants what another has. |
| LockOrder.DeadlockStays | src/monitor.c:54-56 | Deadlocked threads never go on, whatever the others do. |
| LockOrder.StuckIsDeadlocked | src/monitor.c:54-56 | If no thread can take a step, the unfinished ones are deadlocked. |
| LockOrder.OrderedNeverDeadlock | src/monitor.c:54-56 | Any number of threads that take their locks in one order never deadlock. |
| LockOrder.CrossingDeadlockIff | src/object.c:367-373 | Any number of threads that free connections, restore references, test addresses or evict cached connections can deadlock if and only if one takes the monitor of an object under the global lock, not holding it already, while another takes the global lock under that monitor. |
| LockOrder.RingDeadlockIff | src/store.c:1211-1215 | Any number of threads with nestings of two locks, merges included, can deadlock if and only if some of them, with distinct outer locks, form a ring in which each wants inside what the next has outside. |
| LockOrder.TwoJobsIff | src/store.c:443-479 | Two such threads can deadlock if and only if they take the same two locks in opposite orders. |
| LockOrder.OppositeMergesIff | src/store.c:1212-1215 | Two merges can deadlock if and only if each goes into the other's source. |
| LockOrder.MergeOrderIff | src/store.c:1212-1215 | With one thread restoring a reference found in b and another freeing its connection to a, a merge can deadlock with them if and only if it goes from b into a: it takes the destination's monitor first. |

## Left out

- Class, function, constant and INI inheritance in src/prepare.c, and closure, attribute and type copying in src/copy.c.
- Closures are opaque ids; that their pointer may outlive the closure is an open issue of the source (src/store.c:972-975).
- Enum storages hold plain strings; who frees them after a merge is an open issue of the source (src/store.c:1186).
- Sockets, property handlers, magic methods, Pool, stubs, module startup and shutdown.
- Key coercion from numeric strings, arrays coerced to thread-safe arrays on write, isset, count and the other iteration helpers: they would only add easy members.
- Uninitialised typed properties and INDIRECT entries of an object's own table (src/store.c:836-850).
- Timed waits (src/monitor.c:80-91); a wait is notified, wakes for no reason, or fails.
- User code in run(), collectors and shutdown functions is one step that ends, well or not, and does not re-enter collect on the same worker.
- Failure of pthread_create, of allocation and of taking a mutex.
- The queue's unshift does not count the item it adds (src/queue.c:58-68); no worker operation calls it and it is not modelled.
- Modification counts, reference counts and sizes are unbounded integers.
- Addresses are never reused.
- The engine's hash table is a model: slots, tombstones, trimming at the end, appending with an arbitrary compaction or gap. Where the source has ZEND_ASSERT(0) because a position could not move, the position stays.
- The routine, the start/join handshake and the running count are state machines over values, because their steps belong to several threads; classes model the data each step updates.
- StoreObject methods are the sections the monitor protects; the lock itself is in Monitor.
- The source line numbers of AST nodes, and the handler an opcode is given after its constant was moved, which the engine chooses.
- FullSync.Rescue: assumes that every stored address is live, as the code does (src/store.c:214-217), and that nobody changes the graph meanwhile; the child has stopped running PHP code by then. A cached value that is no object, met under a stored object, is left alone; the code takes it for one, which C does not define. A connection whose last use was an out-of-date cache entry goes with that entry and would come back fresh; the model keeps it with its own cache, so the "only if" speaks of walks in which every connection has another use.
- FullSync.HeldOutlives: speaks of the time in which the creator itself takes no step, which is the time it spends in pthread_join.
- LockOrder.CrossingDeadlockIff: is about the four kinds of nesting it names, each as one call takes it on its own; inside the recursive sync, or inside a synchronized() block, they nest under further monitors, which only LockOrder.DeadlockIff covers.
- Opcodes.NewOffset: a difference of literal pointers rounds down to whole literals, as the shift a compiler makes of it does; for a function copied before pass two the C standard does not define it.
- StoreBounds.MisplacedPopFindsNothing: says what a pop does, not how `last` recovers; a keyed write, a delete or a merge resets it.
- WorkerProtocol.JoinEnds: bounds the steps by the number of spurious wakeups, which POSIX allows without limit.
