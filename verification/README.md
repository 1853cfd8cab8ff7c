# Verified models of abt-reconverse

abt-reconverse implements the Argobots 1.2 API on Reconverse. What is hard in it
are its hand-written concurrent protocols. This project models them in Dafny and
proves what every run of them keeps.

Concurrent protocols are step machines: a state, a relation for one step of one
thread (one step per atomic access, or per critical section under a spinlock), any
number of threads, every interleaving of a sequentially consistent memory. A run is
a sequence of states; results are about every state of every run. Structures that
are only touched by one thread at a time are classes with loops.

| module | models |
|---|---|
| `Basics`, `Records`, `Fifo` | shared definitions, queues over time |
| `PoolModel`, `PoolChain`, `PoolCount`, `PoolWake`, `PoolRace`, `PoolLag` | the built-in pool: MPSC queue and list storage, `count`, sleeper mask, parking PEs |
| `PoolSteps`, `PoolOrder`, `PoolPops`, `PoolPark` | the order of a list pool, what pops and removals return, how a PE parks and leaves |
| `PoolSeq` | both storages as linked structures, one operation at a time |
| `WaitList` | the wait list as a linked structure |
| `SyncModel`, `SyncInv`, `SyncTheorems`, `SyncOrder`, `SyncCalls` | mutex and condition variables over spinlocks and wait lists |
| `Monitor`, `MonitorProof` | the monitor they implement, and the proof |
| `Client` | any disciplined program over a mutex and condition variables |
| `Rwlock`, `Barrier` | two such programs, down to the spinlocks |
| `Eventual` | the eventual |
| `DirectSwitch`, `DirectPlain` | polling, direct switching between ULTs, and the plain loop |
| `Blocked` | `num_blocked`, migration, re-association |
| `Join`, `Finish` | joining ULTs and streams, finishing a stream over the pools of `PoolModel` and the ULTs of `Blocked` |
| `SchedRefs` | scheduler creation and destruction, `num_scheds` |

Assumed of Reconverse: `CthSuspendBlocked` makes its caller BLOCKED and then runs
the callback; `CthAwakenIfBlocked` atomically moves BLOCKED to READY and calls the
awaken function, or does nothing; an idle notification stays pending until the next
idle wait; a yield pushes the ULT back through its awaken function after the switch
(tests/core_smoke.c relies on this for migration).

Three places where the code does not do what it is meant to do, each with the exact
condition:

* `ABTI_pool::remove_unit` on a list pool trusts the `in_pool` flag, which a push
  sets before it links the unit. Removing a unit in that window empties the list
  (`PoolRace`). Results about runs stop at such a step.
* A yield whose ULT has asked to migrate to a pool above its own makes the direct
  switch choose a unit the plain loop would not have chosen, because the choice
  looks at the pool the ULT is leaving (`DirectPlain`).
* The check that lets a stream finish reads a pool's size, which is its `count`, and
  a push counts its unit after linking it. A pool reads as empty exactly when at least
  as many pushes are in flight as it has units live or on their way out, and then
  the stream can finish over live units (`PoolLag`, `Finish`). The unit left need not
  be one whose own push is in flight. With no push of the pool in flight at the read,
  only units pushed later are left; but a ULT that blocks in the pool may be among
  them, because the check reads `num_blocked` after the size, and a wake may lower
  the one before it raises the other.

`include/abt.h` documents a head-push rule for the random work-stealing pool kind;
the code is first-in first-out for every kind, and so is the model.

## Model

| member | source | states |
|---|---|---|
| `PoolChain.ChainNext` | src/pool.cpp:56-137 | every access of any thread keeps the chain well formed: one path from head to tail without repetition, every link set so far correct, every missing one owed |
| `PoolChain.FifoOverRuns` | src/pool.cpp:103-137 | in every run, the units taken off the MPSC queue followed by those still in it are exactly the units in the order of the tail exchanges; nothing is in it twice |
| `PoolChain.LogGrows` | src/pool.cpp:65-68 | the log of exchanges and the log of taken units only ever grow at their ends |
| `PoolChain.OneDebtor` | src/pool.cpp:65-68 | a link of the chain is missing if and only if some thread has exchanged and not linked, and then exactly one has: a producer, or the consumer appending the stub |
| `PoolChain.Recycling` | src/pool.cpp:103-124 | nobody in flight holds as predecessor a node that is not in the chain, so a unit pushed again and a stub appended again have no write outstanding; the stub is absent when it is cleared and appended |
| `PoolChain.DetachedIsFree` | src/pool.cpp:122-124 | detaching the front unit logs it, takes its node out of the chain and leaves no thread that will write to it |
| `PoolOrder.ListOrder` | src/pool.cpp:69-98 | in every undamaged state of every run the list holds exactly the units that were appended and have not left since, each once, in the order of their appends |
| `PoolPops.PopsFirst` | src/pool.cpp:87-98 | the pop of a list pool takes the first unit that can run on its PE and moves nothing else; it finds nothing exactly when no listed unit can run there |
| `PoolPops.FindsNothing` | src/pool.cpp:103-121 | the pop of an MPSC pool finds nothing only if no unit is in the queue, or if at some moment of this very pop a producer had exchanged right behind the front node and not linked |
| `PoolPops.HandsOver` | src/pool.cpp:122-137 | in both storages a pop hands over the unit it took, which was live when this pop took it and can run on the popping PE; exactly the primary ULT popped from an MPSC pool by a foreign PE is put back instead |
| `PoolPops.RemovesExactly` | src/pool.cpp:179-195 | a removal hits if and only if its unit is live at the moment it checks, whatever is pushed meanwhile |
| `PoolPops.RemovalTakes` | src/pool.cpp:179-195 | the deciding step of a hit takes that unit alone out of the live ones, that of a miss takes nothing |
| `PoolPops.AbortsOnDouble` | src/pool.cpp:62-64 | the process is aborted only by the push of a unit that is queued, and such a push never goes on |
| `PoolCount.Conservation` | src/pool.cpp:56-137 | `count`, plus pushes not counted yet, minus pops and removals not uncounted yet, is the number of live queued units, in every state |
| `PoolCount.Quiescent` | src/pool.cpp:173-195 | with no push, pop or removal in flight, whoever is parked, `count` is exact and not negative, and the live units are those stored without a tombstone |
| `PoolWake.NoLostWakeup` | src/pool.cpp:29-54 | a PE parked with no notification pending, while a live unit it may run is queued: a push is still to look for sleepers and will notify this PE, or is about to append; through the exchange/link gap and a lagging `count` |
| `PoolPark.MaskExact` | src/pool.cpp:29-36 | in every run the sleeper mask holds exactly the PEs between setting and clearing their bit, and the counter counts exactly those between raising and lowering it |
| `PoolPark.LeavesAfterWait` | src/xstream.cpp:247-254 | a registered PE takes itself off only with a unit in hand, after a size check, or after it has waited since it registered |
| `PoolPark.WaitEnds` | src/xstream.cpp:250-253 | a wait uses up the notification, and a PE that had looked by a pop pops again after it |
| `PoolPark.WaitsBySize` | src/sched.cpp:186-190 | by a size check a PE can go on to wait exactly when the count is not positive |
| `PoolRace.DamagedExactly` | src/pool.cpp:179-195 | a step damages the list if and only if it unlinks a unit whose push has flagged it and not linked it |
| `PoolRace.DamageLoses` | src/pool.cpp:81-85 | the damage: the list is empty, and every unit that was on it stays flagged as queued but is nowhere; `PoolSeq.ListPool.Unlink` is the code that does it |
| `PoolRace.DamageHappens` | src/pool.cpp:56-79 | there is such a run, of three threads and two units |
| `PoolSeq.ListPool.Push` | src/pool.cpp:69-78 | the unit is appended to the sequence the list stands for; links, ends and count stay consistent |
| `PoolSeq.ListPool.Unlink` | src/pool.cpp:81-85 | exactly the unit at one position leaves, wherever it is; unlinking a unit whose links are null, because it is on no list, leaves an empty list and every other unit's links and flag as they were |
| `PoolSeq.ListPool.Pop` | src/pool.cpp:87-98 | the unit picked is the front, or the one behind a pinned front; it leaves and nothing else moves |
| `PoolSeq.PickIsRunnable` | src/pool.cpp:87-98 | with one primary ULT the pick is the first unit this PE can run, and there is none exactly when no queued unit can run here |
| `PoolSeq.ListPool.Remove` | src/pool.cpp:179-195 | a hit exactly when the unit is flagged as queued here; it alone leaves if it is linked, and if not the list is cut off empty and the count falls all the same |
| `PoolSeq.ListPool.ForEach` | src/abti.h:214-223 | the traversal visits the queued units in order |
| `PoolSeq.MpscPool.Append` | src/pool.cpp:62-68 | a node, unit or stub, joins the chain at the tail |
| `PoolSeq.MpscPool.Push` | src/pool.cpp:56-79 | the unit is appended to the sequence of live units |
| `PoolSeq.MpscPool.Remove` | src/pool.cpp:179-195 | a hit exactly when the unit is live; the tombstone takes it alone out of the sequence while the chain stays as it is |
| `PoolSeq.MpscPool.TakeFront` | src/pool.cpp:103-124 | one round of the walk detaches the front unit, over the stub and re-appending it behind the last node; it finds nothing only when nothing is linked |
| `PoolSeq.MpscPool.TakeLive` | src/pool.cpp:103-132 | tombstones are dropped until the first live unit is detached; nothing is found only when no live unit is queued |
| `PoolSeq.MpscPool.Pop` | src/pool.cpp:103-137 | the first live unit leaves; a pinned one goes behind the others and the pop returns nothing |
| `PoolSeq.MpscPool.ForEach` | src/abti.h:214-223 | the traversal omits the front node, so it is complete if and only if that node is the stub or a tombstone |
| `PoolSeq.LiveTomb` | src/pool.cpp:179-195 | a tombstone anywhere in a chain takes exactly one unit out of the sequence of live units |
| `WaitList.List.Push` | src/sync.cpp:30-34 | the record is last |
| `WaitList.List.Pop` | src/sync.cpp:35-41 | the first record leaves, or null |
| `WaitList.List.Remove` | src/sync.cpp:42-51 | found exactly when on the list; that record alone leaves |
| `WaitList.List.TakeAll` | src/sync.cpp:239-246 | the chain taken is the whole list in order; the list is empty |
| `WaitList.Walk` | src/sync.cpp:239-246 | following the links of the chain meets every record once, in order |
| `SyncInv.OkStep` | src/sync.cpp:109-246 | every step of lock, spinlock, trylock, unlock, wait, signal, broadcast and wake keeps: exclusive spinlocks, records where their threads' positions say, one owner, somebody on the way to a free mutex with waiters |
| `SyncTheorems.Handoff` | src/sync.cpp:53-66 | in every run of untimed waits, with its spinlock free everyone on a wait list sleeps; lists have no repetition; every sleeper's record is in exactly one place; no wake ever found its thread awake |
| `SyncTheorems.WokenOnce` | src/sync.cpp:53-57 | a sleeper leaves its sleep only by a wake of the one thread that holds its record, an unlocker for a lock and a signaler of the same condition for a wait, which uses the record up |
| `SyncTheorems.Exclusive` | src/sync.cpp:109-164 | at most one thread holds the mutex, as many levels as it has locked more than unlocked; only a recursive one nests; waiters on a free mutex mean that a waiter some unlock took off the list has been about to be woken or on its way ever since, without having looked at the mutex |
| `SyncTheorems.CallsEnd` | src/sync.cpp:109-164 | in every run: lock and spinlock return only with one level more; a trylock returns at its first look, as it was exactly when somebody holds the mutex and the caller may not nest, else with one level more; only the critical section of an unlock gives a level back; only ULTs are BLOCKED with the spinlock held |
| `SyncCalls.CallGives` | src/sync.cpp:109-246 | in every run a call that returns has done what it is for: a lock got one level, a trylock one or none, an unlock gave one back, a wait was woken from its sleep on that condition and has its level again, a signal or broadcast went through its critical section |
| `SyncOrder.FirstLockerFirst` | src/sync.cpp:30-41 | in every run, of two threads waiting for the mutex the one that enlisted first leaves the list first |
| `SyncTheorems.NoMissedSignal` | src/sync.cpp:197-210 | a waiter that has released the mutex, even one still waking another thread in that unlock, and was not taken yet is on the list, and asleep whenever a signal or broadcast is inside its critical section |
| `MonitorProof.MonitorRefined` | src/sync.cpp:109-246 | every run is a run of the monitor, each step being the event of the thread that takes it: releasing the mutex and joining the queue is one step, signal takes the first waiter and broadcast exactly those queued, a wait returns only after one of these and with the mutex |
| `SyncOrder.FirstWaiterFirst` | src/sync.cpp:231-246 | in every run, of two threads waiting on one condition the one that joined first is notified first: no signal notifies the other while it waits |
| `Client.HighKeeps` | src/sync.cpp:197-210 | over the monitor, every step of such a program keeps: a thread owns the mutex, at one level, exactly when it is inside; one that waits is on the queue of the condition its position names or was notified, never both, and nobody else is queued |
| `Client.Simulation` | src/sync.cpp:197-210 | any program that locks from outside and unlocks, waits, signals and touches shared state from inside does, over the real mutex and conditions, only what it does over the monitor |
| `Rwlock.RwDisciplined` | src/sync.cpp:343-358 | the reader-writer lock is such a program |
| `Rwlock.ReadersOrWriter` | src/sync.cpp:343-358 | in every run down to the spinlocks: at most one writer, never with readers; `readers` is the number of read locks granted and not given back |
| `Rwlock.NobodyStranded` | src/sync.cpp:343-358 | with the mutex free: sleeping readers mean an active writer; sleeping writers on a free lock mean a signalled writer that has yet to test again; every waiter sleeps on its queue or was notified |
| `Rwlock.CallGives` | src/sync.cpp:343-358 | in every run down to the spinlocks, a read lock that returns gave its caller exactly one read lock, a write lock one write lock, and an unlock took exactly one lock from it |
| `Rwlock.UnlockCalls` | src/sync.cpp:351-358 | an unlocking writer calls all waiting readers and one waiting writer, the last unlocking reader one waiting writer |
| `Barrier.BarDisciplined` | src/sync.cpp:375-382 | the barrier is such a program |
| `Barrier.FullRounds` | src/sync.cpp:375-382 | arrivals are rounds times `num` plus `waiting`, which is below `num` and is the number of threads between arrival and release; nobody leaves a round before all `num` arrived in it |
| `Barrier.SleepersCurrent` | src/sync.cpp:375-382 | with the mutex free, unnotified sleepers recorded the current generation; below 2^64 rounds they are of the current round and everybody of an older one was notified |
| `Barrier.ReturnsArrived` | src/sync.cpp:375-382 | in every run a barrier wait returns only after its caller was counted as one arrival of a round and that round is complete |
| `Eventual.ReadyMeansDrained` | src/sync.cpp:260-328 | ready implies an empty wait list; with the spinlock free everyone listed sleeps; no wake fails |
| `Eventual.ValueStep` | src/sync.cpp:310-328 | the value changes, and readiness appears, only in a successful set of an eventual that is not ready; readiness goes only by a reset; a set returns at once, changing neither value, readiness nor list, exactly when the eventual is ready or the bytes are too many, and else takes the list |
| `Eventual.ValueHeld` | src/sync.cpp:310-328 | as long as it stays ready the value stays what was set |
| `Eventual.SetTakesAll` | src/sync.cpp:310-321 | a successful set leaves the bytes given and the rest of the buffer, and takes exactly the waiters queued, in order |
| `Eventual.WokenBySetter` | src/sync.cpp:310-321 | a waiter leaves its sleep only by the wake of the setter that took it, once |
| `Eventual.ReturnsReady` | src/sync.cpp:271-285 | in every run a wait returns only from an eventual that is ready while the caller has the spinlock, or after a set made it ready, took the caller off the list and woke it, all during this wait |
| `Eventual.CallsEnd` | src/sync.cpp:271-328 | a wait never starts over; only ULTs are BLOCKED with the spinlock held; a reset that returns leaves the eventual not ready with its value and list, a test leaves everything |
| `Eventual.EnlistedFirst` | src/sync.cpp:317-319 | in every run the list that a set takes is in the order in which the waiters enlisted |
| `DirectSwitch.BoundedChain` | src/xstream.cpp:37-84 | at most `direct_burst` direct switches between returns to the scheduling thread, whether a poll or the idle hook of a basic-wait scheduler dispatched; the chain counter is zero at every poll and in the hook |
| `DirectSwitch.ExactReport` | src/sched.cpp:114-133 | a poll that dispatched a unit returns one plus the direct switches made before it returned |
| `DirectSwitch.EmptyReport` | src/sched.cpp:114-126 | a poll that finds nothing in any pool and no parked unit returns zero |
| `DirectSwitch.HookLooksTwice` | src/xstream.cpp:250-252 | the idle hook gives up only after it has found the first pool empty twice |
| `DirectSwitch.HookSilent` | src/xstream.cpp:247-256 | the idle hook is no poll: a unit it dispatched, and whatever that chained to, changes nothing of what the last poll returned |
| `DirectSwitch.SwitchesUlts` | src/xstream.cpp:55-77 | a direct switch goes only from a ULT to a ULT, never from or to a unit the scheduling thread must resume |
| `DirectPlain.RefinesPlain` | src/xstream.cpp:37-84 | each step of polling, of the idle hook and of direct switching, with any pushes in between and any staleness of the yielding flag, is a step of the plain loop that restarts at the first pool, counting the parked unit as head of its pool and the yielding ULT as tail of the one it returns to |
| `DirectPlain.SimHook` | src/xstream.cpp:236-256 | the pops of the basic-wait idle hook are the plain loop at its first pool |
| `DirectPlain.FirstNonEmpty` | src/sched.cpp:108-172 | every dispatched unit is the head of the first non-empty pool: each pool before it was seen empty in the scan that found it |
| `DirectPlain.WildDiffers` | src/xstream.cpp:46-54 | for every yield outside the condition of the refinement and every number of pools there is a run, in which the ULT itself was dispatched from the pool it is of whenever that is one of the scheduler's, whose direct switch is not a step of the plain loop: the condition is exact |
| `DirectPlain.UpwardDiffers` | src/thread.cpp:85-90 | such as the yield of a ULT of the second pool with a migration to the first requested |
| `Blocked.ChargeMoves` | src/thread.cpp:77-101 | a step moves a ULT's charge only together with the count of the same pool; the charge is laid to the pool the ULT is of |
| `Blocked.CountsCharges` | src/thread.cpp:77-101 | in every run each pool's `num_blocked` is the number of ULTs charged to it, never negative; with nobody in mid-step, those asleep that blocked in it |
| `Blocked.UnchargedWhereBlocked` | src/thread.cpp:317-327 | through any migrations and re-associations a ULT stays charged to the pool it blocked in and is uncharged from that one |
| `Blocked.WokenInto` | src/thread.cpp:85-90 | in every run a ULT that no further request reaches is pushed by its next wake into the pool it was told to migrate to, or, with no migration pending, into the pool it is of, and the request is used up |
| `Blocked.QueuedToRun` | src/thread.cpp:77-101 | in every run a ULT runs only once it was queued, except the wrapped primary; asleep it is charged to the pool it blocked in, unless it never ran |
| `Join.JoinSound` | src/thread.cpp:146-159 | join reports success only after the flag is published; then nobody is on the list; once the terminator is done nobody sleeps; no wake fails |
| `Join.NoLateJoiner` | src/thread.cpp:60-72 | the flag stays and nobody enlists after it |
| `Join.WokenOnce` | src/xstream.cpp:211-225 | an enlisted joiner is on the list or with the terminator, and leaves its sleep by one wake after the flag is published |
| `Join.JoinEnds` | src/thread.cpp:146-159 | in every run a join is refused exactly for a thread joining itself or its own stream, on a ULT only before that has ended; whoever looks at a published flag succeeds; otherwise threads that cannot block poll and the others enlist |
| `Join.EnlistedFirst` | src/thread.cpp:151-154 | in every run the list is in the order in which the joiners enlisted |
| `Join.WokenInOrder` | src/xstream.cpp:218-224 | publishing takes the whole list and the wakes follow it from the front |
| `PoolLag.SizeMisses` | src/pool.cpp:173-177 | a pool reads as empty exactly when its live units and those on their way out are at most the pushes in flight; with none in flight it is then empty |
| `PoolLag.LiveStep` | src/pool.cpp:56-79 | no step but a push makes a unit live |
| `PoolLag.LagHappens` | src/pool.cpp:69-98 | a run to a pool that reads as empty and holds a unit whose own push is complete |
| `Finish.NothingLeft` | src/xstream.cpp:198-234 | a finished stream was asked to finish and leaves no parked unit; in each pool the last read of its size missed at most as many units as pushes were in flight, whatever is live was missed then or pushed since, and with no push in flight only the latter |
| `Finish.NobodyBlocked` | src/xstream.cpp:198-205 | over the blocked accounting, with ULTs blocking and waking all the while: a pool of the stream's own had its size read and then its blocked ULTs; whoever is blocked in it when the stream is finished has blocked since the second read; whoever was blocked in it at any state up to that read was woken by then, and is live in a pool only if it was pushed after that state |
| `Finish.CanBeLeft` | src/xstream.cpp:198-205 | every state that a run of a pool ends in with a count of zero or less can be what a finishing stream leaves behind: the condition on the read is exact |
| `Finish.UnitLeft` | src/xstream.cpp:198-205 | a run that finishes over a live unit that was pushed and counted before the check began |
| `Finish.WokenLeft` | src/xstream.cpp:198-205 | a run that finishes over a ULT that slept in the stream's own pool, no push in flight, while its size was read: it was woken between the two reads |
| `SchedRefs.AddSlots` | src/sched.cpp:81-82 | each pool's count grows by the slots that name it |
| `SchedRefs.FillSlots` | src/sched.cpp:66-80 | given pools stay, each null entry gets a new, automatic, empty pool of its own |
| `SchedRefs.NewSlots` | src/sched.cpp:67-70 | a scheduler given no pools gets distinct new automatic empty ones: three for the priority scheduler, one for any other |
| `SchedRefs.DropSlots` | src/sched.cpp:85-96 | each pool's count falls by its slots; a pool is freed exactly when those were its last and it is automatic and empty; no freed pool is touched |
| `SchedRefs.Registry.Create` | src/sched.cpp:53-83 | over any schedulers, counts equal live slots; exactly the two error cases fail, and change no pool and no count; the slots hold the pools given and new, automatic, empty ones for the rest: three for the priority scheduler without a list, one for any other |
| `SchedRefs.Registry.Destroy` | src/sched.cpp:85-96 | over any schedulers, counts equal the slots of those left, and exactly the disposable pools without a slot are freed |
| `SchedRefs.SlotsRemove` | src/sched.cpp:85-96 | taking one scheduler out takes exactly its slots out of all slots |

## Left out

- Timed waits (`wait_on_timed`, `ABT_cond_timedwait`, `ABT_eventual_timedwait`, `pop_timedwait` and its waiters counter): wall clock, and a record may outlive its wait.
- `ABT_thread_resume` on a ULT inside a synchronization object.
- Weak memory: every machine is sequentially consistent.
- The bits of the sleeper mask: each 64-bit word is a set of ranks; ranks stay below 256.
- User-defined pools and schedulers, the random work-stealing policy, stacked schedulers beyond their parking step.
- Descriptor lifetime and memory caching: join may return while the terminator is still in its critical section.
- PoolChain.FifoOverRuns: runs are not followed past a step that damages the list, and end at the abort of a double push.
- PoolCount.Conservation: as above, stated while the list is undamaged.
- PoolWake.NoLostWakeup: as above; the primary ULT queued for another PE is not counted as work for this one.
- PoolSeq.MpscPool.Push: the abort on a unit that is already queued is in the step machine only.
- SyncTheorems.Exclusive: only holders unlock, and a condition wait is made with one level held; a nested wait would release one level only.
- A condition variable used with a second mutex, which the code rejects: the model has one mutex per condition variable.
- Barrier.FullRounds: `num` is fixed and at least one; re-initialization with waiters present strands them.
- The future: a third program over mutex and condition variable with nothing new to prove.
- DirectPlain.RefinesPlain: pools are as this PE sees them, popped at the head, and every queued unit is of the pool it is queued in.
- Eventual.CallsEnd: the flag and the address that a test or a wait hands out are not part of the state; only what they read is.
- PoolOrder.ListOrder: stated while the list is undamaged, as are the results about pops, removals and parking.
- Join.JoinEnds: the join of the primary stream, which the code refuses before anything else.
- Finish.NothingLeft: nothing is said about the count of a pool whose list was damaged; `num_scheds` does not change during the check; a run is not followed past the push of a unit that is flagged in another pool, which aborts.
- Finish.NobodyBlocked: a ULT runs again only once it is off the pool it was pushed into, as `ABTI_pool_run_thread` is called with what a pop returned.
- Blocked.CountsCharges: runners of user-defined schedulers, which are never counted.
- Environment parsing, start-up, affinity, error strings, printing, attributes, getters.
