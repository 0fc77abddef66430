# Verification of the lab programs

A Dafny model of the complete programs and algorithms of a Linux course's lab
code, with proofs of what they are for. Each C struct or script that changes
its data in place is a class with the same fields (or arrays), whose methods
are proved equal to a step function or to a specification; what the program
promises is then proved about whole runs of that function.

`dafny verify dfyconfig.toml` checks everything (Dafny 4.11).

| files | models |
|---|---|
| `WaitGraph`, `PathSearch`, `HeldSet`, `LockTable`, `Lockcheck`, `LockRuns`, `LockMisuse`, `LockProgram` | the user-space lockdep of Week 6: lock table, held sets, order graph, breadth-first search, hooks, whole runs of threads under it, which misuse hides a deadlock from it, and the wrappers in place |
| `Mcs` | the MCS queue lock and the benchmark loop it protects |
| `Rcu` | QSBR RCU with registration, offline writers and many writers |
| `Cfgread` | one RCU writer with publish, grace period and free, against field-by-field readers |
| `Cvbug` | the bounded queue with condition variables, in its four modes |
| `Svc` | the request service with a swap-remove queue and inherited priority |
| `Sattolo` | the random cycle and the pointer chase |
| `Flame` | the frame merging of the flame graph script |
| `Usched` | block spans, job lengths and reference totals |
| `IpcServer` | newline framing, independent of how `recv` and `send` cut the stream |
| `Loadgen` | sample accounting of the load generator's event loop |
| `LogStats` | the two log aggregations and their summary |
| `Irq` | nested pairing of interrupt entries and exits |
| `Seqs`, `Arith` | counting, sums, quotients and remainders |

How the protocols are modelled: a state holds shared memory, the program
counter and local variables of every thread, and records of the past. A step is
one atomic access, one plain load or store, one statement under a lock, or one
whole critical section (each file says which), in any interleaving
(sequential consistency). `Step` says what one step does, `After` or `Run` what
a whole schedule leads to, `Inv` what every step keeps. Sizes such as the
numbers of threads, slots, locks, fields and the capacities are parameters. What
the environment decides (the schedule, who is woken, what `malloc`, `recv`,
`send`, `epoll_ctl` or `pthread_setschedparam` return) is an input.

## Main results

- Lock order: until a W1 is counted the order graph has no closed walk of waits, whatever
  the program destroys, unlocks or overflows (`LockRuns.NoCircleBeforeFirstW1`), although
  the search never walks through its target; the search is sound, complete and shortest
  (`PathSearch.FindPath`).
- Deadlocks: in a run in which no unlock takes away another thread's hold, no lock in use
  is destroyed, and tables have room when it is needed, every circular wait, a thread
  waiting for itself included, has a W1 (`LockRuns.CircularWaitIsWarned`,
  `LockRuns.DeadlockIsWarned`). Who blocks whom is decided by the real locks, writers that
  sleep in front of readers of a writer-preferring rwlock included
  (`LockRuns.BlockedExactly`); what lockcheck takes for waiting is exactly what such locks
  can do (`LockMisuse.WaitsIsReal`), and it warns of nothing but circles and locks held
  already (`LockRuns.W1Exactly`). A program can see to the room by the number of its locks
  and holds (`LockMisuse.TidyProgramIsWarned`). Without these conditions it is false, and
  exactly so: `LockMisuse.WarnsExactlyWhenHarmless` decides for every number of threads,
  slots and entries and every choice of misuse whether some run has a circular wait
  without a W1. The runs that show it end in a thread that waits for itself, which is
  what `before_wait` means to report (a C library may answer `EDEADLK` there).
- MCS lock: mutual exclusion, order of arrival, progress, an exact counter, and one round
  through the lock for every loop test that succeeds.
- RCU: in every schedule, when `synchronize_rcu` has returned nobody holds a pointer loaded
  before the call, and every pointer loaded before it has been dropped
  (`Rcu.GracePeriod`, `Rcu.ReadersHaveDropped`); registration fails only with more threads
  than slots (`Rcu.EnoughSlots`, `Rcu.OneThreadTooMany`); writers never wait for each
  other; a blocked writer waits for an online thread that has not reported, and a report
  releases it.
- cfgread: with the grace period no reader ever checks a freed or half-written
  configuration and memory is not leaked except by a stop; for all sizes, some run has a
  bad read if and only if there is no grace period, and there are readers that read,
  updates, and a free block (`Cfgread.NoBadReadExactly`). Updates alternate between the two
  configurations (`Cfgread.UpdatesAlternate`).
- cvbug: in the correct modes the k-th take is item k, nothing is lost, no state is
  stuck and every run is short; `ifwait` takes from an empty queue for every size, and
  in `nounlock` a bad item hangs the program for ever. Which setups work is decided
  exactly (`Cvbug.WorksExactlyWhenCorrect`): `nounlock` does as long as there are fewer
  than seven items, so that none is bad. In every mode the records are exact and what is
  taken is logged (`Cvbug.RecordsAreExact`, `Cvbug.EveryItemIsLogged`).
- svc: exact inherited priority with inheritance and an unchanged one without it,
  exactly-once service, both queue orders, and what the replies say. Service
  of every accepted request fails at shutdown, and exactly for requests accepted after
  the worker has left (`Svc.ServedAllUnlessLate`, `Svc.LateRequestIsLost`).
- Flame graph: the merged frames represent the samples if and only if no frame is
  closed, reopened and closed again within samples of count zero
  (`Flame.ExactUnlessReopened`); positive counts are always exact, and
  `Flame.ZeroCountLosesFrame` is a three-line input that loses a frame.
- IRQ pairing: everything pairs if and only if the events of every CPU are balanced.
- IPC server: whatever `recv` and `send` do, the lines served are those of the bytes
  received and the bytes sent are the first of those queued, in the protocol's own bytes
  (`IpcServer.Protocol`). Replies can get out of order when a send blocks
  (`IpcServer.OvertakingRun`), and do so exactly when a line is served while statistics
  are owed (`IpcServer.OrderKeptExactly`).
- Sattolo's loop can make exactly the single cycles, each in exactly one way
  (`Sattolo.EachCycleOnce`), and makes the one that its generator chooses; job spans reach
  the end in the computed number of blocks; log aggregation, its signature and sample
  accounting are exact, and a load generator's client goes on until its first failure.

## Model

| member | source | states |
|---|---|---|
| `WaitGraph.InsertKeepsAcyclic` | Week6/Assignment6/concurrency/tools/lockcheck.c:496-566 | an edge recorded after an unsuccessful search closes no circle of waits, although the search never walks through its target |
| `WaitGraph.ChainClosesBefore` | Week6/Assignment6/concurrency/tools/lockcheck.c:478-516 | a chain back to the holder either is found at its first arrival, or arrives there as a reader and contains an older circle |
| `WaitGraph.FoundClosesCircle` | Week6/Assignment6/concurrency/tools/lockcheck.c:549-565 | no false alarm: when the search succeeds, the edge that is then recorded closes a circle of waits |
| `WaitGraph.OneUse` | Week6/Assignment6/concurrency/tools/lockcheck.c:485-495 | a circle through the new edge can be cut to one use of it |
| `WaitGraph.SharesMatterOnlyAtEdges` | Week6/Assignment6/concurrency/tools/lockcheck.c:243-282 | reading a lock's kind again changes no circle as long as no recorded edge ends at the slot |
| `WaitGraph.FewerEdges` | Week6/Assignment6/concurrency/tools/lockcheck.c:284-303 | forgetting edges closes no circle |
| `PathSearch.FindPath` | Week6/Assignment6/concurrency/tools/lockcheck.c:496-544 | succeeds exactly when a walk of waits reaches the target through other locks; path and combos are recorded edges, no walk is shorter, and they fit 2 * MAX_LOCKS |
| `PathSearch.Search` | Week6/Assignment6/concurrency/tools/lockcheck.c:505-531 | the queue loop ends at a goal state or with every reachable state visited and none a goal, within the queue's bounds |
| `PathSearch.Visit` | Week6/Assignment6/concurrency/tools/lockcheck.c:510-515 | a state at the target ends the search or is not walked through; any other is expanded |
| `PathSearch.ExpandState` | Week6/Assignment6/concurrency/tools/lockcheck.c:517-529 | all unvisited states that a wait leads to are queued, with parent and combo |
| `PathSearch.TryEdge` | Week6/Assignment6/concurrency/tools/lockcheck.c:519-528 | one combo of an edge is followed exactly when the waiting thread waits for it and the state is new |
| `PathSearch.Enqueue` | Week6/Assignment6/concurrency/tools/lockcheck.c:523-526 | marking a new state keeps visited, parent, via and queue in step |
| `PathSearch.WalkBack` | Week6/Assignment6/concurrency/tools/lockcheck.c:534-542 | following the parents from the goal and reversing spells the walk found |
| `PathSearch.ShortestAnswer` | Week6/Assignment6/concurrency/tools/lockcheck.c:485-495 | the first goal state taken from the queue ends a shortest walk |
| `PathSearch.NoAnswer` | Week6/Assignment6/concurrency/tools/lockcheck.c:531-532 | an empty queue without a goal means that no walk exists |
| `PathSearch.QueueFits` | Week6/Assignment6/concurrency/tools/lockcheck.c:502-504 | no more than two states a lock are ever queued |
| `PathSearch.WalkLocks` | Week6/Assignment6/concurrency/tools/lockcheck.c:513-515 | a walk found visits the target only at its end |
| `HeldSet.HeldLocks.Find` | Week6/Assignment6/concurrency/tools/lockcheck.c:347-353 | the entry of a lock, or none exactly when it is not held |
| `HeldSet.HeldLocks.Add` | Week6/Assignment6/concurrency/tools/lockcheck.c:355-362 | one hold more, or a new entry, or nothing when the array is full |
| `HeldSet.HoldingSize` | Week6/Assignment6/concurrency/tools/lockcheck.c:355-362 | the array is full exactly when that many different locks are held |
| `HeldSet.HeldLocks.Drop` | Week6/Assignment6/concurrency/tools/lockcheck.c:365-377 | one hold less in the mode it is held in, or the answer that there was none; the entry goes with the last hold |
| `HeldSet.HeldLocks.Release` | Week6/Assignment6/concurrency/tools/lockcheck.c:604-619 | releases exactly a lock that is held, and says whether it was the last hold |
| `HeldSet.HeldLocks.RemoveAt` | Week6/Assignment6/concurrency/tools/lockcheck.c:373-375 | the other entries keep their order |
| `HeldSet.CountedUp` | Week6/Assignment6/concurrency/tools/lockcheck.c:358-359 | counting up an entry is one hold more of the same lock in the mode it had |
| `HeldSet.CountedDown` | Week6/Assignment6/concurrency/tools/lockcheck.c:371-372 | counting down an entry is one hold less |
| `HeldSet.RemovedEntry` | Week6/Assignment6/concurrency/tools/lockcheck.c:373-375 | removing an entry forgets that lock and no other |
| `HeldSet.AddsAllEdges` | Week6/Assignment6/concurrency/tools/lockcheck.c:549-566 | the loop records an edge from every other lock held, reported or not |
| `HeldSet.ReportsExactlyCircles` | Week6/Assignment6/concurrency/tools/lockcheck.c:549-566 | a wait is reported exactly when its edges close the first circle of the graph |
| `LockTable.SlotIsRemainder` | Week6/Assignment6/concurrency/tools/lockcheck.c:248-250 | the probe position is (h + n) mod MAX_LOCKS |
| `LockTable.ProbesReachAll` | Week6/Assignment6/concurrency/tools/lockcheck.c:248-250 | the probes of one address visit every slot |
| `LockTable.NotThere` | Week6/Assignment6/concurrency/tools/lockcheck.c:243-263 | the probe loop may stop at a free slot: the address is not further on, tombstones notwithstanding |
| `LockTable.Inserted` | Week6/Assignment6/concurrency/tools/lockcheck.c:264-267 | filling the first dead slot of the path adds one address to the map and breaks no other path |
| `LockTable.Removed` | Week6/Assignment6/concurrency/tools/lockcheck.c:284-300 | a tombstone removes one address from the map and breaks no probe chain |
| `LockTable.Updated` | Week6/Assignment6/concurrency/tools/lockcheck.c:268-277 | new flags or owners in a slot change neither map nor paths |
| `Lockcheck.Lockcheck.constructor` | Week6/Assignment6/concurrency/tools/lockcheck.c:215-216 | all slots free, no edges, no warnings |
| `Lockcheck.Lockcheck.Probe` | Week6/Assignment6/concurrency/tools/lockcheck.c:248-263 | finds the address exactly when it is in the map; otherwise the slot to use, or none exactly when every slot is live |
| `Lockcheck.Lockcheck.LockIndex` | Week6/Assignment6/concurrency/tools/lockcheck.c:243-282 | the slot of the lock, inserted if new; fails only for a new lock when every slot is live |
| `Lockcheck.Lockcheck.FindLive` | Week6/Assignment6/concurrency/tools/lockcheck.c:286-295 | the loop of lock_forget finds the address exactly when it is in the map |
| `Lockcheck.Lockcheck.LockForget` | Week6/Assignment6/concurrency/tools/lockcheck.c:284-303 | the address leaves the map and every edge that touches its slot is gone |
| `Lockcheck.Lockcheck.ClearEdges` | Week6/Assignment6/concurrency/tools/lockcheck.c:296-299 | row and column of the slot are cleared and nothing else |
| `Lockcheck.Lockcheck.CheckAndAddEdges` | Week6/Assignment6/concurrency/tools/lockcheck.c:549-566 | the edge set and the W1 count after the loop over the held locks |
| `Lockcheck.Lockcheck.AddEdge` | Week6/Assignment6/concurrency/tools/lockcheck.c:553-564 | one turn: an edge already recorded is skipped, a new one is recorded, and reported exactly when a walk leads back |
| `Lockcheck.Lockcheck.BeforeWait` | Week6/Assignment6/concurrency/tools/lockcheck.c:570-585 | a new lock adds its orders and reports the first circle; a lock held already is reported unless it may be taken again |
| `Lockcheck.EdgesRecorded` | Week6/Assignment6/concurrency/tools/lockcheck.c:549-585 | the loop over the held locks leaves behind what the wait has to record |
| `Lockcheck.Lockcheck.BeforeLock` | Week6/Assignment6/concurrency/tools/lockcheck.c:628-639 | the first half of a lock call: index, then the wait checks |
| `Lockcheck.Lockcheck.MarkAcquired` | Week6/Assignment6/concurrency/tools/lockcheck.c:588-600 | owner or reader count and held set after a lock was taken |
| `Lockcheck.Lockcheck.MarkReleased` | Week6/Assignment6/concurrency/tools/lockcheck.c:604-622 | a hold is given up exactly when there was one; owner and readers follow it |
| `Lockcheck.Lockcheck.NoteRelease` | Week6/Assignment6/concurrency/tools/lockcheck.c:615-619 | readers count down, and the owner is cleared with the last hold |
| `Lockcheck.Lockcheck.Release` | Week6/Assignment6/concurrency/tools/lockcheck.c:668-679 | the records change before the real unlock, and a W4 is counted exactly when the thread did not hold the lock |
| `LockRuns.NoCircleBeforeFirstW1` | Week6/Assignment6/concurrency/tools/lockcheck.c:481-566 | in every run, whatever is destroyed, forgotten or not recorded, while no W1 has been counted the recorded graph has no closed walk of waits; kept by every insertion and every destroy |
| `LockRuns.LookedKeepsGraph` | Week6/Assignment6/concurrency/tools/lockcheck.c:243-282 | finding or filling a lock's slot keeps it |
| `LockRuns.ForgetsKeepsGraph` | Week6/Assignment6/concurrency/tools/lockcheck.c:284-303 | forgetting any lock keeps it, held or not |
| `LockRuns.DestroyKeepsGraph` | Week6/Assignment6/concurrency/tools/lockcheck.c:684-690 | a destroy call keeps it, whether or not the real destroy succeeds |
| `LockRuns.HookKeepsGraph` | Week6/Assignment6/concurrency/tools/lockcheck.c:628-639 | the hook before a lock call keeps it |
| `LockRuns.MarkKeepsGraph` | Week6/Assignment6/concurrency/tools/lockcheck.c:588-600 | recording a lock taken keeps it, also one that was destroyed meanwhile |
| `LockRuns.CircularWaitIsWarned` | Week6/Assignment6/concurrency/tools/lockcheck.c:549-770 | in every run in which no unlock takes away another thread's hold, no lock in use is destroyed and no table is full when it is needed, a circular wait for real locks has a W1; a thread is blocked by one whose hold keeps it out, or keeps out a writer that sleeps in front of it |
| `LockRuns.DeadlockIsWarned` | Week6/Assignment6/concurrency/tools/lockcheck.c:549-770 | the same for any set of threads that keep each other blocked |
| `LockRuns.BlockedExactly` | Week6/Assignment6/concurrency/tools/lockcheck.c:31-39 | the real lock, with its mutex type and rwlock kind, does not let a thread in exactly when some hold blocks it or a sleeping writer may go first |
| `LockRuns.WriterKeptOut` | Week6/Assignment6/concurrency/tools/lockcheck.c:31-39 | a writer that cannot take its lock is kept out by a hold |
| `LockRuns.BlocksWaits` | Week6/Assignment6/concurrency/tools/lockcheck.c:478-484 | whoever is blocked by a hold waits for it in the sense of `waits` |
| `LockMisuse.WaitsIsReal` | Week6/Assignment6/concurrency/tools/lockcheck.c:478-484 | `waits` holds for a kind of lock and two modes if and only if a run without misuse reaches a state in which a holder in the one mode blocks a thread that wants the other |
| `LockRuns.W1Exactly` | Week6/Assignment6/concurrency/tools/lockcheck.c:549-585 | until a W1 is counted, taking a lock held already is reported unless it is a recursive mutex or a reading of an rwlock that shares reads; taking another one is reported exactly when its orders close a circle |
| `LockRuns.HookWarns` | Week6/Assignment6/concurrency/tools/lockcheck.c:549-585 | that of one call of the hook |
| `LockRuns.HoldsAreCounted` | Week6/Assignment6/concurrency/tools/lockcheck.c:588-682 | a lock that a thread has taken n times is held until it has been released n times |
| `LockRuns.W4ExactlyForStrangers` | Week6/Assignment6/concurrency/tools/lockcheck.c:604-622 | in such a run, an unlock counts a W4 exactly when its thread does not hold the lock |
| `LockRuns.OnlyWaitersSleep` | Week6/Assignment6/concurrency/tools/lockcheck.c:641-643 | in every run only a thread inside a real lock call sleeps |
| `LockRuns.UntrackedIsSilent` | Week6/Assignment6/concurrency/tools/lockcheck.c:264-282 | the hooks around a lock that finds no slot in a full table record and count nothing, whatever the program does |
| `LockRuns.CircleIsClosedWalk` | Week6/Assignment6/concurrency/tools/lockcheck.c:481-585 | threads that wait for each other in a circle, as lockcheck takes it, spell a closed walk of recorded edges |
| `LockRuns.WaitIsEdge` | Week6/Assignment6/concurrency/tools/lockcheck.c:570-600 | a blocked thread's wait is a recorded edge |
| `LockRuns.WaiterDoesNotHold` | Week6/Assignment6/concurrency/tools/lockcheck.c:570-585 | a blocked thread that was not reported does not hold the lock it waits for |
| `LockRuns.RunInv` | Week6/Assignment6/concurrency/tools/lockcheck.c:588-770 | without misuse and until a W1 is counted, records agree with real ownership in every state of a run |
| `LockRuns.LockHookInv` | Week6/Assignment6/concurrency/tools/lockcheck.c:628-639 | the hook keeps that |
| `LockRuns.TakeInv` | Week6/Assignment6/concurrency/tools/lockcheck.c:641-665 | taking a lock, by lock or trylock, keeps that |
| `LockRuns.MarkInv` | Week6/Assignment6/concurrency/tools/lockcheck.c:588-600 | recording a lock taken keeps that |
| `LockRuns.DropInv` | Week6/Assignment6/concurrency/tools/lockcheck.c:604-622 | recording a release keeps that |
| `LockRuns.UnlockInv` | Week6/Assignment6/concurrency/tools/lockcheck.c:668-682 | the real unlock keeps that |
| `LockRuns.DestroyInv` | Week6/Assignment6/concurrency/tools/lockcheck.c:684-690 | destroying an unused lock keeps that |
| `LockRuns.FindCircle` | Week6/Assignment6/concurrency/tools/lockcheck.c:549-770 | threads that keep each other blocked contain a circle |
| `LockMisuse.WarnsExactlyWhenHarmless` | Week6/Assignment6/concurrency/tools/lockcheck.c:243-770 | for every number of threads, slots and held-set entries and every choice of misuse: all circular waits of all runs have a W1 if and only if the sizes make the misuse harmless |
| `LockMisuse.TidyProgramIsWarned` | Week6/Assignment6/concurrency/tools/lockcheck.c:243-770 | a program whose locks fit the table and whose holds fit the held sets, and that unlocks and destroys only what it may, never deadlocks without a W1 |
| `LockMisuse.FullTableHides` | Week6/Assignment6/concurrency/tools/lockcheck.c:264-280 | with one lock more than slots, for all sizes, a thread can wait for itself without a W1 |
| `LockMisuse.FullHeldHides` | Week6/Assignment6/concurrency/tools/lockcheck.c:355-362 | so it can with one lock held more than entries |
| `LockMisuse.StrangerHides` | Week6/Assignment6/concurrency/tools/lockcheck.c:604-622 | so it can after another thread has unlocked its rwlock |
| `LockMisuse.BusyDestroyHides` | Week6/Assignment6/concurrency/tools/lockcheck.c:284-303 | so it can after an rwlock was destroyed while held and made again |
| `LockMisuse.HarmlessIsWarned` | Week6/Assignment6/concurrency/tools/lockcheck.c:243-770 | with sizes that make the misuse harmless no circular wait is missed |
| `LockMisuse.EnoughEntries` | Week6/Assignment6/concurrency/tools/lockcheck.c:355-362 | a held set with an entry for every slot is never full |
| `LockMisuse.TidyStep` | Week6/Assignment6/concurrency/tools/lockcheck.c:243-362 | locks that fit the table and holds that fit the held sets are all recorded |
| `LockMisuse.SlotsCovered` | Week6/Assignment6/concurrency/tools/lockcheck.c:243-267 | a table without a free slot maps as many addresses as it has slots |
| `LockMisuse.SeenSize` | Week6/Assignment6/concurrency/tools/lockcheck.c:355-377 | a thread's records have as many entries as it holds locks |
| `LockProgram.Program.constructor` | Week6/Assignment6/concurrency/tools/lockcheck.c:215-345 | nothing is held and no lock exists |
| `LockProgram.Program.LockHook` | Week6/Assignment6/concurrency/tools/lockcheck.c:628-639 | the first half of a lock call, on the tables and the held set in place, is a step of the run relation |
| `LockProgram.Program.Sleep` | Week6/Assignment6/concurrency/tools/lockcheck.c:641-643 | the real call finds the lock taken, which queues a writer before later readers of a writer-preferring rwlock |
| `LockProgram.Program.Mark` | Week6/Assignment6/concurrency/tools/lockcheck.c:644-650 | so is the second half |
| `LockProgram.Program.MarkTried` | Week6/Assignment6/concurrency/tools/lockcheck.c:653-665 | so is the hook of a trylock |
| `LockProgram.Program.UnlockHook` | Week6/Assignment6/concurrency/tools/lockcheck.c:668-679 | so is the first half of an unlock |
| `LockProgram.Program.Destroy` | Week6/Assignment6/concurrency/tools/lockcheck.c:684-690 | so is a destroy call |
| `Mcs.MutualExclusion` | Week6/Lab6/src/lockbench.c:68-92 | two threads are never both between the lock and the end of the unlock |
| `Mcs.FirstComeFirstServed` | Week6/Lab6/src/lockbench.c:68-78 | entries are the arrivals at the tail, in order, up to those still in line |
| `Mcs.SomeoneProgresses` | Week6/Lab6/src/lockbench.c:76-91 | while somebody is in line, some thread in line has a step that changes the state |
| `Mcs.SuccessorMoves` | Week6/Lab6/src/lockbench.c:75-89 | an unlocker that spins on its next pointer waits for a thread that is about to store it |
| `Mcs.CounterIsExact` | Week6/Lab6/src/lockbench.c:168-178 | when all threads have ended, the unprotected counter equals the total of done, and handoffs counts the changes of owner |
| `Mcs.DoneIsExact` | Week6/Lab6/src/lockbench.c:168-178 | a thread that has ended has gone through the lock once for every loop test that succeeded |
| `Mcs.TurnsAreCounted` | Week6/Lab6/src/lockbench.c:168-178 | at any time it has gone through the lock that often, up to the turn it is in |
| `Mcs.CasAlone` | Week6/Lab6/src/lockbench.c:84-87 | the compare-and-exchange of the unlock succeeds only for a thread alone in line |
| `Mcs.OwnerIsHead` | Week6/Lab6/src/lockbench.c:68-92 | whoever is past the lock is the first of the line |
| `Mcs.SwapLine` | Week6/Lab6/src/lockbench.c:72-74 | exchanging the tail appends to the line |
| `Mcs.LinkLine` | Week6/Lab6/src/lockbench.c:75 | storing the predecessor's next keeps the line |
| `Mcs.PassLine` | Week6/Lab6/src/lockbench.c:91 | clearing the successor's flag makes it the first of the line and no other |
| `Mcs.CasLine` | Week6/Lab6/src/lockbench.c:82-87 | resetting the tail empties the line |
| `Mcs.SpinLine` | Week6/Lab6/src/lockbench.c:76-77 | a waiter whose flag is cleared is the first of the line |
| `Mcs.UnlockLine` | Week6/Lab6/src/lockbench.c:82-90 | the unlock learns its successor or that there is none to see yet |
| `Mcs.OutsiderStays` | Week6/Lab6/src/lockbench.c:70-71 | resetting its own node disturbs nobody, though nodes are used again |
| `Mcs.StepFifo` | Week6/Lab6/src/lockbench.c:68-92 | every step keeps the order of entry |
| `Mcs.StepCounter` | Week6/Lab6/src/lockbench.c:170 | every step keeps the counter equal to the increments made |
| `Mcs.StepHandoffs` | Week6/Lab6/src/lockbench.c:171-174 | every step keeps handoffs and last owner right |
| `Mcs.StepInv` | Week6/Lab6/src/lockbench.c:68-92 | every access of any thread keeps all of this |
| `Mcs.RunInv` | Week6/Lab6/src/lockbench.c:68-178 | all of this in every state of a run |
| `Mcs.Bench.LockAccess` | Week6/Lab6/src/lockbench.c:68-78 | one access of mcs_lock in place |
| `Mcs.Bench.Exchange` | Week6/Lab6/src/lockbench.c:72-74 | the exchange of the tail |
| `Mcs.Bench.SectionAccess` | Week6/Lab6/src/lockbench.c:170-174 | one access of the critical section in place |
| `Mcs.Bench.UnlockAccess` | Week6/Lab6/src/lockbench.c:80-92 | one access of mcs_unlock in place |
| `Mcs.Bench.Access` | Week6/Lab6/src/lockbench.c:168-178 | one access of the worker loop in place |
| `Mcs.Bench.Run` | Week6/Lab6/src/lockbench.c:149-188 | threads under any schedule reach the state of the step function |
| `Mcs.Bench.Report` | Week6/Lab6/src/lockbench.c:278-293 | the total of done, and the error message exactly when the counter differs from it, which never happens after all have ended |
| `Rcu.GracePeriod` | Week6/Assignment6/concurrency/src/rcu.c:79-99 | for every schedule: when a thread that called synchronize_rcu is outside the library again, nobody holds a pointer loaded before the call advanced gp_seq |
| `Rcu.ReadersHaveDropped` | Week6/Assignment6/concurrency/src/rcu.c:79-99 | the same from the readers' side: a pointer loaded before the call was dropped before it returned |
| `Rcu.HeldExactly` | Week6/Assignment6/concurrency/src/rcu.c:12-19 | a thread holds exactly the pointers it has loaded and not dropped since |
| `Rcu.EnoughSlots` | Week6/Assignment6/concurrency/src/rcu.c:50-62 | registration never fails as long as there are no more threads than slots, however they come and go while it looks: the message of the abort is true |
| `Rcu.OneThreadTooMany` | Week6/Assignment6/concurrency/src/rcu.c:60-61 | with one thread more some run aborts, for any number of slots up to which such a run fits a schedule of 2^63 turns |
| `Rcu.StepRoomy` | Week6/Assignment6/concurrency/src/rcu.c:52-59 | whoever has got to slot q has left a slot below to each of q others; kept by every step |
| `Rcu.NoneOlder` | Week6/Assignment6/concurrency/src/rcu.c:79-97 | at any time nobody holds a pointer older than the target of the last loop that ended |
| `Rcu.CallReturns` | Week6/Assignment6/concurrency/src/rcu.c:30-85 | what a call has done when it returns: registered threads are online and have seen the counter of the call, unregistered ones have no slot, a quiescent state is reported with the counter of the call |
| `Rcu.WaitIsKept` | Week6/Assignment6/concurrency/src/rcu.c:79-99 | from the call to the return, a writer is on its way to the target of its call or has ended its loop there |
| `Rcu.LoopEndsAtTarget` | Week6/Assignment6/concurrency/src/rcu.c:87-99 | the step that ends the polling loop has reached that point for every thread |
| `Rcu.PassingIsSafe` | Week6/Assignment6/concurrency/src/rcu.c:87-96 | a writer steps past a slot only if its owner holds nothing older than the target |
| `Rcu.WriterPassesWriter` | Week6/Assignment6/concurrency/src/rcu.c:83-96 | a writer that polls is offline, so another writer steps past its slot at once |
| `Rcu.WaitsForReader` | Week6/Assignment6/concurrency/src/rcu.c:87-96 | a writer that stays at a slot waits for an online thread that has not seen the target |
| `Rcu.QuiescenceReleases` | Week6/Assignment6/concurrency/src/rcu.c:30-34 | a quiescent state of that thread lets the writer go on |
| `Rcu.GoOnlineRace` | Week6/Assignment6/concurrency/src/rcu.c:36-48 | after the exchange a polling writer finds the slot online, and the second load returns at least its target |
| `Rcu.PassedIsAtLeast` | Week6/Assignment6/concurrency/src/rcu.c:92 | below 2^63 the signed comparison of the difference is the comparison of the counters |
| `Rcu.OwnThreadBegins` | Week6/Assignment6/concurrency/src/rcu.c:64-85 | the first access of each call keeps what a thread knows of its slot |
| `Rcu.OwnThreadGoesOn` | Week6/Assignment6/concurrency/src/rcu.c:41-99 | so do the later ones |
| `Rcu.OthersSlot` | Week6/Assignment6/concurrency/src/rcu.c:52-70 | no step writes another thread's slot |
| `Rcu.StepInv` | Week6/Assignment6/concurrency/src/rcu.c:30-100 | every access keeps the invariant |
| `Rcu.Library.BeginAccess` | Week6/Assignment6/concurrency/src/rcu.c:64-85 | first access of each call, and the client's own steps, in place |
| `Rcu.Library.TakeAccess` | Week6/Assignment6/concurrency/src/rcu.c:52-61 | registration takes the first free slot, in place |
| `Rcu.Library.LookAccess` | Week6/Assignment6/concurrency/src/rcu.c:87-99 | the polling loop looks at a slot, in place |
| `Rcu.Library.SeenAccess` | Week6/Assignment6/concurrency/src/rcu.c:30-48 | stores to seen, in place |
| `Rcu.Library.Access` | Week6/Assignment6/concurrency/src/rcu.c:30-100 | any access of any thread in place |
| `Rcu.Library.Run` | Week6/Assignment6/concurrency/src/rcu.c:30-100 | threads under any schedule reach the state of the step function |
| `Cfgread.ReadersSeeCompleteConfigs` | Week6/Lab6/src/cfgread.c:72-80 | with a grace period a reader inside check works on a live, complete configuration, and no read is ever bad |
| `Cfgread.OnlyShutdownKeepsTheOldCopy` | Week6/Lab6/src/cfgread.c:127-137 | between updates exactly the published block is in use, unless a stop inside the grace period kept the old one, still complete |
| `Cfgread.UpdatesAlternate` | Week6/Lab6/src/cfgread.c:154-169 | in both modes, between two updates the published configuration holds 3 in every field after an even number of updates and 5 after an odd one |
| `Cfgread.RunValues` | Week6/Lab6/src/cfgread.c:154-169 | the same while an update is under way, for the copy that is filled and the one published |
| `Cfgread.ReadsAreCounted` | Week6/Lab6/src/cfgread.c:72-120 | bad counts exactly the checks that loaded something else than one of the two configurations, and a reader makes exactly BATCH checks between two quiescent states |
| `Cfgread.BeginsTogether` | Week6/Lab6/src/cfgread.c:100-104 | no reader reads and no writer updates before main lets them go, and then every reader has reported |
| `Cfgread.MainLetsGo` | Week6/Lab6/src/cfgread.c:230-235 | main lets go when all are ready, and stops them after that |
| `Cfgread.RunMarks` | Week6/Lab6/src/cfgread.c:127-167 | the counter advances once for every grace period, and an old copy is wiped in every field before it is freed |
| `Cfgread.StopStops` | Week6/Lab6/src/cfgread.c:86-176 | after the stop no reader and no writer begins anything |
| `Cfgread.RunEnding` | Week6/Lab6/src/cfgread.c:145-176 | the writer begins no more than the permitted updates, and ends early only because of a stop; only the mode with a grace period polls |
| `Cfgread.NoBadReadExactly` | Week6/Lab6/src/cfgread.c:82-173 | for all sizes, no run has a bad read if and only if there is a grace period, or nobody reads, or nothing can be updated |
| `Cfgread.NoGracePeriodReadsGarbage` | Week6/Lab6/src/cfgread.c:164-167 | without a grace period, for all sizes with readers, reads, updates and a free block, a run has a bad read |
| `Cfgread.ReadersReport` | Week6/Lab6/src/cfgread.c:88-104 | every reader reports before the start |
| `Cfgread.WriterFills` | Week6/Lab6/src/cfgread.c:157-160 | the writer fills the copy field by field |
| `Cfgread.ReaderNotices` | Week6/Lab6/src/cfgread.c:72-78 | a reader that has seen one wrong field counts a bad read |
| `Cfgread.HarmlessRun` | Week6/Lab6/src/cfgread.c:82-173 | without reads no reader looks at a block; without updates or a free block the first one stays |
| `Cfgread.WriterCopies` | Week6/Lab6/src/cfgread.c:157-162 | filling and publishing the copy disturbs no reader |
| `Cfgread.WriterSynchronizes` | Week6/Lab6/src/cfgread.c:127-137 | polling passes a reader only when it cannot be on the old copy |
| `Cfgread.WriterFrees` | Week6/Lab6/src/cfgread.c:166-167 | the old copy is wiped and freed when no reader can be on it |
| `Cfgread.ReaderKeeps` | Week6/Lab6/src/cfgread.c:88-123 | a reader's step keeps the invariant |
| `Cfgread.StepInv` | Week6/Lab6/src/cfgread.c:82-175 | every step of readers, writer and main keeps it |
| `Cfgread.StepMemory` | Week6/Lab6/src/cfgread.c:157-167 | a block is live exactly when it is published or the writer is working on it |
| `Cfgread.StepShape` | Week6/Lab6/src/cfgread.c:82-175 | in both modes every state has a next step |
| `Cfgread.Program.CheckAccess` | Week6/Lab6/src/cfgread.c:72-78 | one field of check in place |
| `Cfgread.Program.ReaderAccess` | Week6/Lab6/src/cfgread.c:82-123 | one step of a reader in place |
| `Cfgread.Program.CopyAccess` | Week6/Lab6/src/cfgread.c:158-167 | the writer's steps on the two copies in place |
| `Cfgread.Program.ControlAccess` | Week6/Lab6/src/cfgread.c:127-165 | the writer's other steps in place |
| `Cfgread.Program.Access` | Week6/Lab6/src/cfgread.c:82-238 | any step in place |
| `Cfgread.Program.Run` | Week6/Lab6/src/cfgread.c:226-248 | main's total of bad reads after any schedule; zero with a grace period |
| `Cvbug.TakesAreTheItemsInOrder` | Week6/Lab6/src/cvbug.c:49-62 | the queue never over- or underflows, the k-th take is item k, no take is from an empty queue, and consumers leave only when all is taken |
| `Cvbug.NothingLostOrDuplicate` | Week6/Lab6/src/cvbug.c:204-211 | when all consumers have left, every item was seen once |
| `Cvbug.RecordsAreExact` | Week6/Lab6/src/cvbug.c:138-141 | in every mode empty_takes counts exactly the takes from an empty queue and seen how often each item was taken, up to a take about to be recorded |
| `Cvbug.EveryItemIsLogged` | Week6/Lab6/src/cvbug.c:138-155 | in every mode a consumer logs what it takes, once and in that order, except a bad item of mode nounlock, and holds the lock meanwhile exactly in mode iolock |
| `Cvbug.RunLogsWhere` | Week6/Lab6/src/cvbug.c:143-155 | the log is written where the mode says, and only a thread that has gone away keeps the lock outside |
| `Cvbug.HangsForEver` | Week6/Lab6/src/cvbug.c:149-152 | once a consumer has gone away with the lock, no schedule lets anything be put or taken |
| `Cvbug.NeverStuck` | Week6/Lab6/src/cvbug.c:91-156 | until everybody has ended, some thread can go on without a spurious wakeup |
| `Cvbug.GoesOnExactly` | Week6/Lab6/src/cvbug.c:91-156 | somebody can move exactly when some turn, no spurious wakeup, changes the state |
| `Cvbug.AnyWaiterMayWake` | Week6/Lab6/src/cvbug.c:105 | a signal may wake any consumer that waits |
| `Cvbug.RunsAreShort` | Week6/Lab6/src/cvbug.c:91-156 | a run changes the state a bounded number of times, and four more for each spurious wakeup |
| `Cvbug.IfWaitTakesFromEmpty` | Week6/Lab6/src/cvbug.c:126-128 | in mode ifwait, for every capacity and number of items, a run takes from an empty queue without any spurious wakeup |
| `Cvbug.BadItemHangs` | Week6/Lab6/src/cvbug.c:149-152 | in mode nounlock, after a bad item was taken nothing is ever put or taken again |
| `Cvbug.WorksExactlyWhenCorrect` | Week6/Lab6/src/cvbug.c:91-156 | with two or more consumers, no run takes from an empty queue or hangs if and only if the mode is fixed or iolock, or nounlock without a bad item |
| `Cvbug.BadItemIsReached` | Week6/Lab6/src/cvbug.c:149-152 | in mode nounlock with seven items or more, for every capacity, a run hangs at the bad item |
| `Cvbug.RunExclusive` | Week6/Lab6/src/cvbug.c:91-156 | mutual exclusion in every mode |
| `Cvbug.PutKeepsQueue` | Week6/Lab6/src/cvbug.c:49-54 | a put adds one item at the end of the ring |
| `Cvbug.TakeKeepsQueue` | Week6/Lab6/src/cvbug.c:56-62 | a take from a queue that is not empty removes the next item in order |
| `Cvbug.SignalWakes` | Week6/Lab6/src/cvbug.c:102-105 | a signal wakes somebody if anybody waits |
| `Cvbug.ProducerKeepsWakeups` | Week6/Lab6/src/cvbug.c:91-114 | a producer's step loses no wakeup |
| `Cvbug.ConsumerKeepsWakeups` | Week6/Lab6/src/cvbug.c:118-156 | a consumer's step loses no wakeup |
| `Cvbug.ConsumerKeepsSelf` | Week6/Lab6/src/cvbug.c:118-156 | a consumer takes only from a queue that is not empty, and leaves only at the end |
| `Cvbug.ConsumerKeepsSeen` | Week6/Lab6/src/cvbug.c:138-141 | every take is recorded once |
| `Cvbug.RunInv` | Week6/Lab6/src/cvbug.c:91-156 | all of this in every state of a run of a correct mode |
| `Cvbug.Program.Put` | Week6/Lab6/src/cvbug.c:49-54 | put_item in place |
| `Cvbug.Program.Take` | Week6/Lab6/src/cvbug.c:56-62 | take_item in place |
| `Cvbug.Program.Record` | Week6/Lab6/src/cvbug.c:139-141 | the records of a take in place |
| `Cvbug.Program.ProducerAccess` | Week6/Lab6/src/cvbug.c:91-114 | one statement of the producer in place |
| `Cvbug.Program.ConsumerAccess` | Week6/Lab6/src/cvbug.c:118-156 | one statement of a consumer in place |
| `Cvbug.Program.Run` | Week6/Lab6/src/cvbug.c:194-211 | main's report after any schedule; in the correct modes all taken, nothing duplicate, nothing lost |
| `Cvbug.Program.Report` | Week6/Lab6/src/cvbug.c:204-211 | lost is the number of items never seen; duplicate and lost are zero exactly when no item was seen twice, and every item at least once |
| `Sattolo.WsDemo.BuildCycle` | Week4/Lab4/src/ws_demo.c:15-25 | following the result from slot 0 visits every slot exactly once and returns; it is the one cycle that the generator's numbers choose |
| `Sattolo.EachCycleOnce` | Week4/Lab4/src/ws_demo.c:15-25 | the permutations that the loop can make are exactly those that are one cycle of all slots, and each is made by exactly one sequence of choices |
| `Sattolo.ShuffledIsCycle` | Week4/Lab4/src/ws_demo.c:19-24 | whatever the choices, the loop leaves one cycle |
| `Sattolo.ChoicesFor` | Week4/Lab4/src/ws_demo.c:19-24 | for every single cycle there are choices that make it |
| `Sattolo.ChoicesAreDetermined` | Week4/Lab4/src/ws_demo.c:19-24 | different choices make different permutations |
| `Sattolo.SlotIsSettled` | Week4/Lab4/src/ws_demo.c:20-23 | each swap settles the slot it starts from |
| `Sattolo.FirstChoice` | Week4/Lab4/src/ws_demo.c:19-20 | one choice is the remainder of the next number, the others come from the numbers after it |
| `Sattolo.FirstNumber` | Week4/Lab4/src/ws_demo.c:6-12 | the first number from the seed |
| `Sattolo.WsDemo.Identity` | Week4/Lab4/src/ws_demo.c:16-18 | the first loop lets every slot point to itself |
| `Sattolo.SwapMerges` | Week4/Lab4/src/ws_demo.c:19-24 | one swap with j below i merges two cycles and leaves one fewer |
| `Sattolo.SplicedIsCycle` | Week4/Lab4/src/ws_demo.c:21-23 | the cycle of i is spliced in after j |
| `Sattolo.OneCycleIsSingle` | Week4/Lab4/src/ws_demo.c:14-25 | one cycle left is the whole permutation |
| `Sattolo.FollowRepeats` | Week4/Lab4/src/ws_demo.c:42-46 | the chase repeats after n steps |
| `Sattolo.WsDemo.Chase` | Week4/Lab4/src/ws_demo.c:42-46 | where the pointer chase ends |
| `Sattolo.WsDemo.NextRand` | Week4/Lab4/src/ws_demo.c:6-12 | the next state of the generator, never 0 from another state |
| `Svc.InheritsWhatWaits` | Week5/Assignment5/scheduling/src/svc.c:101-108 | with inheritance, whenever the lock is free the worker runs at exactly the highest of base, the request in service and the queue |
| `Svc.AlwaysExact` | Week5/Assignment5/scheduling/src/svc.c:54-69 | that holds always when no priority change fails |
| `Svc.NeverRaised` | Week5/Assignment5/scheduling/src/svc.c:104-108 | without inheritance the worker keeps its own priority and is never boosted, whatever waits |
| `Svc.BoostsAreRaises` | Week5/Assignment5/scheduling/src/svc.c:54-69 | the boosts counted are the raises of the priority |
| `Svc.WorkRepairs` | Week5/Assignment5/scheduling/src/svc.c:101-108 | whatever priority changes failed before, one that works sets exactly what is needed |
| `Svc.FailedChange` | Week5/Assignment5/scheduling/src/svc.c:54-69 | a change that fails leaves priority and boosts as they were |
| `Svc.RepliesTell` | Week5/Assignment5/scheduling/src/svc.c:102-117 | the k-th reply goes to the client of the k-th request picked, with the priority at which it was picked to be served and the number of requests it left queued |
| `Svc.AcceptedExactlyWithRoom` | Week5/Assignment5/scheduling/src/svc.c:218-230 | a request is accepted exactly when the queue has room |
| `Svc.ReceiveInherits` | Week5/Assignment5/scheduling/src/svc.c:225-227 | the receiver's raise keeps it |
| `Svc.WorkInherits` | Week5/Assignment5/scheduling/src/svc.c:90-108 | the worker's section keeps it |
| `Svc.FifoServesInOrder` | Week5/Assignment5/scheduling/src/svc.c:72-84 | in fifo mode the k-th request picked is the k-th accepted, despite swap-remove |
| `Svc.HighestFirst` | Week5/Assignment5/scheduling/src/svc.c:72-84 | in prio mode nothing of a higher priority is queued when a request is picked |
| `Svc.ArrivalOrderAmongEquals` | Week5/Assignment5/scheduling/src/svc.c:72-84 | requests of equal priority are picked in order of arrival |
| `Svc.ServedAtMostOnce` | Week5/Assignment5/scheduling/src/svc.c:101-121 | every accepted request is picked or queued, once |
| `Svc.ServedAllUnlessLate` | Week5/Assignment5/scheduling/src/svc.c:97-100 | when the worker has left, everything accepted was served if and only if nothing was accepted afterwards |
| `Svc.LateRequestIsLost` | Week5/Assignment5/scheduling/src/svc.c:190-236 | such a run exists: a signal ends the worker while the receiver still reads |
| `Svc.NoLostWakeup` | Week5/Assignment5/scheduling/src/svc.c:91-96 | a worker that waits without a signal has an empty queue |
| `Svc.SignalledExactly` | Week5/Assignment5/scheduling/src/svc.c:91-235 | a waiting worker has been signalled exactly when there is something for it to do, a stop without the broadcast excepted; only a signal or the end of the receiver stops the program |
| `Svc.PickIsFirst` | Week5/Assignment5/scheduling/src/svc.c:72-84 | nobody in the queue is to be served before the request picked |
| `Svc.RemovedIsRest` | Week5/Assignment5/scheduling/src/svc.c:102-103 | filling the hole with the last item removes exactly the one picked |
| `Svc.RestIsQueued` | Week5/Assignment5/scheduling/src/svc.c:101-103 | in fifo mode the queue holds, in some order, the requests from the next one on |
| `Svc.StepInv` | Week5/Assignment5/scheduling/src/svc.c:86-236 | every section of worker and receiver keeps all of this |
| `Svc.RunInv` | Week5/Assignment5/scheduling/src/svc.c:86-236 | all of this in every state of a run |
| `Svc.Service.QueueMaxPrio` | Week5/Assignment5/scheduling/src/svc.c:46-52 | the highest queued priority |
| `Svc.Service.Pick` | Week5/Assignment5/scheduling/src/svc.c:72-84 | the loop returns a request that nobody precedes |
| `Svc.Service.SetWorkerPrio` | Week5/Assignment5/scheduling/src/svc.c:55-69 | changes priority and counts boosts only when the call works |
| `Svc.Service.RemoveAt` | Week5/Assignment5/scheduling/src/svc.c:101-103 | swap-remove in place |
| `Svc.Service.WorkerSection` | Week5/Assignment5/scheduling/src/svc.c:90-110 | the worker's section in place, with its reply |
| `Svc.Service.ServeNext` | Week5/Assignment5/scheduling/src/svc.c:101-110 | picking a request and setting the priority to serve it at, in place |
| `Svc.Service.ReceiverSection` | Week5/Assignment5/scheduling/src/svc.c:218-230 | the receiver's section in place |
| `Svc.Service.Run` | Week5/Assignment5/scheduling/src/svc.c:86-236 | any schedule of sections in place |
| `Flame.ExactUnlessReopened` | Week4/Lab4/tools/flamegraph.pl:597-719 | at every time exactly the frames of the sample then current are there, each once, if and only if no frame is reopened and closed again within samples of count zero |
| `Flame.PositiveCountsAreExact` | Week4/Lab4/tools/flamegraph.pl:672-719 | with positive counts that never happens |
| `Flame.ZeroCountLosesFrame` | Week4/Lab4/tools/flamegraph.pl:612-621 | p;a 5, q;a 0, r 1 loses a frame |
| `Flame.InsideCaller` | Week4/Lab4/tools/flamegraph.pl:597-632 | each frame lies inside its caller's |
| `Flame.RootSpansAll` | Week4/Lab4/tools/flamegraph.pl:711-719 | the root spans the total |
| `Flame.CoverIsSampled` | Week4/Lab4/tools/flamegraph.pl:612-621 | no frame is there that the sample does not have, for any counts |
| `Flame.EntryOfFrame` | Week4/Lab4/tools/flamegraph.pl:614-616 | each frame has an entry, its own unless a later one of its name ended at the same time |
| `Flame.LostIsNotExact` | Week4/Lab4/tools/flamegraph.pl:614-616 | an overwritten frame is missing from the result |
| `Flame.FlameGraph.Flow` | Week4/Lab4/tools/flamegraph.pl:598-632 | the two tables after one call: frames beyond the common prefix are closed and opened |
| `Flame.FlameGraph.MergeRows` | Week4/Lab4/tools/flamegraph.pl:672-719 | the loop and the last call leave, for every end time, the last frame that ended then |
| `Flame.FlameGraph.Merge` | Week4/Lab4/tools/flamegraph.pl:672-719 | the whole merge and its exactness |
| `Flame.OpenKept` | Week4/Lab4/tools/flamegraph.pl:623-629 | after a call the open frames are those of the current stack, with their start times |
| `Flame.NodeKept` | Week4/Lab4/tools/flamegraph.pl:612-621 | after a call the closed frames are those that have ended |
| `Flame.Common` | Week4/Lab4/tools/flamegraph.pl:604-610 | length of the common prefix |
| `Usched.SpansAreLength` | Week4/Assignment4/cpu_scheduling/usched.c:162-165 | repeating the span from 0 reaches the end in exactly the computed number of blocks |
| `Usched.SpansRepeatData` | Week4/Assignment4/cpu_scheduling/usched.c:36-44 | the spans, put together, are the data over and over |
| `Usched.JobTotals` | Week4/Assignment4/cpu_scheduling/usched.c:209-216 | the totals over a job are passes times those of the data plus the tail's, in 64 bits |
| `Usched.TotalsAreReduced` | Week4/Assignment4/cpu_scheduling/work.h:70-81 | 64-bit accumulation is the sum modulo 2^64 |
| `Usched.TransformIsInvertible` | Week4/Assignment4/cpu_scheduling/work.h:48-50 | transform is a bijection of the 32-bit words, with the inverse multiplier written out |
| `Usched.OneRecordAdds` | Week4/Assignment4/cpu_scheduling/work.h:53-81 | with the residue 3 a record transformed to v adds v to the sum and 1 to the count when v leaves 3 by 7, and nothing otherwise |
| `Usched.ReducedReference` | Week4/Assignment4/cpu_scheduling/usched.c:214-215 | the reference may be computed from totals that have wrapped around |
| `Usched.BlocksOfIsCeiling` | Week4/Assignment4/cpu_scheduling/usched.c:164 | the rounded-up quotient counts the blocks of a pass |
| `Usched.Span` | Week4/Assignment4/cpu_scheduling/usched.c:38-44 | a span is never empty before the end, stays in the data, the block and the job |
| `Usched.ReferenceAggregate` | Week4/Assignment4/cpu_scheduling/work.h:70-81 | the totals of the first n records |
| `Usched.AddBlock` | Week4/Assignment4/cpu_scheduling/work.h:57-67 | the totals after one more block, as work_block has to compute them |
| `Usched.Job.BlockSpan` | Week4/Assignment4/cpu_scheduling/usched.c:38-44 | job_block_span with the program's operators |
| `Usched.Job.SetLength` | Week4/Assignment4/cpu_scheduling/usched.c:162-165 | the formula is the number of spans |
| `Usched.BlockAdds` | Week4/Assignment4/cpu_scheduling/usched.c:38-44 | the next span's records come on top of the totals so far |
| `Usched.Job.RunBlock` | Week4/Assignment4/cpu_scheduling/usched.c:82-83 | one block adds its records to the job's totals |
| `Usched.Job.Run` | Week4/Assignment4/cpu_scheduling/usched.c:200-222 | a job run block by block passes all of main's checks |
| `Usched.Job.Check` | Week4/Assignment4/cpu_scheduling/usched.c:201-221 | the checks succeed exactly for a complete job with the totals of its records |
| `IpcServer.Client.ReadRequests` | Week3/Lab3/src/ipc_server.c:102-170 | whatever the sends do, the lines dispatched are those of the bytes received and the bytes sent are the first of those queued for them; when no send blocks or fails, requests and replies are complete, up to QUIT or a line too long |
| `IpcServer.Client.Handle` | Week3/Lab3/src/ipc_server.c:271-285 | one event of the epoll loop keeps that |
| `IpcServer.OrderKeptExactly` | Week3/Lab3/src/ipc_server.c:48-100 | in every state of a connection the replies are in order if and only if no line was ever served while statistics were owed, and then the bytes sent are the first of those replies |
| `IpcServer.OrderHistory` | Week3/Lab3/src/ipc_server.c:48-168 | a line served while statistics are owed puts the replies out of order for ever |
| `IpcServer.OvertakingRun` | Week3/Lab3/src/ipc_server.c:66-68 | START blocks, PING is served, and PONG is sent before the statistics, in the protocol's bytes |
| `IpcServer.Protocol` | Week3/Lab3/src/ipc_server.c:139-163 | PONG for PING, BYE for QUIT, START and the statistics for STATS, ERROR for every other line, each with its newline |
| `IpcServer.Dialogue` | Week3/Lab3/src/ipc_server.c:139-163 | the reply stream of PING, STATS, HELP, QUIT |
| `IpcServer.QuitIsLast` | Week3/Lab3/src/ipc_server.c:156-163 | QUIT after other lines is the last request, whatever follows |
| `IpcServer.FirstRequest` | Week3/Lab3/src/ipc_server.c:130-138 | one whole line in front of a stream is the first request |
| `IpcServer.FlushEnds` | Week3/Lab3/src/ipc_server.c:48-73 | a flush makes the first sends of the script; all but the last accept bytes or are interrupted; the last one loses the client when it fails and leaves bytes when it blocks |
| `IpcServer.AnyAmount` | Week3/Lab3/src/ipc_server.c:51-60 | a send may accept any number of bytes from one to all |
| `IpcServer.ComputeKeeps` | Week3/Lab3/src/ipc_server.c:79-97 | statistics computed when everything before them is sent are what is then owed |
| `IpcServer.PatientClientKeepsOrder` | Week3/Lab3/src/ipc_server.c:105 | a client with all its replies is owed no statistics, so one outstanding request per connection keeps the order |
| `IpcServer.AnswerKeeps` | Week3/Lab3/src/ipc_server.c:139-163 | a line's reply keeps buffer, bytes sent and history in step, for any sends |
| `IpcServer.FlushKeeps` | Week3/Lab3/src/ipc_server.c:48-100 | so does a flush |
| `IpcServer.SendLoopKeeps` | Week3/Lab3/src/ipc_server.c:51-73 | so do its sends |
| `IpcServer.QuietAnswer` | Week3/Lab3/src/ipc_server.c:139-163 | when no send blocks or fails, a line is answered at once and completely |
| `IpcServer.SameStreamSameRequests` | Week3/Lab3/src/ipc_server.c:102-170 | what is decided by a part of the stream stays decided, so the pieces do not matter |
| `IpcServer.RequestsExtend` | Week3/Lab3/src/ipc_server.c:130-138 | more bytes go on where the last ones stopped |
| `IpcServer.LinesComeBack` | Week3/Lab3/src/ipc_server.c:130-138 | short lines sent one after the other are dispatched as they were |
| `IpcServer.WaitingHasNoLine` | Week3/Lab3/src/ipc_server.c:106-109 | what is waited for has no newline and leaves room in the buffer |
| `IpcServer.Client.ServeLine` | Week3/Lab3/src/ipc_server.c:133-167 | one line is taken from the buffer and answered |
| `IpcServer.Client.ServeLines` | Week3/Lab3/src/ipc_server.c:131-168 | all lines in the buffer are, in order, until QUIT, a lost client or owed statistics |
| `IpcServer.Client.TakeLine` | Week3/Lab3/src/ipc_server.c:133-138 | the line leaves the buffer, the rest stays |
| `IpcServer.Client.Respond` | Week3/Lab3/src/ipc_server.c:139-163 | what is queued for each kind of line, and the flush, for any sends |
| `IpcServer.Client.AnswerLine` | Week3/Lab3/src/ipc_server.c:139-163 | the same with what it keeps; with quiet sends and an idle buffer the client is sent PONG, BYE, START and the statistics, or ERROR; QUIT ends the connection |
| `IpcServer.Client.ReadOnce` | Week3/Lab3/src/ipc_server.c:106-130 | one recv, whatever it returns |
| `IpcServer.StreamExtends` | Week3/Lab3/src/ipc_server.c:111-130 | lines taken and bytes buffered still make up the stream after any recv |
| `IpcServer.Client.Append` | Week3/Lab3/src/ipc_server.c:111-130 | received bytes go behind those buffered, within the buffer |
| `IpcServer.Client.DropLine` | Week3/Lab3/src/ipc_server.c:137-138 | memmove to the front |
| `IpcServer.Client.FindNewline` | Week3/Lab3/src/ipc_server.c:132 | first newline of the used part |
| `IpcServer.Client.QueueReply` | Week3/Lab3/src/ipc_server.c:35-46 | appends the reply or drops the client, within the buffer |
| `IpcServer.Client.SendAll` | Week3/Lab3/src/ipc_server.c:51-73 | the sends of a flush: what was sent is what was queued, in order, for any results of send |
| `IpcServer.Client.FlushReply` | Week3/Lab3/src/ipc_server.c:48-100 | everything queued and then the statistics are sent, as far as the sends allow |
| `Loadgen.SamplesAreNumbered` | Week3/Assignment3/loadgen/loadgen.c:494-522 | samples fit the room planned, each client's are numbered 0, 1, 2, ..., and a client not done has requests left |
| `Loadgen.FailureIsLast` | Week3/Assignment3/loadgen/loadgen.c:494-522 | only a client's last sample can be a failure, and unless an epoll change fails a client is done exactly when its last request failed or was the last one planned |
| `Loadgen.EventTells` | Week3/Assignment3/loadgen/loadgen.c:494-585 | an event of one client ends its request with the status it tells, or leaves it under way, and touches no other client |
| `Loadgen.DeadlineCancels` | Week3/Assignment3/loadgen/loadgen.c:675-686 | the deadline cancels exactly the requests in flight |
| `Loadgen.FinishRetires` | Week3/Assignment3/loadgen/loadgen.c:505-522 | finish keeps that |
| `Loadgen.CompleteRunRecordsAll` | Week3/Assignment3/loadgen/loadgen.c:641-760 | a run without failures that is over has recorded every planned sample |
| `Loadgen.PlannedIsTotal` | Week3/Assignment3/loadgen/loadgen.c:643-646 | the room planned is the total of the clients' targets |
| `Loadgen.RoomLeft` | Week3/Assignment3/loadgen/loadgen.c:494-503 | while a client is not done there is room for its sample |
| `Loadgen.FinishKeeps` | Week3/Assignment3/loadgen/loadgen.c:494-522 | finish keeps the account |
| `Loadgen.StepKeeps` | Week3/Assignment3/loadgen/loadgen.c:671-760 | every event of the loop keeps the account |
| `Loadgen.Run.constructor` | Week3/Assignment3/loadgen/loadgen.c:641-669 | room, targets and clients at the start |
| `Loadgen.Run.FinishClient` | Week3/Assignment3/loadgen/loadgen.c:494-522 | finish in place, within the sample array |
| `Loadgen.Run.SendPending` | Week3/Assignment3/loadgen/loadgen.c:524-550 | send_pending in place |
| `Loadgen.Run.ReceivePending` | Week3/Assignment3/loadgen/loadgen.c:552-585 | receive_pending in place |
| `Loadgen.Run.CancelAll` | Week3/Assignment3/loadgen/loadgen.c:675-686 | the deadline cancels the requests in flight |
| `Loadgen.Run.Handle` | Week3/Assignment3/loadgen/loadgen.c:688-759 | one event of the loop in place |
| `LogStats.EntryIsAggregate` | Week3/Lab3/src/log_stats.c:96-108 | an entry has count, errors, sum, least and greatest duration of its service's rows |
| `LogStats.RowsAreTheServices` | Week3/Lab3/src/log_stats.c:115-121 | the rows of a service are exactly the log's rows of that service |
| `LogStats.RowOccurs` | Week3/Lab3/src/log_stats.c:115-121 | each row as often as it is in the log |
| `LogStats.AggregateRescan` | Week3/Lab3/src/log_stats.c:111-122 | the table by rescanning |
| `LogStats.Rescan` | Week3/Lab3/src/log_stats.c:115-121 | one service's rows, and no other entry |
| `LogStats.AggregateOnepass` | Week3/Lab3/src/log_stats.c:125-133 | the same table in one pass |
| `LogStats.SummaryConserves` | Week3/Lab3/src/log_stats.c:135-148 | the totals account for every row, error and duration, and the signature weighs each row by its service, plus the least and greatest durations |
| `LogStats.Summarize` | Week3/Lab3/src/log_stats.c:135-148 | summarize in place, with that property |
| `LogStats.TableOneMore` | Week3/Lab3/src/log_stats.c:129-132 | one row more changes one entry |
| `Irq.EverythingPairsIffBalanced` | Week2/Lab2/tools/irq_summary.py:13-26 | every event is paired if and only if every CPU's events are balanced, however the CPUs interleave |
| `Irq.AllPairedIffBalanced` | Week2/Lab2/tools/irq_summary.py:18-26 | the same for one CPU |
| `Irq.CpusAreIndependent` | Week2/Lab2/tools/irq_summary.py:18-26 | what happens on one CPU is what would happen there alone |
| `Irq.BalancedLeavesNothing` | Week2/Lab2/tools/irq_summary.py:18-26 | a balanced piece leaves stack and counts as they were |
| `Irq.Parse` | Week2/Lab2/tools/irq_summary.py:18-26 | events without an unmatched exit are balanced pieces around the entries left open |
| `Irq.MatchKeeps` | Week2/Lab2/tools/irq_summary.py:22-24 | a new pair crosses no other and leaves no open entry inside it |
| `Irq.StepCounts` | Week2/Lab2/tools/irq_summary.py:28-29 | entries are pairs plus those left open, exits are pairs plus unmatched |
| `Irq.StepKeeps` | Week2/Lab2/tools/irq_summary.py:18-26 | every event keeps all of this |
| `Irq.Handle` | Week2/Lab2/tools/irq_summary.py:18-26 | the body of the loop |
| `Irq.PairUp` | Week2/Lab2/tools/irq_summary.py:13-26 | the loop over the trace |
| `Irq.Summarize` | Week2/Lab2/tools/irq_summary.py:13-29 | the numbers printed, pairs nested and matching, nothing left exactly for balanced traces |

## Left out

- Weak memory orders: atomics are sequentially consistent steps; the acquire and release choices are not justified.
- Kernel behaviour: scheduling, throttling, signals, page faults and epoll readiness, beyond arbitrary outcomes of the calls.
- Clocks, latencies, percentiles, option parsing and output formats.
- lockcheck: reporting and `first_time`, W2 and W3, the condition-variable wrappers, and `in_hook`. The table lock makes each hook one step. The hash is any function of the address.
- lockcheck: the kind of a lock is fixed from when a hook can first read it until it is destroyed, as POSIX requires; the hooks read it again each time.
- lockcheck: a real lock call may succeed only when the lock lets the thread in, and may fail at any time. A writer queues in front of readers of a writer-preferring rwlock once it sleeps; which of several threads gets a lock that is free is open. A real lock that is destroyed while held has no holders afterwards.
- PathSearch.FindPath: the C function is one body over static arrays indexed by lock and mode; here it is split into small methods over arrays indexed by `2 * lock + mode`, allocated at each call.
- Mcs: `i < n && !stop` is an arbitrary outcome of the loop test, and the delay loops are not steps; the other lock modes are not modelled.
- Rcu: clients keep to `rcu.h`: no pointer is held across a quiescent state, a call of `synchronize_rcu` or unregistering. Runs are shorter than 2^63 steps, beyond which the comparison of counters is not meaningful; a thread that finds no slot stops for itself, where the program aborts as a whole; registering twice is excluded.
- Cfgread: the rwlock mode, a failing `malloc`, and wrap-around of the 64-bit counter.
- Cvbug: the contents and errors of the log file and the simulated delays.
- Svc: the sockets, and the moment before `main` has set the base priority.
- Flame: differential columns (`delta`), chain colours, and parsing. Frame names contain no semicolon, so the string keys of the script are modelled as tuples; counts are real numbers.
- Usched: the student parts (`work_block`, workers, ready queue). `AddBlock` stands for `work_block` with the behaviour its comment requires. Job sizes stay far below 64 bits, so only the totals wrap around.
- IpcServer: accepting clients, which events epoll reports and when, and therefore when lines are read that stay in the buffer behind statistics still owed. The statistics are one string of at most the buffer's size that begins with STATS where order is concerned.
- Loadgen: the bytes of requests and replies, `validate`, the timing that decides when a request is due, and the connection setup. Outcomes of `send`, `recv` and `epoll_ctl` are arbitrary.
- LogStats: sums are unbounded (the loader's limits keep them below 64 bits), and the CSV loader.
- Irq: the regular expression and the durations; CPUs are numbers.
- The spinlock, pthread wrappers, student stubs, the short deadlock exercises and the memory labs: easy members or nothing to model.
