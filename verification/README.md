# Verified model of the fastapi-taskflow execution engine

This project models how fastapi-taskflow schedules, queues, runs, cancels, stops and restarts
tasks, and proves properties of that model for every input, every run and every interleaving.
`dafny verify dfyconfig.toml` checks all of it.

## How it is built

The original works by changing objects step by step, with `await` as the only place where
another step can come in between (and, for enqueueing threads, the boundaries of a lock). So
each protocol is a state machine, one step per stretch of code between two such points or per
atomic backend statement. A step that does not apply leaves the state alone, so a theorem about
every sequence of steps is a theorem about every interleaving. Beside the machines stand the
objects: classes with the original's fields, whose methods are proved to take exactly the
corresponding step, or to have exactly the stated effect.

| file | models |
|---|---|
| `Heapq.dfy` | `heapq` on a list: sift down, sift up, push, pop, heapify |
| `TaskOrder.dfy` | the order in which a priority heap hands tasks out, and the legacy priority worker |
| `QueueProtocol.dfy`, `TaskQueue.dfy` | a named queue: enqueueing threads, the drainer, slots, live reconfiguration |
| `AsyncExecutor.dfy` | the coroutine executor's own semaphore under cancellation |
| `OneOffProtocol.dfy` | one-off schedules across any number of instances sharing one table |
| `ScheduleState.dfy`, `Scheduler.dfy` | one process's scheduler: heap, tombstones, index, refill, due loop |
| `RunLoop.dfy` | the scheduler's run loop with a clock and the shared table: wake, refill, due loop, claim, sleep, and what ends it |
| `Timeliness.dfy` | when a row is taken whatever the loop remembers of its key; moved deadlines |
| `Deployment.dfy` | any number of such loops over one table of rows and one table of locks |
| `Recurrence.dfy` | when a recurring entry is tried, and that each try fires it or follows a firing |
| `ScheduleTiming.dfy` | refill deadlines; the recurring entries' lock |
| `IsoTime.dfy`, `ScheduleIndex.dfy` | the two stored forms of the schedule table, and why text comparison works |
| `Tasks.dfy`, `Store.dfy`, `Manager.dfy` | statuses, the live task map, `add_task` and the cancel endpoint |
| `Pipeline.dfy` | the middleware pipeline: idempotency around logging around retry around dispatch |
| `Lifecycle.dfy`, `PipelineLifecycle.dfy` | every writer of a record's status, interleaved; the pipeline is one of its runs |
| `IdempotencyProtocol.dfy` | executions sharing the table of idempotency keys |
| `Restart.dfy`, `RequeueProtocol.dfy` | shutdown and restart of one process; requeueing by many instances |

## Where the code departs from its own words

The model follows the code. Each of these has a lemma with the exact condition, a reachable
counterexample, or both.

- A one-off is said to run exactly once, but it is claimed by `run_key` alone
  (`fastapi_taskflow/periodic.py:441-449`): a copy armed before a cancel fires the row of a later
  save of the same key, at the old time. A key that is not saved again behaves as promised.
- `start()` rebuilds the heap from recurring entries only: safe exactly when no one-off is armed.
  One that is armed then never fires in that process, however often its row is refilled.
- A reconfiguration (`fastapi_taskflow/manager.py:1002-1021`) wedges the drainer for ever exactly
  when it waits for a slot and the cap does not grow, even if only `max_size` changes.
- `every <= 0` is accepted, and then the due loop does not end. A cron evaluation or a lock that
  raises, or a full queue, ends the run loop for good; a one-off that meets a full queue is lost to
  this process.
- A moved deadline is kept exactly as promised only if the copies still in memory are due after the
  refill that replaces them; a copy due sooner takes the row early, with the old arguments.
- A refill keeps an entry already armed at the row's time, even if the row has new arguments.
- SUCCESS can be recorded though no attempt returned: exactly when `retries` is negative or the
  first attempt is interrupted.
- Cancelling a PENDING task never changes whether its function starts. A cancellation at the RUNNING event, or inside the
  handler, leaves the record RUNNING.
- `flush_pending` can turn a SUCCESS into INTERRUPTED if it awaits between listing a record and
  visiting it.
- `clear_pending` is called a safety net, but it (and `save_pending`) deletes other instances' rows.
- The pending table has no column for priority, idempotency key or tags, so a requeued task has
  none; and a task requeued at startup goes to the event loop, not to its queue.
- The Redis index loses a key that is saved again while `load_due` cleans up.
- An aware `run_at` that is not UTC is compared by its local fields in SQL, and loses every tie.
- Two tasks with one idempotency key both run if both check before either records.

## Model

| member | source | states |
|---|---|---|
| Heapq.SiftDown | fastapi_taskflow/manager.py:150-152 | climbing from a heap with one misplaced item restores heap order and permutes the items |
| Heapq.SiftUp | fastapi_taskflow/manager.py:187-187 | sinking the displaced item to a leaf and letting it climb back restores heap order and permutes the items |
| Heapq.HeapPush | fastapi_taskflow/manager.py:150-152 | a push keeps heap order and adds exactly the item |
| Heapq.HeapPop | fastapi_taskflow/manager.py:187-187 | a pop removes exactly one item, no item left ranks before it, and heap order holds |
| Heapq.Heapify | fastapi_taskflow/periodic.py:234-235 | any list becomes a heap of the same items |
| Heapq.RootIsMinimal | fastapi_taskflow/periodic.py:354-355 | nothing in a heap ranks before its root |
| TaskOrder.ComparisonStopsAtSequenceNumber | fastapi_taskflow/manager.py:150-152 | two queued tuples are always ordered by priority and sequence number alone |
| TaskOrder.RankIsRequestOrder | fastapi_taskflow/manager.py:140-152 | a tuple sorts before another exactly if its request has the greater integer, or a level one and came first; no priority is level with 0 |
| TaskOrder.StableSortIsOrderedPermutation | fastapi_taskflow/manager.py:140-152 | the reference order is a sorted permutation of the requests, arrival order within a priority |
| TaskOrder.OrderIsUnique | fastapi_taskflow/manager.py:150-152 | there is only one such order |
| TaskOrder.DrainOrderIsStableSort | fastapi_taskflow/manager.py:182-187 | any drain that takes a first item each time is the stable sort by descending priority |
| TaskOrder.Drain | fastapi_taskflow/manager.py:182-190 | popping the array heap until empty yields its items in non-decreasing rank |
| TaskOrder.RunPriorityWorker | fastapi_taskflow/manager.py:1059-1083 | the legacy worker dispatches each request of a backlog before every one with a smaller integer, and in arrival order within a priority |
| TaskOrder.ServePriorityQueue | fastapi_taskflow/manager.py:1059-1083 | under any interleaving of puts and gets the array heap hands out what a list kept in stable order would |
| TaskOrder.GetTakesTheBest | fastapi_taskflow/manager.py:1059-1083 | so each get dispatches the waiting request of the greatest integer, and the oldest of these |
| QueueProtocol.NoLostWakeUpAndConservation | fastapi_taskflow/manager.py:125-205 | a non-empty heap behind a clear event means an enqueuer still owes its set; every accepted task is in exactly one of heap, hand, flight, finished; none is dispatched twice |
| QueueProtocol.PushAcceptsExactlyWhen | fastapi_taskflow/manager.py:140-152 | a push is accepted exactly while fewer than max_size tasks wait; it adds this one task, and else only counts the rejection |
| QueueProtocol.NextIsBestWaiting | fastapi_taskflow/manager.py:140-188 | in every reachable state the drainer's next task is the waiting one of the greatest priority, None counting as 0, and the oldest of these |
| QueueProtocol.GreaterPriorityIsPoppedFirst | fastapi_taskflow/manager.py:140-188 | of two waiting tasks the one pushed with the greater integer is popped first |
| QueueProtocol.CreditIsConstant | fastapi_taskflow/manager.py:183-205 | free permits plus slots in flight (plus the permit being handed over) never change without a reconfiguration |
| QueueProtocol.FixedCapIsExact | fastapi_taskflow/manager.py:116-123 | with a fixed configuration they equal the cap, so in-flight never exceeds it |
| QueueProtocol.UncappedNeverWaits | fastapi_taskflow/manager.py:189-192 | without a cap the drainer never waits for a slot |
| QueueProtocol.BackpressureBound | fastapi_taskflow/manager.py:140-149 | the heap never grows past max_size, or past its length when max_size was lowered |
| QueueProtocol.ReconfigurationBound | fastapi_taskflow/manager.py:1002-1021 | after an update to cap c with r in flight, permits plus in-flight stay c + r, plus one exactly when a permit was handed to the drainer; exact on an idle queue |
| QueueProtocol.UpdateKeepsTasks | fastapi_taskflow/manager.py:1002-1021 | an update takes over the whole configuration and moves no task |
| QueueProtocol.WedgedExactlyWhen | fastapi_taskflow/manager.py:1007-1021 | only an update can wedge the drainer, exactly when it waits for a slot and the cap does not grow |
| QueueProtocol.StuckForEver | fastapi_taskflow/manager.py:183-205 | a wedged drainer dispatches nothing through any later steps |
| QueueProtocol.SameCapUpdateWedges | fastapi_taskflow/manager.py:1002-1021 | a run from a fresh queue in which an update of max_size alone wedges the drainer |
| QueueProtocol.WorkCanProceed | fastapi_taskflow/manager.py:163-205 | a queue that is not wedged and not idle has a step that brings it closer to idle |
| QueueProtocol.CanDrain | fastapi_taskflow/manager.py:163-205 | from any reachable state that is not wedged, every accepted task can be finished without a newcomer |
| QueueProtocol.BoundedInversion | fastapi_taskflow/manager.py:182-190 | between a task's enqueueing and its dispatch at most one task ranking after it is dispatched, the one already in the drainer's hand |
| TaskQueues.Semaphore.Release | fastapi_taskflow/manager.py:204-205 | a release hands the permit to the waiter, or else raises the value |
| TaskQueues.TaskQueue.PushLocked | fastapi_taskflow/manager.py:140-152 | the locked half of enqueue is the push step; it fails exactly on a full heap |
| TaskQueues.TaskQueue.SetHasWork | fastapi_taskflow/manager.py:154-155 | the unlocked half is the signal step |
| TaskQueues.TaskQueue.Enqueue | fastapi_taskflow/manager.py:125-155 | enqueue on one thread is the two steps together |
| TaskQueues.TaskQueue.PopLocked | fastapi_taskflow/manager.py:181-188 | the drainer's locked section clears the event on an empty heap and else pops the first job in rank |
| TaskQueues.PushTwoThenPop | fastapi_taskflow/manager.py:140-188 | of two tasks pushed into an empty queue the drainer takes the one with the greater integer, the first on a tie |
| TaskQueues.TaskQueue.AcquireSlot | fastapi_taskflow/manager.py:189-192 | dispatches with a free permit or no cap, else suspends on the semaphore it sees |
| TaskQueues.TaskQueue.ResumeWithPermit | fastapi_taskflow/manager.py:189-192 | a resumed drainer dispatches the job it held |
| TaskQueues.TaskQueue.DrainUntilSuspended | fastapi_taskflow/manager.py:178-192 | the drainer stops only with an empty heap and a clear event, or waiting on a semaphore without permits |
| TaskQueues.TaskQueue.FinishSlot | fastapi_taskflow/manager.py:194-205 | the finally block releases the semaphore that is current then |
| TaskQueues.TaskQueue.UpdateConfig | fastapi_taskflow/manager.py:1002-1021 | a live update takes the reconfiguration step: releases on the old object, then a new object |
| AsyncExecutors.PermitsAreConserved | fastapi_taskflow/executors/async_executor.py:88-108 | return, exception, cancellation while waiting, while granted or while running: permits are conserved, never exceed the cap, and nobody is left waiting beside a free one |
| AsyncExecutors.OldestWaiterFirst | fastapi_taskflow/executors/async_executor.py:88-89 | permits are handed out in the order of arrival |
| AsyncExecutors.BothCapsBound | fastapi_taskflow/executors/async_executor.py:88-108 | dispatches of one queue that hold both permits never exceed either cap |
| AsyncExecutors.AsyncExecutor.EnterDispatch | fastapi_taskflow/executors/async_executor.py:88-89 | starts with a free permit if nobody waits or is about to resume, else queues behind them |
| AsyncExecutors.AsyncExecutor.ResumeDispatch | fastapi_taskflow/executors/async_executor.py:88-89 | a waiter that was handed a permit starts with it, and passes a free one on |
| AsyncExecutors.AsyncExecutor.LeaveDispatch | fastapi_taskflow/executors/async_executor.py:91-108 | the finally block passes the permit on |
| AsyncExecutors.AsyncExecutor.CancelBeforeStart | fastapi_taskflow/executors/async_executor.py:88-89 | a cancelled acquire leaves no trace and returns a permit it was already granted |
| OneOffProtocol.RunKeepsInv | fastapi_taskflow/periodic.py:257-511 | in every interleaving each row belongs to the latest save of its key and no row leaves the table twice |
| OneOffProtocol.Conservation | fastapi_taskflow/backends/sqlite.py:313-375 | per key: claims that took a row, successful cancels and the row present add up to the saves that found no row |
| OneOffProtocol.KeyFiresAtMostOncePerInsert | fastapi_taskflow/periodic.py:440-463 | a key fires in the whole deployment at most once per fresh save |
| OneOffProtocol.UnsupersededFiresAtMostOnce | fastapi_taskflow/manager.py:1422-1488 | a save whose key is not saved again fires at most once, never early, and never after a cancel that returned True, whatever re-arms it |
| OneOffProtocol.ArmSavedArmsOrDisarms | fastapi_taskflow/manager.py:1447-1463 | after its save a schedule_once is armed within the horizon and disarmed beyond it |
| OneOffProtocol.RefillLoadsAndArms | fastapi_taskflow/periodic.py:312-335 | a refill loads exactly the rows within the horizon and arms those of known functions that are not armed at their time |
| OneOffProtocol.ClaimIgnoresTheRowsOwner | fastapi_taskflow/periodic.py:448-463 | whose arguments run: those of the armed copy, exactly when it is due and any row of its key is there |
| OneOffProtocol.GoneSaveCanFireExactlyWhen | fastapi_taskflow/periodic.py:440-463 | a save whose row is gone can fire in some continuation exactly if some instance still holds a copy of it, armed, loaded, being armed or being claimed |
| OneOffProtocol.CancelledSaveFiresAfterResave | fastapi_taskflow/periodic.py:448-449 | a reachable run in which a cancelled save fires on another instance after its key is saved again |
| ScheduleState.RunKeepsInv | fastapi_taskflow/periodic.py:247-364 | in every reachable state the index maps each key to the one live heap entry of that key and every other one-off in the heap is a tombstone |
| ScheduleState.StartIsSafeExactlyWhen | fastapi_taskflow/periodic.py:221-236 | start() keeps this exactly when no one-off was armed before |
| ScheduleState.ReachableFromStart | fastapi_taskflow/periodic.py:221-236 | so it holds in every state after a start with nothing armed |
| ScheduleState.OrphanNeverFires | fastapi_taskflow/periodic.py:331-335 | an indexed entry outside the heap never enters it and is never fired, through any steps that neither add nor cancel its key and refill it at no other time |
| ScheduleState.StartOrphansWhatIsArmed | fastapi_taskflow/periodic.py:221-236 | every one-off armed when start() runs becomes such an entry, in every process and for every later run |
| ScheduleState.ArmedBeforeStart | fastapi_taskflow/periodic.py:221-236 | the failing start: one schedule before it breaks the agreement of index and heap |
| ScheduleState.RefillArmsEveryRow | fastapi_taskflow/periodic.py:331-335 | a refill arms every loaded row of a registered function at its fire time |
| ScheduleState.RefillCarriesRowExactlyWhen | fastapi_taskflow/periodic.py:331-335 | the armed entry carries the loaded row, arguments included, unless its key was already armed at the row's time with others |
| ScheduleState.RefillKeepsOldArguments | fastapi_taskflow/periodic.py:331-335 | the failing case: a row saved again at the same time with other arguments is skipped |
| ScheduleState.RefillIsIdempotent | fastapi_taskflow/periodic.py:331-335 | refilling again from unchanged rows changes nothing, heap included |
| ScheduleState.NextOccurrence | fastapi_taskflow/periodic.py:39-49 | the next run is one interval after the reference time |
| ScheduleState.NextIsLaterExactlyWhen | fastapi_taskflow/periodic.py:39-49 | the next run is strictly later exactly when an interval is positive |
| ScheduleState.NextRunNeverDecreases | fastapi_taskflow/periodic.py:383-393 | a recurring entry's next time never moves back, whatever happens around it |
| ScheduleState.FiringsAreAnIntervalApart | fastapi_taskflow/periodic.py:383-393 | one instance fires an interval entry at times at least its interval apart |
| Scheduler.PeriodicScheduler.Register | fastapi_taskflow/periodic.py:247-255 | registering adds this entry, due at the given time, and after start puts it into the heap and wakes the loop |
| Scheduler.PeriodicScheduler.AddOneOff | fastapi_taskflow/periodic.py:257-299 | arming replaces any entry of the key by one at the fire time, in the heap, and wakes the loop; refused exactly for an unregistered function, and then nothing changes |
| Scheduler.PeriodicScheduler.CancelOneOff | fastapi_taskflow/periodic.py:301-310 | cancelling leaves a tombstone and frees the key |
| Scheduler.PeriodicScheduler.ArmLoaded | fastapi_taskflow/periodic.py:331-335 | the refill loop is the refill step |
| Scheduler.PeriodicScheduler.Start | fastapi_taskflow/periodic.py:221-236 | rebuilds the heap from the recurring entries, each due now if it runs on startup and else one interval from now; valid afterwards exactly if the index was empty |
| Scheduler.PeriodicScheduler.PopDue | fastapi_taskflow/periodic.py:353-363 | the head of the loop pops a first due entry and does its bookkeeping: an interval entry is next due at now + every |
| Scheduler.PeriodicScheduler.RunDueLoop | fastapi_taskflow/periodic.py:353-364 | with nothing added and no due interval zero or negative it ends, fires exactly the live due entries once each in next_run order, re-pushes interval ones at now + every and cron ones later, and leaves nothing due |
| Scheduler.DueLoopNeverEnds | fastapi_taskflow/manager.py:1289-1292 | with a due interval that is not positive the loop's condition holds after any number of turns |
| RunLoop.RunKeepsValid | fastapi_taskflow/periodic.py:337-381 | every step of the loop, of the calls and of other instances keeps index and heap in agreement and the next refill within one interval |
| RunLoop.FiresExactlyOnceInTime | fastapi_taskflow/periodic.py:312-381 | with the refill interval within the horizon and a loop on time up to a lag: a row of a registered function, of whose key the memory has nothing but this row, is fired exactly once, as itself, not early, and by its fire time, or, if that is past or before the next refill, at most one interval later, plus the lags |
| RunLoop.RefillIsRescheduled | fastapi_taskflow/periodic.py:322-351 | the next refill is an interval from the wake, whether the load raised or not |
| RunLoop.KnownFiresByItsTime | fastapi_taskflow/periodic.py:257-263 | a row that is armed, loaded or being claimed waits for no refill: it fires by its fire time, or now, plus the lags |
| RunLoop.ScheduledSoonFiresOnTime | fastapi_taskflow/manager.py:1447-1463 | so does one that schedule_once arms within the horizon: the call wakes the loop |
| RunLoop.RescheduledHereIsClean | fastapi_taskflow/manager.py:1447-1463 | scheduling a key anew on this instance leaves nothing stale of it: armed inside the horizon, disarmed beyond |
| Timeliness.TakenInTime | fastapi_taskflow/periodic.py:312-381 | every row of a registered function is taken within the same bound, whatever the memory still has of its key: stale copies armed, loaded or being claimed |
| Timeliness.MovedDeadlineIsKept | fastapi_taskflow/periodic.py:331-335 | if every stale copy is of another time and due after the load that replaces it, the row saved anew is fired exactly once, as itself, at its new time and within the bound |
| Timeliness.StaleCopyTakesItEarly | fastapi_taskflow/periodic.py:448-449 | a run in which a copy due sooner takes the moved row early, with the old arguments |
| Deployments.ExactlyOneInstanceFires | fastapi_taskflow/periodic.py:440-511 | any number of loops on time over one table: the row is gone by each loop's bound, and all loops together have exactly one record of its key, of this row, dispatched, not early and in time |
| RunLoop.RecurringSettles | fastapi_taskflow/periodic.py:397-438 | a recurring firing with its lock makes exactly one record, dispatched unless the queue is full; a refused one makes none; the entry goes back into the heap |
| RunLoop.OneOffSettles | fastapi_taskflow/periodic.py:448-511 | a one-off makes exactly one record if its row is there and its function registered, and takes the row |
| Recurrence.TurnBeginsInTime | fastapi_taskflow/periodic.py:353-381 | a loop on time begins a due entry's turn by its time plus the lags, not early |
| Recurrence.NextTurnInTime | fastapi_taskflow/periodic.py:383-393 | after a turn at loop time now the next one begins at a loop time of at least now + every and at most the lag later |
| Recurrence.DueEntryIsTried | fastapi_taskflow/periodic.py:395-403 | in a deployment on time each loop calls the lock of each of its due entries in time |
| Recurrence.EveryTryFiresOrFollowsAFiring | fastapi_taskflow/periodic.py:402-438 | each such call wins and fires, recorded and dispatched, or is refused because another one won the lock, and fired, less than that lock's lifetime before |
| Recurrence.RecurringEntryIsServed | fastapi_taskflow/periodic.py:383-438 | so a due recurring entry is fired by some loop: by the bound, and less than one lock lifetime before it was due |
| Deployments.LockCallIsTheEntrys | fastapi_taskflow/periodic.py:395-403 | the lock call names the entry's function and asks for its interval in whole seconds, at least one, a minute for cron |
| Deployments.FiringsInWindow | fastapi_taskflow/periodic.py:395-438 | all loops together fire a recurring entry at most floor(L / ttl) + 1 times within a length L |
| RunLoop.AnOnTimeRun | fastapi_taskflow/periodic.py:337-381 | such runs exist, past the bound and without lag |
| RunLoop.ArmedUntilTaken | fastapi_taskflow/periodic.py:312-364 | from its load on the row has a live heap entry at exactly its fire time, or is being claimed, for as long as it is there |
| RunLoop.DueLoopTakesTheRow | fastapi_taskflow/periodic.py:353-364 | the due loop that finds the row armed and due does not end before it has taken it |
| RunLoop.LoadsWhatTheIndexSelects | fastapi_taskflow/backends/sqlite.py:335-340 | the rows a refill loads are those either backend selects from the same table |
| RunLoop.DiesExactlyWhen | fastapi_taskflow/periodic.py:353-364 | what ends the loop: a cron evaluation or a lock that raises, or a full queue for a firing that has its lock or its row and a registered function |
| RunLoop.DeadForEver | fastapi_taskflow/periodic.py:353-364 | then nothing is popped, fired or recorded any more, and the entry being fired is gone from the heap |
| RunLoop.FullQueueLosesTheOneOff | fastapi_taskflow/periodic.py:484-505 | a one-off that meets a full queue is lost to this process: row claimed, record PENDING, callable nowhere |
| RunLoop.FullQueueOneOffReturns | fastapi_taskflow/snapshot.py:277-335 | with requeue_pending that record is saved at shutdown, and the next startup dispatches it exactly if its function is registered and history has no success of it |
| ScheduleTiming.RefillIsTimely | fastapi_taskflow/periodic.py:29-36 | on the deadlines alone: with the refill interval within the horizon some refill's window covers every row by its fire time, or else the first refill after its save does, at most one interval late |
| ScheduleTiming.LongerIntervalLeavesAGap | fastapi_taskflow/periodic.py:34-36 | with a longer interval some row is loaded by no refill up to its fire time |
| ScheduleTiming.AcquisitionsAreApart | fastapi_taskflow/backends/sqlite.py:426-441 | over all instances two acquisitions of one lock are at least a ttl apart |
| ScheduleTiming.RefusedOnlyWithinTtl | fastapi_taskflow/backends/sqlite.py:426-441 | an attempt is refused only within the lifetime of an earlier acquisition of the same lock |
| ScheduleTiming.AcquisitionsInWindow | fastapi_taskflow/periodic.py:395-408 | in a window of length L there are at most floor(L / ttl) + 1 |
| ScheduleTiming.LockTtl | fastapi_taskflow/periodic.py:397-400 | the ttl is whole seconds, at least one, at most the interval if that is a second or more, and more than it less a second |
| IsoTime.IsoOrder | fastapi_taskflow/backends/sqlite.py:313-340 | text order of isoformat() strings, the fraction left out when zero, is calendar order |
| IsoTime.MonthStarts | fastapi_taskflow/backends/sqlite.py:335-340 | the calendar's month starts, leap years included |
| IsoTime.InstantOf | fastapi_taskflow/backends/sqlite.py:335-340 | a timestamp's distance from the origin in microseconds |
| IsoTime.CalendarIsTime | fastapi_taskflow/backends/sqlite.py:335-340 | calendar order is time order, leap years included |
| IsoTime.TextComparesAsTime | fastapi_taskflow/backends/sqlite.py:335-340 | for UTC values the SQL text comparison is the comparison of times |
| IsoTime.UnconvertedOffsetShiftsTheRow | fastapi_taskflow/manager.py:1416-1417 | a row with another offset is selected exactly when its local time, read as UTC, is before the bound; that is right exactly when the offset does not carry it across the bound, ties included |
| IsoTime.MisplacedRows | fastapi_taskflow/manager.py:1416-1417 | a due row that is not selected, one that is selected too early, and one lost in a tie |
| IsoTime.IsoRoundTrip | fastapi_taskflow/backends/sqlite.py:348-352 | reading back what isoformat() wrote gives the same fields and offset |
| ScheduleIndex.SqlSchedule.SaveScheduled | fastapi_taskflow/backends/sqlite.py:313-333 | an upsert by key |
| ScheduleIndex.SqlSchedule.LoadDue | fastapi_taskflow/backends/sqlite.py:335-367 | returns exactly the rows with fire_at <= before, compared as times |
| ScheduleIndex.SqlSchedule.DeleteScheduled | fastapi_taskflow/backends/sqlite.py:369-375 | deletes by key and says whether the row was there |
| ScheduleIndex.WritesKeepSync | fastapi_taskflow/backends/redis.py:340-413 | after any saves and deletes the sorted set has exactly the stored keys at their fire times |
| ScheduleIndex.RedisSchedule.SaveScheduled | fastapi_taskflow/backends/redis.py:340-370 | hash and score are written together |
| ScheduleIndex.RedisSchedule.LoadDue | fastapi_taskflow/backends/redis.py:372-397 | in one step it returns exactly the due rows and changes nothing; a damaged index is rid of its keys without a hash |
| ScheduleIndex.RedisSchedule.ReadHashes | fastapi_taskflow/backends/redis.py:381-395 | collects the hashes that exist and the keys that have none |
| ScheduleIndex.RedisSchedule.DeleteScheduled | fastapi_taskflow/backends/redis.py:399-413 | removes hash and score and says whether the hash was there |
| ScheduleIndex.SplitLoadInSyncExactlyWhen | fastapi_taskflow/backends/redis.py:372-397 | with other writers between its round trips the index stays right exactly when no stale key was saved again; else no later load finds the row |
| ScheduleIndex.ResaveDuringLoadIsLost | fastapi_taskflow/backends/redis.py:372-397 | a reachable run in which a row is lost that way |
| Pipeline.BuildPipeline | fastapi_taskflow/middleware.py:126-158 | the composed chain enters the layers in list order, outermost first |
| Pipeline.ExecContext.Execute | fastapi_taskflow/executor.py:168-270 | the default layers, run as objects that rewrite one context, compute the composed specification; the running-task entry is gone however the run ends |
| Pipeline.ExecContext.RunRetry | fastapi_taskflow/middleware.py:421-455 | the retry loop computes its specification |
| Pipeline.ExecContext.RunLogging | fastapi_taskflow/middleware.py:301-404 | so does the layer that writes statuses |
| Pipeline.ExecContext.RunIdempotency | fastapi_taskflow/middleware.py:216-261 | and the layer that checks and records keys |
| Pipeline.ExecContext.Dispatch | fastapi_taskflow/executor.py:155-158 | and the endpoint that registers the handle and awaits the function |
| Pipeline.KeyTable.RecordKey | fastapi_taskflow/backends/sqlite.py:384-391 | recording never replaces an owner |
| Pipeline.RunVerdict | fastapi_taskflow/middleware.py:301-455 | for every outcome of every await past the key check: dispatches, sleeps, retries used and final status; a run completes, gives up or is cut off, never two of these |
| Pipeline.UndisturbedRun | fastapi_taskflow/middleware.py:421-455 | without cancel or interrupt: min(first success + 1, retries + 1) attempts, SUCCESS exactly if one succeeded, else FAILED with the last error, retries_used and sleeps one less than attempts, the i-th sleep delay * backoff^i |
| Pipeline.TotalSleep | fastapi_taskflow/middleware.py:421-429 | n sleeps add up to the delay times 1 + backoff + ... + backoff^(n - 1): n delays at the default backoff of 1, else the closed geometric form |
| Pipeline.UndisturbedRunSleeps | fastapi_taskflow/middleware.py:421-455 | so that is what an undisturbed run of n + 1 attempts sleeps in all |
| Pipeline.SuccessWithoutReturnExactlyWhen | fastapi_taskflow/middleware.py:446-448 | SUCCESS without any attempt returning: exactly when retries < 0 or the first attempt is interrupted |
| Pipeline.IdempotentRun | fastapi_taskflow/middleware.py:216-261 | a key taken by another task ends the run as SUCCESS without a dispatch; a cancellation at the check leaves it as it was; a key is recorded exactly after an uncut SUCCESS, and owners are kept |
| Lifecycle.RunKeepsInv | fastapi_taskflow/middleware.py:236-404 | every step of every status writer keeps: SUCCESS and FAILED only at or after the end of an execution, REJECTED only without a callable, a live handle exactly while the function runs |
| Lifecycle.RejectedNeverStarts | fastapi_taskflow/wrapper.py:193-203 | once a record is REJECTED its function has not started and never will |
| Lifecycle.HandleAndUserCancel | fastapi_taskflow/router.py:493-517 | no handle before a dispatch or after the execution; a user's cancel is accepted exactly for PENDING records and for functions actually running |
| Lifecycle.FinalOverwrittenExactlyWhen | fastapi_taskflow/snapshot.py:277-327 | a SUCCESS or FAILED is overwritten exactly by flush_pending visiting a record it listed before it finished |
| Lifecycle.FinalIsFinal | fastapi_taskflow/snapshot.py:277-327 | with an atomic flush_pending, SUCCESS and FAILED are final over all writers |
| Lifecycle.SplitFlushOverwritesSuccess | fastapi_taskflow/snapshot.py:312-326 | a reachable run in which a finished task ends as INTERRUPTED |
| Lifecycle.CancelledReplacedExactlyWhen | fastapi_taskflow/router.py:493-500 | which steps replace a CANCELLED status |
| Lifecycle.UserCancelNeverPreventsAStart | fastapi_taskflow/router.py:493-500 | whatever the state and whatever follows, the function starts as often after a user's cancel as without it |
| Lifecycle.CancelledPendingStartsExactlyWhen | fastapi_taskflow/router.py:493-500 | so a cancelled PENDING record's function never starts if it was refused or is over, and otherwise starts exactly if routing, its turn, the key check and the dispatch come before any step that ends it there |
| Lifecycle.CancelledPendingStillRuns | fastapi_taskflow/router.py:493-500 | the ordinary run in which it starts |
| Lifecycle.CancellationLeaves | fastapi_taskflow/middleware.py:322-355 | what a cancellation leaves at each await: CANCELLED, PENDING or RUNNING |
| Lifecycle.HandledOnce | fastapi_taskflow/middleware.py:322-355 | whatever else happens, a cancelled execution writes at most once more, and its record never becomes SUCCESS or FAILED |
| Lifecycle.OwnWriteIsTheHandlers | fastapi_taskflow/middleware.py:322-355 | that write is the handler's choice, over a RUNNING that nobody has replaced |
| Lifecycle.HandledStatus | fastapi_taskflow/middleware.py:322-355 | without a visit by flush_pending the record stays RUNNING or gets the handler's status, CANCELLED after a shutdown only by a user's cancel |
| Lifecycle.FlushClassifies | fastapi_taskflow/snapshot.py:277-335 | flush_pending leaves no RUNNING record and gives each unfinished one exactly one of requeued, interrupted, unsaved |
| PipelineLifecycle.PipelineIsALifecycle | fastapi_taskflow/middleware.py:301-455 | for every world in which nobody else writes the record, the pipeline's final status and dispatches are those of a run of the lifecycle machine |
| TaskManagers.TaskManager.AddTask | fastapi_taskflow/wrapper.py:115-210 | a live duplicate is returned unchanged; a task refused by its full queue is REJECTED and scheduled nowhere; any other is PENDING with the request's fields and scheduled once: at once if eager, else in its queue, else by priority, else after the response; no key gets two live records |
| TaskManagers.TaskManager.CancelTask | fastapi_taskflow/router.py:478-528 | the reply and the effect of a cancel for every status and handle; a refusal changes nothing |
| Stores.TaskStore.FindByIdempotencyKey | fastapi_taskflow/store.py:179-192 | finds a record of the key that is neither FAILED nor INTERRUPTED exactly if there is one |
| Stores.TaskStore.UpdateStatus | fastapi_taskflow/store.py:194-206 | changes one record's status; an unknown id is ignored |
| Stores.TaskStore.Restore | fastapi_taskflow/store.py:217-227 | never overwrites a live record |
| Restart.PendingRowIsFaithfulExactlyWhen | fastapi_taskflow/backends/sqlite.py:242-294 | a requeued record is the saved one exactly if it carried nothing the pending table has no column for |
| Restart.Backend.SavePending | fastapi_taskflow/backends/sqlite.py:242-265 | replaces the whole pending table |
| Restart.Backend.ClaimPending | fastapi_taskflow/backends/sqlite.py:301-307 | takes a row away and says whether it was there |
| Restart.RowsKeep | fastapi_taskflow/backends/sqlite.py:209-294 | what each table keeps of a record, field by field: history all but the key and the tags, the pending table what is needed to run it again |
| Restart.SnapshotScheduler.Flush | fastapi_taskflow/snapshot.py:221-236 | exactly the finished records go to history, with their status and fields |
| Restart.SnapshotScheduler.FlushPending | fastapi_taskflow/snapshot.py:257-335 | every unfinished record is classified, interrupted ones go to history, and the rest replace the pending table if there are any |
| Restart.SnapshotScheduler.Load | fastapi_taskflow/snapshot.py:93-105 | history is restored under the live records |
| Restart.SnapshotScheduler.Requeue | fastapi_taskflow/snapshot.py:107-215 | dispatches exactly the saved tasks that are registered and not known to have succeeded, once each, to the queue of its record or to the event loop before there are queues, and leaves the pending table empty |
| Restart.SnapshotScheduler.Shutdown | fastapi_taskflow/manager.py:814-819 | both flushes in order |
| Restart.SnapshotScheduler.Startup | fastapi_taskflow/manager.py:706-756 | load, then requeue, then queues: no task is requeued into a queue |
| Restart.RestartPartition | fastapi_taskflow/snapshot.py:93-335 | what becomes of every record of a stopped process: in history with its status and fields, so loaded by the next process and not run again; or saved with what it needs, and dispatched exactly if registered and not known to have succeeded |
| Restart.OnlyOwnTasksReturn | fastapi_taskflow/snapshot.py:107-215 | only the stopped process's tasks are requeued |
| Restart.StopAndRestart | fastapi_taskflow/manager.py:706-819 | shutdown, startup and one more requeue on the same tables: the first requeue dispatches each task that is due for it once, the second nothing |
| Restart.PendingTableAfterShutdown | fastapi_taskflow/snapshot.py:332-335 | rows already in the pending table survive a shutdown exactly if it has nothing to requeue |
| Restart.SucceededIsNeverRequeued | fastapi_taskflow/snapshot.py:107-140 | a task that history knows to have succeeded is never run again, through any number of restarts |
| RequeueProtocol.EachRowHasOneFate | fastapi_taskflow/backends/sqlite.py:242-307 | any number of instances, any interleaving: a saved row is present or has exactly one fate, which never changes, and is dispatched at most once |
| RequeueProtocol.ClearWipesExactlyWhen | fastapi_taskflow/snapshot.py:211-214 | the final clear wipes a row exactly if it was saved after this instance loaded or skipped as completed |
| RequeueProtocol.SaveDuringRequeueIsWiped | fastapi_taskflow/snapshot.py:211-214 | the failing run: a task saved by one instance's shutdown is wiped, undispatched, by another one's final clear |
| RequeueProtocol.NothingIsForgotten | fastapi_taskflow/snapshot.py:107-215 | while no instance saves, a row that has left the table was claimed |
| RequeueProtocol.FinishedRequeueClaimsAll | fastapi_taskflow/snapshot.py:107-215 | and once any instance has finished its requeue, every row has been claimed |
| IdempotencyProtocol.OwnerNeverChanges | fastapi_taskflow/backends/sqlite.py:377-391 | a recorded key keeps its owner |
| IdempotencyProtocol.OwnersHaveRun | fastapi_taskflow/middleware.py:244-255 | the owner of a key is a task of that key that ran and succeeded |
| IdempotencyProtocol.LaterTasksSkip | fastapi_taskflow/middleware.py:216-242 | no other task of a recorded key that checks later starts its function; it ends as SUCCESS |
| IdempotencyProtocol.StartsExactlyWhen | fastapi_taskflow/middleware.py:216-242 | a check lets the function start exactly if it raised, there is no key, or the key is not another task's at that moment |
| IdempotencyProtocol.BothCanRun | fastapi_taskflow/middleware.py:216-261 | two tasks of one key both run if both check before either records |

## Left out

- Scheduler.PeriodicScheduler: entry objects are handles into a table of their fields, so that an entry shared by heap and index is one thing; object identity itself is not modelled.
- TaskQueues.TaskQueue: slots and histories are ghost fields; a slot task cancelled before its first step, which would keep its permit, is not modelled. Setting the event from another thread is one atomic step.
- QueueProtocol.FixedCapIsExact: a negative concurrency, which the configuration does not reject, is not modelled (asyncio refuses to build such a semaphore).
- RunLoop.FiresExactlyOnceInTime: that the loop is on time is assumed, not derived from its work; no refill and no claim of the row raises. The same holds for Timeliness.TakenInTime, Timeliness.MovedDeadlineIsKept and Deployments.ExactlyOneInstanceFires.
- RunLoop.RunKeepsValid: the loop's minimal sleep of a millisecond is part of its lag.
- IsoTime.UnconvertedOffsetShiftsTheRow: offsets are whole minutes.
- Deployments.FiringsInWindow: all instances read one clock, and ask for the lock of one entry with one lifetime.
- AsyncExecutors.AsyncExecutor.EnterDispatch: the semaphore is that of Python 3.11 and later, where a resumed waiter still counts as waiting.
- ScheduleIndex.RedisSchedule.LoadDue: scores are exact integers; Redis has doubles, which from about the year 2242 no longer tell microseconds apart.
- ScheduleIndex.SqlSchedule.LoadDue: returns the rows as a map, without ORDER BY; rows are UTC timestamps, whose text form is IsoTime's.
- Pipeline.ExecContext.Execute: a run whose record is missing from the store is not modelled; observers are awaits at which a cancellation may arrive, and log futures only their drain.
- PipelineLifecycle.PipelineIsALifecycle: covers the layers inside the idempotency check, for worlds in which nobody else writes the record.
- Restart.SnapshotScheduler.FlushPending: records are values in a map that are read again when visited, as the original's shared records are; with executions at rest in between.
- Restart.SnapshotScheduler.Requeue: a queue that refuses a requeued task, which cannot happen at startup, is not modelled; rows are visited in any order.
- Restart.RestartPartition: is about one process whose pending table starts empty, as a requeue leaves it; history and pending rows stand for what their columns read back as.
- Lifecycle.FinalIsFinal: is about one record; flush_pending's list is one bit of it, and the other records' steps do not touch it.
- RequeueProtocol.EachRowHasOneFate: a copy read from a row carries its batch, not its content.
- OneOffProtocol.Conservation: a save, a cancel or a claim is one atomic statement, as in SQL and in one Redis transaction; a failed save is not modelled.
- TaskManagers.TaskManager.AddTask: the new id is fresh, the effective priority, queue and eager flag are inputs, and argument validation and encryption are left out.
- TaskManagers.TaskManager.CancelTask: the audit log is the list of task ids.
- Cron evaluation and time zones: a cron entry is next due strictly later, by a gap that is an input.
- The PostgreSQL and MySQL backends, which issue the same statements as SQLite.
- Worker processes, thread pools and signal handlers: a dispatch returns, raises, is interrupted or is cancelled.
- Dashboards, HTTP plumbing, loggers, metrics, retention and the JSON column codecs.
- The retry endpoints, `merged_list` and `flush_one` failures, which are filters and overlays.
