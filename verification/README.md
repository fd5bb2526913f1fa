# Verified models of the game server's stateful components

A Dafny 4.11 model of the components of the server whose correctness is a matter
of state, loops or interleaving, with proofs of what they promise.

Each module follows one component:

- `RouterIo` is the step system of a router object: the IO lock with its waiting
  list and re-entrant guards, save coalescing by sequence numbers, and removal.
  Tasks give up control only while they wait for the lock and inside SaveObject, so
  one event is the code between two such points.  `RouterSafety`,
  `RouterDurability`, `RouterTheorems` and `RouterStranding` prove what every run keeps
  and which runs lose a wake-up; `RouterSaves` proves what each save call returns and
  in which order waiting tasks get their turn.
  `RouterObject` is the class with the object's fields; its methods are proved to
  take exactly the steps of `RouterIo`.
- `Actor` is an actor's pending queue, its concurrent runners and its running token.
- `AwaitSlot` is the one-slot resume channel of a task: the methods on its fields,
  and the protocol of yields, resumes and kills around them.
- `UniqueId` and `ShortId` are the block allocator for global ids over a shared
  counter, and the printer for short ids with a decoder for it.
- `RandomPools` is the depth-first pass that accepts a pool graph and caches what can
  come out of it.  `RandomDraws` has the draws: a tree records which number selected
  which element, `Yields` and `ValidDraw` say which trees a configuration allows, and
  the methods are proved to return the items of such a tree, with its numbers as the
  calls of the random generator, or an error with a cause.  `RandomTheorems` connects
  the two, and `RandomItems` says what a draw hands out without the functions that
  compute it.
- `Mail` is the compaction of the global mail list, against "drop the removable ones,
  then the k smallest"; `MailTheorems` says by positions which mails remain.
- `RateLimit` is the per-protocol request limit on a ring buffer, against a sliding
  window over whole request histories.
- `Binding` is the two-way link of sessions and users with its mutually recursive
  methods, on any closed heap of sessions and users.
- `UnlockIndex` is the unlock index, against a plain scan over all rows.
- `Cas` is the versioned write of a Redis record: the script, its clients, and how a
  client reads the script's answer.

Runs are sequences of events from an initial state; theorems about runs quantify
over all of them.  Clocks, database answers, random numbers and the order of Go maps
are parameters of events or arbitrary choices.

Where the code does not do what one would expect, the model follows the code, a lemma
gives a concrete run or input where one is needed, and another gives the exact
condition:

- tasks that wait for a router object's lock are left without a message on its way
  exactly when its live holder is killed, or an exiting task takes it, while somebody
  waits and nobody else is woken (`RouterStranding.StrandedExactlyByTheTwoSteps`); they
  then depend on their await timers or on a later release;
- a PreYield hook that fails leaks a message into the next await exactly when one was
  accepted before it failed (`AwaitSlot.HookFailureIsCleanIffStillOpen`);
- a request opens the way to more acceptances than the limit exactly when it resets
  the ring, that is, finds it full and the clock behind its oldest entry
  (`RateLimit.BreachOpensExactlyWithAReset`);
- the verdict on a CAS update differs from what happened exactly when the script found
  one version more than expected, or no version where one was expected
  (`Cas.VerdictIsExactUnlessMisread`); without deletions, a rejected update is reported
  as a success exactly when one other write came between
  (`Cas.OneInterveningWriteLooksLikeSuccess`);
- a row with a module condition is listed exactly when the range passes 0
  (`UnlockIndex.ModuleConditionsSitAtZero`);
- an id is returned together with an error exactly when an earlier fetch of the same
  call failed (`UniqueId.UniqueIdPool.Generate`, `UniqueId.GoodIdWithAnError`);
- an exclusive pool that has to choose cannot be drawn from exactly when its weights,
  below 2^32 in sum, reach 2^31 (`RandomTheorems.HeavyPoolsYieldNothing`).

`dafny verify dfyconfig.toml` checks the project.

## Model

| member | source | states |
|---|---|---|
| `RouterObject.RouterObject.GetAwaitTaskId` | src/component/router/router_object_base.go:336-345 | the recorded holder is returned, and forgotten first if it is exiting |
| `RouterObject.RouterObject.ResumeAwaitTask` | src/component/router/router_object_base.go:372-400 | the loop with its failed-task mark terminates and does exactly one thing: it drops the waiters in front that cannot be woken and wakes the first that can |
| `RouterObject.RouterObject.ReleaseGuard` | src/component/router/router_object_base.go:164-181 | only the guard that took the lock frees it, and only while its task is still the holder; then the first waiter is woken |
| `RouterObject.RouterObject.TakeGuard` | src/component/router/router_object_base.go:141-162 | a nested take passes, a free lock is taken, otherwise the task starts to wait |
| `RouterObject.RouterObject.Wait` | src/component/router/router_object_base.go:357-365 | one turn of the waiting loop: queue and yield; an exiting task cannot yield and stays runnable |
| `RouterObject.RouterObject.WakeUp` | src/component/router/router_object_base.go:357-370 | after the yield the task leaves the queue, tests the lock again, and takes it or waits again |
| `RouterObject.RouterObject.InternalSaveObject` | src/component/router/router_object_base.go:518-534 | a writable object hands out the next number, then the guard takes the lock |
| `RouterObject.RouterObject.SaveOwned` | src/component/router/router_object_base.go:539-555 | behind the lock a save is refused, answered from an earlier save, or started with the numbers and the memory version it covers |
| `RouterObject.RouterObject.SaveReturns` | src/component/router/router_object_base.go:555-566 | a finished save raises savedSequence to what it covered and answers its caller |
| `RouterObject.RouterObject.RemoveObject` | src/component/router/router_object_base.go:411-415 | a removal takes the lock first |
| `RouterObject.RouterObject.RemoveOwned` | src/component/router/router_object_base.go:417-432 | behind the lock a removal changes the route and starts its own save with a new number |
| `RouterObject.RouterObject.Answer` | src/component/router/router_object_base.go:432-441 | the removal downgrades the object on success and restores route id and version on error |
| `RouterSafety.StepLock` | src/component/router/router_object_base.go:336-400 | every step of every task keeps the lock invariant, with the queue without duplicates and no lost wake-up on an unpoisoned lock |
| `RouterSafety.WakeFirstLock` | src/component/router/router_object_base.go:372-400 | on a free lock the wake-up loop leaves a woken task behind whenever somebody waits |
| `RouterDurability.ReachableInv` | src/component/router/router_object_base.go:518-567 | every reachable state satisfies the lock, save and route invariants |
| `RouterTheorems.LockIsExclusive` | src/component/router/router_object_base.go:141-181 | at most one live task owns the object, it is the recorded holder, one of its guards will release it, and only it can be saving |
| `RouterTheorems.HeldUntilItsGuardCloses` | src/component/router/router_object_base.go:141-181 | a live holder loses the lock by exactly one event: closing the guard that took it |
| `RouterTheorems.NestedTakesChangeNothing` | src/component/router/router_object_base.go:147-150 | nested takes by the owner, to any depth, are granted at once; opening and closing them leaves the state as it was |
| `RouterStranding.StepStrandsExactly` | src/component/router/router_object_base.go:336-400 | a step leaves waiters stranded (no live holder, someone waits, nobody woken) if and only if it kills the live holder, or lets an exiting task take the lock, while somebody waits and nobody else is woken |
| `RouterStranding.StrandedExactlyByTheTwoSteps` | src/component/router/router_object_base.go:336-400 | a run passes through a stranded state if and only if it takes one of those two steps |
| `RouterStranding.SomeWaiterIsOnItsWay` | src/component/router/router_object_base.go:351-400 | no lost wake-up: in a run without those steps, whenever there is no live holder and someone waits, a woken task exists and gets the lock when it runs |
| `RouterStranding.UnpoisonedLockLosesNoWakeup` | src/component/router/router_object_base.go:351-400 | in particular while no exiting task has ever held the lock |
| `RouterStranding.KillFreeRunsNeverStrand` | src/component/router/router_object_base.go:351-400 | without kills nobody is ever stranded |
| `RouterStranding.KilledHolderStrandsWaiter` | src/component/router/router_object_base.go:173-176 | a holder killed while holding strands its waiter: a concrete reachable run |
| `RouterStranding.ExitingWaiterStrandsTheNext` | src/component/router/router_object_base.go:357-370 | a waiter killed on its way to the lock takes it and strands the next one: a concrete run in which nobody is killed while holding |
| `RouterObject.RouterObject.Perform` | src/component/router/router_object_base.go:141-567 | every event takes the object from one reachable state to the next, so the theorems about reachable states hold of the class |
| `RouterObject.RouterObject.PerformAll` | src/component/router/router_object_base.go:141-567 | and so does every run of events |
| `RouterTheorems.KillFreeRunsAreUnpoisoned` | src/component/router/router_object_base.go:336-345 | without kills no exiting task ever holds the lock, so the unpoisoned results hold of every kill-free run |
| `RouterTheorems.AcknowledgedSaveIsWritten` | src/component/router/router_object_base.go:518-567 | an acknowledged save is covered by a successful SaveObject that started after its number was issued and contains all that was in memory then; on an unpoisoned lock the database still has it |
| `RouterTheorems.NoRedundantSave` | src/component/router/router_object_base.go:543-552 | while no exiting task has held the lock, no save runs for a number that a finished save covers, and a save in flight is at least as new as the database |
| `RouterTheorems.RemovalIsNeverCoalesced` | src/component/router/router_object_base.go:411-432 | a removal that gets hold of a writable object, at once or after waiting, always reaches its own SaveObject, with the new route in place |
| `RouterTheorems.SavingIsUndisturbed` | src/component/router/router_object_base.go:552-555 | no event of any other task or timer changes a save in flight |
| `RouterTheorems.SavingSurvives` | src/component/router/router_object_base.go:552-555 | nor does any run of such events |
| `RouterTheorems.RemovalIsAllOrNothing` | src/component/router/router_object_base.go:411-442 | over any run between start and end of its save: on success the object is not writable and written, with the new route if no exiting task has held the lock and the save set no route of its own; on error the route is exactly the old one |
| `RouterTheorems.RouteIsCommitted` | src/component/router/router_object_base.go:422-437 | while no exiting task has held the lock, outside a removal in flight the route is the one left by the last finished operation |
| `RouterSaves.SaveCallIsAnsweredExactly` | src/component/router/router_object_base.go:539-555 | over all runs a save call that gets the lock of a writable object is answered OK at once if and only if a finished write covers its number, otherwise it starts its own write of all that is in memory; it is answered with an error at once if and only if the object is not writable then |
| `RouterSaves.OwnWriteDecides` | src/component/router/router_object_base.go:552-567 | whatever happens while its own write runs, the call is then answered OK if and only if its SaveObject succeeds, and that write covers every number issued when it began |
| `RouterSaves.SaveCallTakesANumber` | src/component/router/router_object_base.go:518-534 | a save call on a writable object takes the next number, which stands for all that is in memory, and waits with it if the lock is taken |
| `RouterSaves.WaitingKeepsItsCall` | src/component/router/router_object_base.go:351-370 | a waiting task keeps the call it waits with until it gets the lock, whatever the others do |
| `RouterSaves.ReleaseWakesTheFirst` | src/component/router/router_object_base.go:372-400 | a release wakes the first task of the list that waits, drops those in front of it, and wakes nobody else |
| `RouterSaves.NewcomersStandLast` | src/component/router/router_object_base.go:351-365 | a task that has to wait, or to wait again, stands at the end of the list |
| `RouterSaves.NobodyOvertakes` | src/component/router/router_object_base.go:351-400 | no event changes the order of two tasks that stay in the list, other than the one that runs |
| `RouterSaves.LateRemovalDoesNothing` | src/component/router/router_object_base.go:411-420 | a removal that gets hold of an object which is not writable any more succeeds without a save and without touching the route |
| `RouterSaves.WhoChangesTheObject` | src/component/router/router_object_base.go:411-567 | saves, waits and refused calls touch neither the object in memory nor its flags; only a removal whose save succeeds makes it a cache |
| `Actor.TokenIsExclusive` | src/component/dispatcher/actor_executor.go:46-72 | a set running action always holds the token lock, and no two actions hold it |
| `Actor.StartedOnceInOrder` | src/component/dispatcher/task_action_impl.go:98-196 | queued actions start in queue order, each at most once, and the rest is exactly what is pending |
| `Actor.NoStrandedWork` | src/component/dispatcher/task_action_impl.go:98-196 | while no push failed, every pending action has a runner of its own that is scheduled or looping, however many runners are inside callbacks |
| `Actor.HeadCanStart` | src/component/dispatcher/task_action_impl.go:98-157 | with no action running, at most three events start the head of the queue |
| `Actor.QueuedExactlyWhenThereIsRoom` | src/component/dispatcher/task_action_impl.go:160-195 | an action is queued, last, if and only if no more than the configured number is pending; a refused one changes nothing |
| `Actor.RunnerIsBounded` | src/component/dispatcher/task_action_impl.go:98-135 | from its start to its end a runner begins at most the configured number of callbacks, whatever else happens |
| `Actor.BeginsExactly` | src/component/dispatcher/task_action_impl.go:106-122 | a callback can begin if and only if a runner with begins left finds something pending and no running action; it begins the head |
| `Actor.ReleasingTheToken` | src/component/dispatcher/actor_executor.go:55-72 | a yielding action gives the token back and schedules a runner, a finished one gives it back and schedules none |
| `Actor.WantsTheTokenExactly` | src/component/dispatcher/task_manager.go:329-332 | an action wants the token exactly when its callback begins, it takes over an actor, or it resumes |
| `Actor.FreeTokenCanBeTaken` | src/component/dispatcher/actor_executor.go:46-53 | an action that wants the free token gets it in two events and is then the running one |
| `Actor.ExecInv` | src/component/dispatcher/task_manager.go:100-121 | token, queue and runner invariants hold over every interleaving |
| `AwaitSlot.TaskAwait.TrySetupAwait` | src/component/dispatcher/task_action_base.go:299-347 | the fields after the call are those of Setup |
| `AwaitSlot.TaskAwait.TryFinishAwait` | src/component/dispatcher/task_action_base.go:349-384 | the fields after the call are those of Finish |
| `AwaitSlot.TaskAwait.TryKillAwait` | src/component/dispatcher/task_action_base.go:386-414 | the fields after the call are those of KillAwait |
| `AwaitSlot.TaskAwait.Receive` | src/component/dispatcher/task_manager.go:316-317 | the receive empties the slot's channel |
| `AwaitSlot.DeliveredExactlyOnce` | src/component/dispatcher/task_manager.go:265-348 | every accepted message is received once, in order, by the await it was accepted for; no await accepts two |
| `AwaitSlot.ResumeAcceptedExactlyWhenOpen` | src/component/dispatcher/task_action_base.go:349-384 | a resume is accepted if and only if it names the type and sequence of the open await; otherwise nothing changes |
| `AwaitSlot.KillDeliveredExactlyWhenOpen` | src/component/dispatcher/task_action_base.go:386-418 | a kill or timeout is the one message of the current await, closes it and is received next, if and only if the task waits and nothing was accepted for its await; otherwise nothing changes, and neither is an error |
| `AwaitSlot.KillRefusedExactlyByUnreadMessage` | src/component/dispatcher/task_action_base.go:401-411 | over all runs, also those in which hooks fail late, a kill is refused with an error if and only if there is an await and its channel holds a message nobody received |
| `AwaitSlot.YieldAlwaysStarts` | src/component/dispatcher/task_action_base.go:308-347 | an idle task can always start to wait, for anything, unless another action runs; nothing is accepted for the new await yet |
| `AwaitSlot.HookFailureIsCleanIffStillOpen` | src/component/dispatcher/task_manager.go:273-289 | a failing PreYield hook leaves a clean slot if and only if nothing was accepted before it failed |
| `AwaitSlot.StaleMessageReachesNextAwait` | src/component/dispatcher/task_manager.go:273-289 | otherwise the stale message is delivered to the next await: a concrete run |
| `UniqueId.PackValue` | src/component/uuid/uuid.go:143 | shift, or and offset give block times range plus index plus 1000000, modulo 2^64 |
| `UniqueId.PackCollides` | src/component/uuid/uuid.go:143 | two packed ids are equal if and only if the indexes are equal and the blocks agree modulo the number of blocks |
| `UniqueId.StepInv` | src/component/uuid/uuid.go:88-147 | each locked stretch keeps: fetched blocks are new, started once, owned by one pool, and indexes stay below the range |
| `UniqueId.IdsCollideExactlyOnWrap` | src/component/uuid/uuid.go:71-147 | over any run of nodes, waiters and abandoned fetches, two ids are equal if and only if their different blocks wrap to the same one |
| `UniqueId.IdsAreUnique` | src/component/uuid/uuid.go:71-147 | so ids are unique as long as the counter fits the id |
| `UniqueId.OneFetchAtATime` | src/component/uuid/uuid.go:101-130 | over all runs at most one live task of a node is at the database |
| `UniqueId.BlocksAreUsedUp` | src/component/uuid/uuid.go:119-130 | over all runs a node asks for a block only if it has none or has handed out all 32 or 8192 indexes of its block |
| `UniqueId.CounterCountsBumps` | src/component/uuid/uuid.go:130-141 | the database counter counts the calls that reached it, answered or not |
| `UniqueId.DoneLetsOthersProceed` | src/component/uuid/uuid.go:149-170 | when the asking call ends, every task of the node may proceed |
| `UniqueId.UniqueIdPool.Generate` | src/component/uuid/uuid.go:86-176 | one call among other tasks that change the pool between its turns: which turn ends it, which id it returns, how it leaves the pool, and exactly when it reports failure |
| `UniqueId.UniqueIdPool.TakeTurn` | src/component/uuid/uuid.go:94-145 | one turn: wait, fail, or hand out an index of the pool's block or of a new one |
| `UniqueId.CallReturnsItsFirstSuccess` | src/component/uuid/uuid.go:94-147 | the call returns the id of its first turn that finds an index left or gets a new block while no other live task asks, and leaves the pool behind that index |
| `UniqueId.CallWithoutSuccessReturnsNothing` | src/component/uuid/uuid.go:94-176 | without such a turn, or when the task is exiting before it, the call returns 0 and fails |
| `UniqueId.GoodIdWithAnError` | src/component/uuid/uuid.go:131-146 | a failed first fetch and an answer of 1: the call returns the first id of block 1 and an error |
| `UniqueId.TurnChoosesItsStep` | src/component/uuid/uuid.go:88-129 | a turn hands out an id at once exactly when the step system can allocate, and asks the database exactly when it can start a fetch |
| `UniqueId.TurnAllocates` | src/component/uuid/uuid.go:143-146 | such a turn is an Allocate step, with the same id and the same pool |
| `UniqueId.TurnAsks` | src/component/uuid/uuid.go:125-136 | a turn that asks is a StartFetch step, followed, whatever others do, by the answer or the error |
| `UniqueId.TurnInstalls` | src/component/uuid/uuid.go:138-146 | an answered turn issues its id by an Install step, whatever others do meanwhile |
| `UniqueId.UniqueIdPool.WakeAll` | src/component/uuid/uuid.go:149-170 | a call that asked the database and is still named by the pool resumes every live waiter, in order |
| `UniqueId.LiveInOrder` | src/component/uuid/uuid.go:155-168 | those resumed are exactly the live waiters, each where it stood |
| `ShortId.DigitsOfWord` | src/component/uuid/uuid.go:196-202 | a 64-bit value has at most 13 digits, so the buffer never truncates |
| `ShortId.EncodeValue` | src/component/uuid/uuid.go:191-211 | the buffer loop prints the length letter and the base-36 digits |
| `ShortId.DecodeAfterEncode` | src/component/uuid/uuid.go:191-211 | a printed value can be read off the front of any text, with the rest intact |
| `ShortId.EncodingsAreUniquelyDecodable` | src/component/uuid/uuid.go:191-211 | concatenations are equal if and only if their parts are |
| `ShortId.Sequence.Next` | src/component/uuid/uuid.go:213-219 | the counter is a uint32 that skips 0 |
| `ShortId.SequenceRepeatsExactlyByPeriod` | src/component/uuid/uuid.go:213-219 | two calls get the same number if and only if a multiple of 2^32-1 calls lies between them |
| `ShortId.GenerateShortId` | src/component/uuid/uuid.go:227-243 | the id is S1 and the three printed values; a clock before 2022 counts as 0 |
| `ShortId.ShortIdReadsBack` | src/component/uuid/uuid.go:227-243 | behind the prefix a decoder reads the node, the seconds since 2022 (none before), the sequence number, and nothing else |
| `ShortId.PrintedExamples` | src/component/uuid/uuid.go:180-211 | the printed forms of 0 and 36 |
| `ShortId.ShortIdDeterminesItsParts` | src/component/uuid/uuid.go:227-243 | two ids are equal if and only if node and sequence number are and the clock readings are, all readings up to 2022-01-01 being one |
| `ShortId.NearbyShortIdsDiffer` | src/component/uuid/uuid.go:227-243 | ids of one node fewer than 2^32-1 calls apart differ, whatever the clock does |
| `RandomPools.PoolIndex.InitPool` | src/component/config/excel_random_pool.go:113-145 | the recursion terminates; on success the pool is settled and all other pools are left as they were; on error the configuration has the flaw that is reported |
| `RandomPools.PoolIndex.InitAll` | src/component/config/excel_random_pool.go:98-110 | for every order of the roots: success settles every pool, an error names a real flaw (missing pool, nested custom pool, cycle or shared pool) |
| `RandomPools.AcceptedGraphIsAcyclic` | src/component/config/excel_random_pool.go:113-145 | an accepted pool graph has no cycles, no missing pools and no custom pool below the first level |
| `RandomPools.ObtainedIsWhatPathsLeadTo` | src/component/config/excel_random_pool.go:123-143 | an item type is in a pool's ObtainedElements if and only if some path of pools leads to it |
| `RandomPools.AcceptedOnlyShares` | src/component/config/excel_random_pool.go:113-122 | sharing a pool is the only flaw an accepted configuration can have |
| `RandomDraws.Int32` | src/component/config/excel_random_pool.go:350 | conversion to 32 bits is the identity in range and never enlarges a non-negative number |
| `RandomItems.Int32Wraps` | src/component/config/excel_random_pool.go:350 | conversion to 32 bits drops a multiple of 2^32 |
| `RandomDraws.SelectedByItsWeight` | src/component/config/excel_random_pool.go:252-259 | an element is selected for exactly its weight's worth of consecutive numbers |
| `RandomDraws.DrawingConserves` | src/component/config/excel_random_pool.go:251-276 | drawing without replacement: chosen and remaining are together the start, one per number, and the weights split accordingly |
| `RandomDraws.Drawing.Roll` | src/component/config/excel_random_pool.go:252-262 | the scan stops at the selected element and never runs off the end |
| `RandomDraws.Drawing.DrawPool` | src/component/config/excel_random_pool.go:152-187 | terminates for any configuration; success returns the items of a draw tree the configuration allows and restores `used`; an error has a cause |
| `RandomDraws.Drawing.HandleAll` | src/component/config/excel_random_pool.go:318-332 | every valid element, `times` times, in order |
| `RandomDraws.Drawing.HandleIndependent` | src/component/config/excel_random_pool.go:190-222 | `times` selections among the valid elements by weight, or none when the 32-bit sum is not positive |
| `RandomDraws.Drawing.HandleExclusive` | src/component/config/excel_random_pool.go:225-249 | all valid elements when `times` reaches their number, else a drawing without replacement |
| `RandomDraws.Drawing.DrawExclusively` | src/component/config/excel_random_pool.go:251-277 | swap-remove and the running sum keep to the drawing without replacement; the generator is only asked for a positive sum or the pool is too heavy |
| `RandomDraws.Drawing.HandleCustom` | src/component/config/excel_random_pool.go:281-315 | exactly the positions asked for, when they are as many as `times`, in range and distinct; otherwise the matching error |
| `RandomDraws.Drawing.AddRandomResult` | src/component/config/excel_random_pool.go:336-365 | a count from the generator within the bounds, then one item of that count or that many nested draws (count cut to 32 bits), with every generator call on record |
| `RandomDraws.Drawing.RandomWithPool` | src/component/config/excel_random_pool.go:17-41 | `count` independent draws, or the first error |
| `RandomTheorems.ExclusiveTakesDistinct` | src/component/config/excel_random_pool.go:225-278 | an exclusive pool yields min(times, valid) elements, none more often than configured |
| `RandomItems.ValidElementsInOrder` | src/component/config/excel_random_pool.go:372-374 | the elements that can be drawn are those with a type, a positive least count and a positive weight, in their order |
| `RandomItems.AllYieldsEverything` | src/component/config/excel_random_pool.go:318-332 | a pool of kind all yields its valid elements in order, over and over, as often as it says |
| `RandomItems.IndependentSelectsByWeight` | src/component/config/excel_random_pool.go:190-222 | an independent pool draws as many numbers as it says, each selecting by weight among all valid elements; without a positive 32-bit sum it yields nothing |
| `RandomItems.EachNumberChooses` | src/component/config/excel_random_pool.go:251-276 | each number of an exclusive pool selects by weight among what is left, and the last element takes the place of the selected one |
| `RandomItems.CustomYieldsThePositions` | src/component/config/excel_random_pool.go:290-314 | a custom pool yields the valid elements at the given positions, in the order asked for |
| `RandomItems.PositionsDecide` | src/component/config/excel_random_pool.go:281-303 | a custom pool yields something if and only if the positions are as many as it says, in range and distinct; each error names its own fault |
| `RandomItems.CountsAddUp` | src/component/config/excel_random_pool.go:336-365 | of each item type a draw hands out exactly the counts drawn for the leaf picks of that type, at any depth |
| `RandomItems.PlainItemsInOrder` | src/component/config/excel_random_pool.go:360-364 | without nested pools there is one item per pick, of its type and count, in the order of the picks |
| `RandomItems.CountsWithinBounds` | src/component/config/excel_random_pool.go:336-365 | every item comes from an element of its type in a pool that some path leads to, and its count lies between that element's bounds |
| `RandomItems.OneNestedDrawPerUnit` | src/component/config/excel_random_pool.go:349-358 | at any depth a pick that stands for a pool carries exactly one draw from it per unit of its count, while the count is below 2^31 |
| `RandomItems.EveryCountCanBeDrawn` | src/component/config/excel_random_pool.go:336-348 | between an element's bounds every count can come out, each for one number of the generator |
| `RandomItems.NumbersDetermineTheDraw` | src/component/config/excel_random_pool.go:152-365 | two draws from a pool whose generator calls agree are the same, and no draw's calls are the beginning of another's |
| `RandomItems.SameNumbersSameItems` | src/component/config/excel_random_pool.go:17-41 | the same request answered from the same numbers gives the same items in the same order |
| `RandomTheorems.DrawnItemsAreObtainable` | src/component/config/excel_random_pool.go:152-187 | after a successful pass every drawn item has a type in the pool's ObtainedElements, for all numbers |
| `RandomTheorems.ErrorsAfterPass` | src/component/config/excel_random_pool.go:152-187 | after a successful pass a draw never reports a missing or recursive pool; the errors that remain and the pool responsible are named |
| `RandomItems.CauseExplained` | src/component/config/excel_random_pool.go:152-187 | an error arises along pools that are drawn from and refer to one another, in a missing pool, one already being drawn from, or one with a fault of its own, and is named accordingly |
| `RandomTheorems.HeavyPoolsYieldNothing` | src/component/config/excel_random_pool.go:225-252 | an exclusive pool that has to choose, with weights below 2^32 in sum, yields anything if and only if the sum is below 2^31 |
| `RandomTheorems.PlainPoolsNeverFail` | src/component/config/excel_random_pool.go:152-187 | with all, independent and 32-bit exclusive pools no draw fails |
| `Mail.Marked` | src/component/mail/global_mail.go:87-97 | the pending-remove copy has the REMOVED bit, otherwise the same bits, and capped times |
| `Mail.MailBox.Drop` | src/component/mail/global_mail.go:123-136 | one mail leaves the list in place and its marked copy is appended to the pending-remove list |
| `Mail.MailBox.ClampedTime` | src/component/mail/global_mail.go:105-110 | the compact time is clamped to the delivery time and its offset |
| `Mail.MailBox.Scan` | src/component/mail/global_mail.go:80-116 | the in-place scan removes exactly the removable mails and selects the first of the rest in (clamped time, position) order |
| `Mail.MailBox.Capacity` | src/component/mail/global_mail.go:36-55 | the cap plus the reserve for mails that start in the future |
| `Mail.MailBox.EvictDownTo` | src/component/mail/global_mail.go:73-137 | the nested loops evict exactly as many mails as exceed the cap after the removable ones are gone |
| `Mail.MailBox.Compact` | src/component/mail/global_mail.go:27-138 | a list within its cap is untouched, an overfull one is compacted |
| `Mail.EvictionKeepsTheLatest` | src/component/mail/global_mail.go:73-137 | evicting one by one equals dropping the k smallest by (clamped time, position), order kept |
| `MailTheorems.ClampedTime` | src/component/mail/global_mail.go:105-110 | the compact time is the start time, or the nearer end of the offset that begins with the delivery |
| `MailTheorems.CapacityIsCountPlusReserve` | src/component/mail/global_mail.go:36-50 | the capacity is the configured count plus a reserve of at most one per mail that starts in the future |
| `MailTheorems.CompactionMeetsItsSpecification` | src/component/mail/global_mail.go:57-137 | by positions: the mails that remain are in order and may stay; none that may stay goes unless the capacity forces it; those forced out are older, by clamped time and position, than all that remain; all others are pending removal exactly once, marked |
| `Mail.KeptLength` | src/component/mail/mail_utils.go:40-48 | kept and removable mails together are the list |
| `RateLimit.Ring.Check` | src/component/user_controller/task_action_cs_base.go:401-423 | the ring's fields change as the code says, and for the limit it was made with, the only one it meets, its contents, oldest first, change as Request says and no index leaves the array |
| `RateLimit.SafeExactlyUpToItsLength` | src/component/user_controller/task_action_cs_base.go:393-419 | whatever the requests, the ring's indexes stay in its array if and only if the limit is at most the length it was made with |
| `RateLimit.Admit` | src/component/user_controller/task_action_cs_base.go:372-426 | no option or no limit passes, a disabled protocol never does, otherwise the ring decides, whatever its length |
| `RateLimit.RingHoldsTheLatest` | src/component/user_controller/task_action_cs_base.go:401-423 | with any clock the ring holds the latest accepted times in order, and since the last reset the (i+cap)-th is a window after the i-th |
| `RateLimit.NoWindowExceedsTheCap` | src/component/user_controller/task_action_cs_base.go:401-423 | with any clock: until the ring is reset no window of that length has more than cap acceptances |
| `RateLimit.SteadyClockKeepsTheCap` | src/component/user_controller/task_action_cs_base.go:401-423 | in particular with a clock that does not go back |
| `RateLimit.BreachOpensExactlyWithAReset` | src/component/user_controller/task_action_cs_base.go:409-415 | a request makes more than cap acceptances in one window possible, with no reset after it, if and only if it resets the ring |
| `RateLimit.ResetOpensABreach` | src/component/user_controller/task_action_cs_base.go:411-415 | after every reset, whatever the history, cap-1 or cap requests break the bound |
| `RateLimit.BackwardClockExceedsTheCap` | src/component/user_controller/task_action_cs_base.go:411-415 | a clock that goes back breaks the bound: a concrete history |
| `RateLimit.DeniedExactlyWhenFull` | src/component/user_controller/task_action_cs_base.go:409-423 | a request is denied if and only if cap accepted ones lie in the window that ends with it |
| `RateLimit.RingIsSlidingWindow` | src/component/user_controller/task_action_cs_base.go:401-423 | over all request histories the ring accepts exactly what the sliding-window limiter accepts |
| `Binding.Session.BindUser` | src/component/user_controller/session.go:162-193 | the mutual recursion terminates and joins both ends, releasing exactly their old partners |
| `Binding.Session.UnbindUser` | src/component/user_controller/session.go:211-223 | a matching or unspecified user is released on both sides |
| `Binding.Session.Close` | src/component/user_controller/session.go:105-108 | closing releases the user |
| `Binding.User.BindSession` | src/component/user_controller/user_cache.go:278-302 | the same from the user's side |
| `Binding.User.UnbindSession` | src/component/user_controller/user_cache.go:304-325 | a matching or unspecified session is released on both sides |
| `Binding.JoinLinks` | src/component/user_controller/session.go:162-193 | joining keeps the links one to one; exactly the new pair comes and the old pairs of both ends go |
| `Binding.LeaveSessionLinks` | src/component/user_controller/user_cache.go:304-325 | leaving keeps the links one to one and removes exactly the named pair |
| `Binding.LeaveUserLinks` | src/component/user_controller/session.go:211-223 | the same from the session's side |
| `Binding.RunCommands` | src/component/user_controller/user_cache.go:278-325 | any sequence of bind, unbind and close calls from either side keeps the links one to one and changes exactly the named pairs |
| `UnlockIndex.AddUnit` | src/component/config/excel_unlock_config_index.go:225-255 | find-or-append lists one hit more and keeps every value and function single |
| `UnlockIndex.Indexer.BuildRows` | src/component/config/excel_unlock_config_index.go:182-258 | the index grows by exactly the hits of the rows |
| `UnlockIndex.Sort` | src/component/config/excel_unlock_config_index.go:175-178 | ascending order, same entries |
| `UnlockIndex.Indexer.BuildAll` | src/component/config/excel_unlock_config_index.go:153-180 | the index lists each condition of each row as often as a plain scan meets it, in ascending order, each value once |
| `UnlockIndex.FirstAbove` | src/component/config/excel_unlock_config_index.go:301-307 | the binary search finds the first value above the bound |
| `UnlockIndex.Indexer.GetUnlockDataRange` | src/component/config/excel_unlock_config_index.go:284-319 | the entries with previous < value <= new; it fails if and only if the range is reversed over some value and larger values exist |
| `UnlockIndex.Indexer.GetUnlockData` | src/component/config/excel_unlock_config_index.go:321-358 | the entry with exactly that value, if there is one |
| `UnlockIndex.AdjacentRangesConcatenate` | src/component/config/excel_unlock_config_index.go:284-319 | adjacent ranges concatenate |
| `UnlockIndex.RangeAgreesWithScan` | src/component/config/excel_unlock_config_index.go:284-319 | a range query lists each hit in range as often as a plain scan of all rows, and nothing else |
| `UnlockIndex.RangeInOrder` | src/component/config/excel_unlock_config_index.go:284-319 | the entries of a range query are exactly those in range, each where it stood |
| `UnlockIndex.ListedOncePerConditionPassed` | src/component/config/excel_unlock_config_index.go:168-319 | a row is listed under a value in range once for each of its conditions that waits for this value, and under no other |
| `UnlockIndex.ListedExactlyWhenAConditionIsPassed` | src/component/config/excel_unlock_config_index.go:168-319 | a row is listed under a value if and only if one of its conditions of that kind waits for it and it lies in (previous, new]; level, quest and item conditions wait for their own number, times for their start if it is near enough |
| `UnlockIndex.ModuleConditionsSitAtZero` | src/component/config/excel_unlock_config_index.go:260-282 | module conditions have no case in the switch: a row with one is listed if and only if the range passes 0, whatever the module |
| `UnlockIndex.ReachingAModuleListsNothing` | src/component/config/excel_unlock_config_index.go:260-282 | reaching the number of a module lists nothing |
| `Cas.RedisHash.EvalCas` | src/component/dispatcher/redis_message_dispatcher.go:74-89 | the script's effect on version and data, and the version it returns |
| `Cas.RecordIsTheLastWrite` | src/component/dispatcher/redis_message_dispatcher.go:74-89 | over all runs the record is what the last applied script since the last deletion wrote, forced or not, its data and the version after the one it found; nothing else leaves a trace |
| `Cas.ScriptWritesItsCallsData` | src/component/db/hash_table_set.go:450-508 | whatever happens between a call and its script, the script writes the call's data if and only if the call is forced, the record has no version, or it has the version the client knew |
| `Cas.EveryWaitCanEnd` | src/component/db/hash_table_set.go:489-515 | over all runs the script a client waits for is in flight, so an answer, a failure or giving up ends the wait |
| `Cas.LoadThenUpdateIsApplied` | src/component/db/hash_table_set.go:450-530 | a client that has just read the version has its next undisturbed update applied and is told so |
| `Cas.GivenUpForcedCallForgetsTheVersion` | src/component/db/hash_table_set.go:457-508 | a forced call that is given up makes its client forget the version: its next unforced update of an existing record is rejected |
| `Cas.GivenUpCallKeepsTheVersion` | src/component/db/hash_table_set.go:457-508 | an unforced call that is given up does not |
| `Cas.VerdictIsExactUnlessMisread` | src/component/db/hash_table_set.go:450-530 | over all runs, with scripts that outlive their calls, success is reported for exactly the applied writes, except if and only if the write was rejected one version ahead or the record was gone |
| `Cas.EveryVersionIsWrittenOnce` | src/component/dispatcher/redis_message_dispatcher.go:74-89 | without deletions the applied writes found versions 0, 1, 2, ...: the version counts them and none is built upon twice, not even by abandoned scripts |
| `Cas.OneInterveningWriteLooksLikeSuccess` | src/component/db/hash_table_set.go:453-528 | without deletions an update is applied if and only if no write intervened, and reports success if and only if at most one did |
| `Cas.RetryIsApplied` | src/component/db/hash_table_set.go:450-528 | after any answer the client knows the version: an undisturbed next update is applied and reported so |
| `Cas.BothCreatorsReportSuccess` | src/component/db/hash_table_set.go:450-530 | two clients that create a record at once both report success, and one write is lost: a concrete run |
| `Cas.GivenUpUpdateIsStillWritten` | src/component/db/hash_table_set.go:457-508 | a call given up by its caller is written all the same: a concrete run |

## Left out

Of the router object:

- RouterTheorems.RemovalIsAllOrNothing: starts where the removal gets hold of a writable object; for the others there is RouterSaves.LateRemovalDoesNothing.
- Pulling an object or its cache, which also replaces the object in memory; the flags such code flips are the event SetFlags.
- SaveObject called directly, outside the lock, as the user manager does once.
- Progress of a killed waiter: it cannot yield and turns in its loop until the lock is free.
- Timers, visit and save times, and the actor token of the waiting tasks.

Of tasks and actors:

- Actor.NoStrandedWork: counts failed pushes, because the code neither retries them nor reports them to the runner.
- AwaitSlot.DeliveredExactlyOnce: requires that hooks which fail have not resumed their task, which the HTTP dispatcher's hook does not meet.
- The await timer's own goroutine: its kill is the event TryKill at any time.
- Finish callbacks, task timeouts and the response path.

Of ids:

- UniqueId.UniqueIdPool.Generate: takes what other tasks do between its turns as a parameter; each turn is a step of the step system, whose runs do not bound the number of turns.
- The zero value that a wrapped id could take, beyond its report as a failure.

Of random pools:

- RandomPools.PoolIndex.InitAll: an error may be due to a shared pool, because the pass accepts or rejects sharing depending on the order of the roots.
- Merging the rows of a pool, dropping rows without weight and ordering custom pools by index: the configuration is the merged one.
- Items that the code returns next to an error code.
- The quality of the random generator: each call returns an arbitrary number below its bound.  Calls made by a draw that fails are not described.

Of mails:

- Mail.MailBox.Compact: times and counts are integers without overflow, and no mail is nil.
- Status words are sets of bits.

Of the rate limit:

- RateLimit.RingIsSlidingWindow: is about one limit, because the limit is an option of the method's descriptor (src/component/dispatcher/dispatcher_implement.go:243-246) and cannot change under a ring.

Of sessions:

- Network handles, authorisation, session logs and the OnUpdateSession callback.

Of the unlock index:

- UnlockIndex.Indexer.BuildRows: the sum of clock and cache time is an integer without overflow.
- Reading rows from the tables, and the conditions a quest row derives from its available period.
- UnlockIndex.Sort: is an insertion sort that stands for the library's sort; with distinct values the result is the same.

Of versioned writes:

- Cas.VerdictIsExactUnlessMisread: versions are unbounded, so the script's floating-point versions above 2^53 and the wrap of 64-bit versions are not modelled.
- That a forced update sends version -1 is an assumption about the conversion library, which is not part of this model.
- Login locks built on the verdict.

Not modelled at all: transport, protobuf conversion, logging, configuration generation,
calendar arithmetic, item-count merging, dirty-version wrappers, and the lazy evaluation
of user data.
