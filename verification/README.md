# Verified model of the arbitrage bot's coordination logic

The bot searches Polygon AMM pools for profitable cycles. This project models the parts of it whose
correctness depends on interleavings, cursors, clocks and tie-breaking rather than on swap arithmetic, and
proves what those parts are for. `dafny verify dfyconfig.toml` checks all of it.

| file | models |
|---|---|
| `MetaCache.dfy` | the debounced background persister of the pool-metadata cache |
| `HfSchedule.dfy` | the high-frequency (HF) tick scheduler: permit, pending flags, WSS latch, shutdown |
| `Discovery.dfy` | the Postgres keyset pager and the two-stream incremental pager |
| `RpcBudget.dfy` | the per-host token bucket with lazy refill and punishment |
| `TickHydration.dfy` | the planner that decides which concentrated-liquidity pools to load ticks for |
| `Routes.dfy` | candidate cycles, start rotations and route cooldowns |
| `ProbeRank.dfy` | the cached rank probe and the Brent warm-start seeds |
| `Admission.dfy` | probe ranking and the tiered admission of survivors |
| `Rotation.dfy` | the fair rotation over inactive cycles |
| `Selection.dfy` | the many-gate selection pass of an HF tick |
| `LogThrottle.dfy` | the lock-free log throttle |
| `Sorting.dfy`, `Prelude.dfy` | shared definitions |

The protocols (`MetaCache`, `HfSchedule`, `LogThrottle`) are state machines with one action per atomic step;
theorems quantify over every run of any number of threads. Beside each stands a class with the source's own
fields and one method per atomic step; every method is proved to perform exactly the state machine's step and
to keep its invariant (for the throttle, when the interval is at least 1). Values, loops and in-place updates
elsewhere follow the source: what it updates in place is a class, what it loops over is a method with invariants,
what it computes is a function.

Where a promise turns out to fail on some inputs, the code is modelled as it is and the exact condition is
proved:

- The incremental pager returns every due row exactly from cursors whose updated watermark is unset or not
  behind the created one; for every other cursor there is a table that loses a row
  (`StaleUpdatedWatermarkLosesRow`). It returns only due rows exactly from cursors whose unset updated watermark has no
  id; for every other one there is a table on which it goes back (`UnsetWatermarkGoesBack`).
- The token-bucket window bound at the base rate holds in every run exactly when the base rate is at least 4;
  below that a punishment raises the rate for good (`PunishmentSpeedsUpSlowBucket`). The program only creates
  rates 10, 16 and 40.
- Active cycles starve the inactive ones exactly when the cap is at most four and they fill it
  (`InactiveStarved`), although the comment on `hf_activity_slot_cap` says that the remainder stays for inactive ones.
- A failed rename can lose an update (`FailedRenameLosesUpdate`). At every point of every run the file includes all
  updates if and only if some successful rename published a snapshot serialized after the last insert
  (`CurrentExactly`); a loss that survives quiescence means a failure gave up on the newest revision (`LostExactly`).
- A refused tick request can be left waiting with nobody inside the scheduler to see it (`OrphanHappens`). That happens
  in exactly the steps in which a refused caller stores `pending` after the finishing task has taken it, and lasts
  exactly until the next timer tick or unlimited wake (`OrphanedExactly`).
- With interval 0 the throttle's slot can go backward (`ZeroIntervalGoesBack`); with any other interval it cannot
  (`StoredTimesChain`).

The tick planner overlooks a tickless V3 hop whose pool has no address. Its general lemmas say by how much its scores
would then overcount (`SoleCountV3IsDrop`); in every arena the program builds, states and addresses are registered
together (`RegisterKeepsArena`), so there the scores are exact (`SoleCountV3Exact`) and a drain leaves no tickless cycle
(`ArmAndDrain`).

The comment on `persist` says that the data is cloned under the lock and serialized after releasing it; the
code serializes under the read lock, and so does the model.

## Model

| member | source | states |
|---|---|---|
| `MetaCache.NextInv` | src/infra/pool_meta_cache.rs:135-222 | every atomic step of every setter and worker, failing or not, keeps the invariant and never moves the file to an older version |
| `MetaCache.AdvanceInv` | src/infra/pool_meta_cache.rs:146-220 | each worker step keeps the worker's own part of the invariant: what its target revision promised is on disk, given up on, or still in its hands |
| `MetaCache.WorkExclusive` | src/infra/pool_meta_cache.rs:211-219 | release, re-check and re-acquire never let two workers own the running flag, and the flag is up exactly when someone owns it |
| `MetaCache.SafeInEveryRun` | src/infra/pool_meta_cache.rs:136-220 | in every run, with or without I/O failures, at most one worker owns the flag and the file is the start-up file or one complete past version of the map |
| `MetaCache.FileNeverGoesBack` | src/infra/pool_meta_cache.rs:136-220 | between any two points of a run the file version never decreases |
| `MetaCache.NoLostUpdate` | src/infra/pool_meta_cache.rs:135-222 | in every fault-free run, once all setters returned and all workers exited, the file equals the live map |
| `MetaCache.HealsAfterFaults` | src/infra/pool_meta_cache.rs:152-207 | whatever failed earlier, one setter in a fault-free stretch is enough for the file to equal the live map at quiescence |
| `MetaCache.NextWriteCarriesUnwritten` | src/infra/pool_meta_cache.rs:152-207 | after any failed I/O step the next successful write includes every update made before that failure |
| `MetaCache.ReplayCarries` | src/infra/pool_meta_cache.rs:76-130 | a version that includes an update holds its key, with the value of the last included update of that key |
| `MetaCache.FailedRenameLosesUpdate` | src/infra/pool_meta_cache.rs:201-219 | a concrete run with one failed rename ends quiescent with the update missing: fault-freedom is needed |
| `MetaCache.CurrentExactly` | src/infra/pool_meta_cache.rs:169-210 | in every run, whatever failed, the file includes all updates if and only if some successful rename published a snapshot serialized after the last insert |
| `MetaCache.LostExactly` | src/infra/pool_meta_cache.rs:152-220 | at quiescence an update is missing exactly when no rename published a later snapshot, and then a failure gave up on the newest revision |
| `MetaCache.SnapshotTaken` | src/infra/pool_meta_cache.rs:170-173 | a snapshot in flight was serialized by its holder when the log was exactly that long |
| `MetaCache.FileIsPublished` | src/infra/pool_meta_cache.rs:201-210 | what the file includes is what the last successful rename published |
| `MetaCache.PublishedKeepsInitial` | src/infra/pool_meta_cache.rs:44-66 | in every run an entry of the start-up file that nobody set since is in the map and in the file |
| `MetaCache.WritesAfterQuietSleep` | src/infra/pool_meta_cache.rs:147-151 | a worker goes on from its sleep to the write exactly when no setter bumped the revision since it loaded its target, and else loads it again |
| `MetaCache.FailureGivesUp` | src/infra/pool_meta_cache.rs:152-207 | a failure before the rename leaves the file alone, drops the flag and returns; a failed rename goes on to the handoff |
| `MetaCache.WorkerProgress` | src/infra/pool_meta_cache.rs:146-220 | whatever fails, a worker no setter disturbs returns within 18 steps |
| `MetaCache.TempNamesAreFresh` | src/infra/pool_meta_cache.rs:162-163 | no temporary file has the name of an earlier one |
| `MetaCache.RestLeavesNoLitter` | src/infra/pool_meta_cache.rs:174-208 | in every run each temporary file is the one a worker is working on, so a run at rest leaves none |
| `MetaCache.PoolMetaCache.SetEntry` | src/infra/pool_meta_cache.rs:76-82 | the locked insert is the setter's first step and keeps the invariant |
| `MetaCache.PoolMetaCache.BumpRevision` | src/infra/pool_meta_cache.rs:136 | `fetch_add` as one step |
| `MetaCache.PoolMetaCache.ClaimRunning` | src/infra/pool_meta_cache.rs:137-145 | `swap(true)` starts a worker exactly when none was running |
| `MetaCache.PoolMetaCache.LoadTargetRevision` | src/infra/pool_meta_cache.rs:147 | the target revision is read |
| `MetaCache.PoolMetaCache.CheckDebounced` | src/infra/pool_meta_cache.rs:148-151 | start over when the revision moved during the sleep |
| `MetaCache.PoolMetaCache.MakeDirectory` | src/infra/pool_meta_cache.rs:152-161 | directory creation, failing into the abandon path |
| `MetaCache.PoolMetaCache.CreateTempFile` | src/infra/pool_meta_cache.rs:162-168 | a fresh temporary file per write |
| `MetaCache.PoolMetaCache.SerializeSnapshot` | src/infra/pool_meta_cache.rs:169-179 | the snapshot is taken under the read lock |
| `MetaCache.PoolMetaCache.FlushTempFile` | src/infra/pool_meta_cache.rs:180-200 | the temporary file is complete, or removed |
| `MetaCache.PoolMetaCache.RenameTempFile` | src/infra/pool_meta_cache.rs:201-210 | the rename replaces the file by the complete snapshot; a failure falls through to the handoff |
| `MetaCache.PoolMetaCache.RecheckRevision` | src/infra/pool_meta_cache.rs:211 | first comparison |
| `MetaCache.PoolMetaCache.ReleaseRunning` | src/infra/pool_meta_cache.rs:212 | the flag is dropped |
| `MetaCache.PoolMetaCache.ConfirmStillIdle` | src/infra/pool_meta_cache.rs:213-215 | second comparison, after the release |
| `MetaCache.PoolMetaCache.ReclaimRunning` | src/infra/pool_meta_cache.rs:216-218 | take the flag back, or leave it to the worker that has it |
| `MetaCache.PoolMetaCache.AbandonWrite` | src/infra/pool_meta_cache.rs:159-160 | the error exits drop the flag and return |
| `HfSchedule.NextInv` | src/orchestrator/pass_loop.rs:376-413 | every atomic step of the pass loop, of spawned tasks, of notifies and of shutdown keeps the invariant |
| `HfSchedule.AdvanceConserves` | src/orchestrator/pass_loop.rs:685-757 | no scheduler step drops a signal or a request: what the thread or a flag stood for is afterwards served, or behind a raised flag, or carried by a thread |
| `HfSchedule.SingleFlight` | src/orchestrator/pass_loop.rs:688-721 | at most one tick runs at a time, and no other thread holds the permit meanwhile |
| `HfSchedule.StreamSignalsConserved` | src/orchestrator/pass_loop.rs:376-413 | before shutdown an unserved WSS signal is behind the very flag that stands for it: the raised latch, `stream_pending`, or the raised local of a scheduler step or unbegun task |
| `HfSchedule.TickRequestsConserved` | src/orchestrator/pass_loop.rs:685-737 | before shutdown an unserved tick request is behind `pending`, or carried by a caller or rescheduler mid-step or a permit holder that has not begun |
| `HfSchedule.ServedOnlyByTicks` | src/orchestrator/hf.rs:1360-1368 | a request counts as served only when a tick begins, a signal only in a running tick with `stream_triggered` true |
| `HfSchedule.AtMostOneTickAfterShutdown` | src/orchestrator/pass_loop.rs:742-753 | in every interleaving at most one tick begins after shutdown is set |
| `HfSchedule.WakesAreSpaced` | src/orchestrator/pass_loop.rs:401-412 | a wake schedules its tick only when the interval has passed since every earlier stream tick the pass loop scheduled |
| `HfSchedule.LateWakeEnters` | src/orchestrator/pass_loop.rs:401-412 | and one that comes the interval after all of them is never turned away |
| `HfSchedule.StampIsKept` | src/orchestrator/pass_loop.rs:389-410 | a scheduled wake and a promoting timer tick are remembered as the last stream tick, and nothing else is |
| `HfSchedule.NoSpuriousStream` | src/orchestrator/pass_loop.rs:376-413 | before the first signal no latch, flag or local says there was one |
| `HfSchedule.TicksAreRequested` | src/orchestrator/pass_loop.rs:677-737 | every tick that begins answers a request |
| `HfSchedule.ThreadProgress` | src/orchestrator/pass_loop.rs:685-737 | no thread is stuck in the scheduler: each step brings it closer to its end |
| `HfSchedule.PermitIsTaken` | src/orchestrator/pass_loop.rs:685-729 | outside shutdown a caller that finds the permit free gets it, a task begins its tick and a taken `pending` is rescheduled |
| `HfSchedule.HolderCollects` | src/orchestrator/pass_loop.rs:696-707 | the permit holder hands everything parked so far to the task it spawns |
| `HfSchedule.TickServesAll` | src/orchestrator/hf.rs:1360-1368 | a tick serves what it was called for and whatever was latched before its first step |
| `HfSchedule.RefusalIsRecorded` | src/orchestrator/pass_loop.rs:689-694 | a refused caller leaves its request behind `pending`, and a raised latch or flag behind `stream_pending` |
| `HfSchedule.ShutdownClearsCaller` | src/orchestrator/pass_loop.rs:742-753 | after shutdown a caller clears both flags and leaves |
| `HfSchedule.ShutdownClearsTask` | src/orchestrator/pass_loop.rs:711-717 | so does a task, and gives the permit back |
| `HfSchedule.OrphanedExactly` | src/orchestrator/pass_loop.rs:689-737 | before shutdown `pending` becomes orphaned in exactly the steps in which a refused caller stores it after the finishing task has taken it, and is picked up by exactly a timer tick or an unlimited wake |
| `HfSchedule.OrphanWaits` | src/orchestrator/pass_loop.rs:689-737 | in every run an orphaned request stays orphaned until the pass loop enters the scheduler |
| `HfSchedule.OrphanHappens` | src/orchestrator/pass_loop.rs:689-737 | a run that ends with a free permit and an orphaned request |
| `HfSchedule.HfScheduler.ScheduleTimerTick` | src/orchestrator/pass_loop.rs:377-399 | the timer step takes `stream_pending` and starts a scheduling call |
| `HfSchedule.HfScheduler.TryScheduleStreamTriggered` | src/orchestrator/pass_loop.rs:401-413 | rate-limited wakes raise `stream_pending` and return false, others record their time and start a call with the flag set |
| `HfSchedule.HfScheduler.StepCaller` | src/orchestrator/pass_loop.rs:685-695 | shutdown check, permit attempt and the refused path, one step at a time |
| `HfSchedule.HfScheduler.StepHolder` | src/orchestrator/pass_loop.rs:696-707 | reset of `pending`, latch take, flag take and spawn, one step at a time |
| `HfSchedule.HfScheduler.StepTick` | src/orchestrator/pass_loop.rs:708-721 | shutdown check under the permit, tick with its re-latch, permit drop |
| `HfSchedule.HfScheduler.StepTask` | src/orchestrator/pass_loop.rs:722-737 | the finishing task takes `pending` and reschedules |
| `HfSchedule.HfScheduler.NotifyStream` | src/services/partial_cache/mod.rs:118-121 | a notify raises the latch |
| `Discovery.FetchPoolMetaPage` | src/infra/pg.rs:370-393 | a page is exactly the valid rows between the key and its new key, in key order; `has_more` and the limit overflow error are exact |
| `Discovery.KeysetCut` | src/infra/pg.rs:64-72 | filter, order and limit cut the table at the last returned key, leaving nothing behind it |
| `Discovery.DrainKeyset` | src/services/state_refresh.rs:646-664 | concatenated pages are the sorted valid rows beyond the key, each exactly once, and the loop ends |
| `Discovery.AscendingUnique` | src/infra/pg.rs:64-72 | that list is unique, whatever the page size |
| `Discovery.BeforeIsBytewise` | src/infra/pg.rs:588-594 | ids compare at the first position in which they differ, a proper prefix coming first |
| `Discovery.Widths` | src/infra/pg.rs:376-410 | the overflow errors are those of 32-bit watermarks and a 64-bit limit |
| `Discovery.ParseRows` | src/infra/pg.rs:523-545 | parsed and rejected rows account for the page |
| `Discovery.FoldIsMax` | src/infra/pg.rs:588-594 | folding `advance_cursor_pair` over a page gives the lexicographic maximum of the watermark and the stream's keys |
| `Discovery.ParseIncrementalRows` | src/infra/pg.rs:547-586 | the row loop computes the folded cursor with the bump, and the parsed pools |
| `Discovery.FetchPoolMetaIncremental` | src/infra/pg.rs:395-427 | exact error cases; otherwise a page of the two-stream filter and its next cursor |
| `Discovery.PageLosesNothing` | src/infra/pg.rs:581-584 | an item a full page left out is still in the next filter, with or without the bump that clears `last_updated_id` |
| `Discovery.PageGivesCursorOk` | src/infra/pg.rs:581-584 | one page restores the cursor condition from any bootstrapped cursor |
| `Discovery.PageProgress` | src/infra/pg.rs:74-92 | a non-empty page shrinks the remaining created rows, or leaves them and shrinks the remaining updated ones |
| `Discovery.PageDelivers` | src/infra/pg.rs:395-427 | a row ahead of the cursor is on the page, or the page is full and the row is ahead of the next cursor |
| `Discovery.DiscoverIncremental` | src/services/state_refresh.rs:686-715 | the drain ends from every cursor and errs exactly when its first fetch does; from a sound cursor it returns every valid row beyond either watermark, and from one whose unset updated watermark has no id it returns only those |
| `Discovery.StaleUpdatedWatermarkLosesRow` | src/infra/pg.rs:403-407 | for every cursor with a set updated watermark behind the created one, some table loses a due row: the condition is exact |
| `Discovery.PageNotBehind` | src/infra/pg.rs:581-594 | no page moves either query watermark behind the one the drain started from |
| `Discovery.UnsetWatermarkGoesBack` | src/infra/pg.rs:403-407 | for every cursor with an unset updated watermark and an id, some table makes the drain return a row that was not due: the condition is exact |
| `Discovery.DiscoverBootstrap` | src/services/state_refresh.rs:640-684 | bootstrap lists all valid rows in order and leaves a sound, in-range cursor that stands exactly at the last of them, at block 1 at least |
| `Discovery.BootstrapThenDrain` | src/services/state_refresh.rs:640-715 | the drain from the bootstrap cursor cannot fail and returns every row created beyond the bootstrap rows or updated at a block not below them; a valid row neither phase returned changed in between and is stamped at or below both watermarks |
| `RpcBudget.RefillKeeps` | src/infra/rpc_budget.rs:191-205 | a refill credits exactly the elapsed time at the rate in force, capped, and never lowers the rate |
| `RpcBudget.WindowBound` | src/infra/rpc_budget.rs:191-224 | in every run and every window, admissions are at most the capacity plus the window at the bucket's top rate |
| `RpcBudget.BaseWindowBound` | src/infra/rpc_budget.rs:191-224 | with base rate at least 4 the same bound holds at the base rate |
| `RpcBudget.PunishmentSpeedsUpSlowBucket` | src/infra/rpc_budget.rs:193-198 | for every base rate below 4 a run breaks the bound at the base rate |
| `RpcBudget.HostWindowBound` | src/infra/rpc_budget.rs:126-166 | every bucket the program creates stays within its host's rate, whatever 429s arrive |
| `RpcBudget.PunishmentBound` | src/infra/rpc_budget.rs:219-224 | at most 4 d admissions in the d seconds after a punishment, for d below 60, whatever happens next |
| `RpcBudget.PunishmentEnds` | src/infra/rpc_budget.rs:193-199 | in every run without a further 429 the rate is 4 at each reading before the 60 seconds are over and the base rate from the first reading after them |
| `RpcBudget.RestoredEarns` | src/infra/rpc_budget.rs:200-204 | a restored bucket earns its base rate again, up to its capacity |
| `RpcBudget.BurstAdmitted` | src/infra/rpc_budget.rs:179-217 | as many takes as there are tokens are admitted at once |
| `RpcBudget.PublishedRates` | src/infra/rpc_budget.rs:126-189 | a new bucket is full, at 16, 10 or 40 per second by its host |
| `RpcBudget.DelayIsEnough` | src/infra/rpc_budget.rs:208-217 | the returned delay is long enough for a token to be there |
| `RpcBudget.DelayIsTight` | src/infra/rpc_budget.rs:208-217 | and no longer than needed: 5 milliseconds, or exactly what the missing part of a token takes |
| `RpcBudget.SleepOnceThenAdmitted` | src/infra/rpc_budget.rs:79-92 | any number of status reads during the sleep do not spoil it |
| `RpcBudget.AdmitUrl` | src/infra/rpc_budget.rs:51-63 | a lone unpunished caller sleeps at most once, for the returned delay, and its next take succeeds |
| `RpcBudget.TokenBucket.RefillNow` | src/infra/rpc_budget.rs:191-205 | the in-place refill is the specified one |
| `RpcBudget.TokenBucket.Take` | src/infra/rpc_budget.rs:208-217 | the in-place take is the specified one |
| `RpcBudget.TokenBucket.PunishNow` | src/infra/rpc_budget.rs:219-224 | the in-place punishment is the specified one |
| `TickHydration.SoleV3IsUnlock` | src/orchestrator/hf_execute.rs:1407-1458 | loading a V3 pool alone unlocks a cycle exactly when the cycle counts as its sole unlock and hides no address-less tickless hop |
| `TickHydration.SoleV4IsUnlock` | src/orchestrator/hf_execute.rs:1473-1539 | loading a V4 pool alone unlocks a cycle exactly when the cycle counts as its sole unlock |
| `TickHydration.SoleCountV3IsDrop` | src/orchestrator/hf_execute.rs:1124-1129 | the V3 sole count is the drop in tickless cycles from loading that pool alone, plus the void ones |
| `TickHydration.VoidCountV3Zero` | src/orchestrator/hf_execute.rs:1407-1458 | there are no void ones exactly when no sole unlock of the pool hides a tickless hop |
| `TickHydration.RegisterKeepsArena` | src/pipeline/arena.rs:410-448 | registering a pool keeps states and addresses parallel and addresses distinct, so no pool lacks an address |
| `TickHydration.BuiltArenaOk` | src/pipeline/arena.rs:410-448 | the empty arena, and every sequence of registrations and tick loads from it, keep that invariant |
| `TickHydration.SoleCountV3Exact` | src/orchestrator/hf_execute.rs:1124-1129 | in every arena the program builds, the V3 sole count is exactly the drop |
| `TickHydration.SoleCountV4IsDrop` | src/orchestrator/hf_execute.rs:1124-1129 | the V4 sole count is the drop in tickless cycles from loading that pool alone |
| `TickHydration.MissingAddressOvercounts` | src/orchestrator/hf_execute.rs:1407-1458 | the planner relies on the arena invariant: a hop without an address would make a sole unlock void |
| `TickHydration.ScanCycleV3` | src/orchestrator/hf_execute.rs:1407-1458 | the edge loop finds the distinct fetchable V3 pools and whether anything else blocks the cycle |
| `TickHydration.ScanCycleV4` | src/orchestrator/hf_execute.rs:1473-1539 | the same for V4, with id-less and cooled hops blocking |
| `TickHydration.TicklessV3Prioritized` | src/orchestrator/hf_execute.rs:1407-1471 | scores are the specified counts, the output is the top of their ranking, and in every arena the program builds that means: each target leaves fewest tickless cycles of those after it or left out, then has most memberships, then most liquidity |
| `TickHydration.TicklessV4Prioritized` | src/orchestrator/hf_execute.rs:1473-1556 | the same for V4 targets |
| `TickHydration.ScoresV3AreUnlockDrops` | src/orchestrator/hf_execute.rs:1407-1471 | every V3 score ranked by is the number of cycles its pool unlocks, saturated; without the arena invariant, plus the void ones |
| `TickHydration.ScoresV4AreUnlockDrops` | src/orchestrator/hf_execute.rs:1473-1556 | every V4 score ranked by is the number of cycles its pool unlocks, saturated |
| `TickHydration.SharedCapTargets` | src/orchestrator/hf_execute.rs:1647-1665 | both lists are duplicate-free ranking prefixes and best choices in that sense, together they use the cap exactly, and V4 gets one slot ahead of V3 when both need work and the cap is at least 2 |
| `TickHydration.CutIsBestV3` | src/orchestrator/hf_execute.rs:1459-1471 | every cut of the V3 ranking is the best choice of that many targets by tickless cycles left |
| `TickHydration.CutIsBestV4` | src/orchestrator/hf_execute.rs:1540-1556 | the same for V4 |
| `TickHydration.EmptyIsNotFetched` | src/pipeline/tick_fetch.rs:163-167 | a pool proven empty is not fetched before its deadline |
| `TickHydration.ExpiredIsFetched` | src/pipeline/tick_fetch.rs:163-167 | and from then on it is |
| `TickHydration.EmptyIsStuck` | src/orchestrator/hf_execute.rs:1234-1284 | a hop that may not be fetched is stuck for the drain as well |
| `TickHydration.MissLasts30Seconds` | src/pipeline/tick_fetch.rs:27 | an armed hop is stuck for exactly 30 seconds |
| `TickHydration.CycleExhausted` | src/orchestrator/hf_execute.rs:1234-1284 | true exactly when the cycle has a tickless hop and all of them are stuck |
| `TickHydration.Mark` | src/pipeline/tick_fetch.rs:38-52 | expired entries go, listed keys last exactly one cooldown or as long as they did, every other running entry is unchanged, nothing else appears |
| `TickHydration.CooldownTables.MarkProbeMiss` | src/orchestrator/hf_execute.rs:1292-1339 | exactly the keys of the tickless hops are marked, and nothing else changes |
| `TickHydration.CooldownTables.ArmStillTickless` | src/orchestrator/hf_execute.rs:2018-2035 | the tables are those of marking each still-tickless cycle in turn, and all of these are armed for the rest of the window |
| `TickHydration.ArmCycleArms` | src/orchestrator/hf_execute.rs:1292-1339 | marking arms every hop of the cycle and shortens no running cooldown |
| `TickHydration.DeadlinesV3Explained` | src/orchestrator/hf_execute.rs:2018-2035 | after arming, every address deadline is the old one or one cooldown after the reading of a cycle that has the hop, and nothing still running is dropped |
| `TickHydration.DeadlinesV4Explained` | src/orchestrator/hf_execute.rs:2018-2035 | the same for V4 pool ids |
| `TickHydration.ArmedIsExhausted` | src/orchestrator/hf_execute.rs:1234-1284 | an armed tickless cycle is exhausted exactly when all its tickless hops have addresses |
| `TickHydration.DrainStuck` | src/orchestrator/hf_execute.rs:1383-1399 | the drain removes exactly the exhausted cycles, in order, and no cycle without a tickless hop |
| `TickHydration.ArmAndDrain` | src/orchestrator/hf_execute.rs:2018-2035 | after a pass that attempted a pool, arming and draining leave exactly the cycles without a tickless hop, in every arena the program builds |
| `Routes.RouteQuarantine.IsQuarantined` | src/services/execution/service/risk.rs:45-71 | true exactly when some start rotation is cooled |
| `Routes.RouteQuarantine.CoolAllRotations` | src/orchestrator/hf.rs:580-584 | exactly the start rotations are added |
| `Routes.QuarantineIgnoresStart` | src/services/execution/service/risk.rs:59-71 | whether a route is cooled does not depend on the rotation asked about |
| `Routes.CoolingIsExact` | src/services/execution/service/risk.rs:36-56 | cooling a route cools it at every start and touches no other route |
| `ProbeRank.RouteSimCache.Get` | src/pipeline/route_sim_cache.rs:73-95 | a hit is the entry of the fingerprint's shard under the full key |
| `ProbeRank.RouteSimCache.Insert` | src/pipeline/route_sim_cache.rs:97-136 | the shard becomes what eviction left plus the new entry, within capacity; other shards are untouched |
| `ProbeRank.Evict` | src/pipeline/route_sim_cache.rs:106-126 | below capacity nothing goes, at capacity the stale revisions go, and only if that is not enough half a shard of the present revision stays |
| `ProbeRank.CachedSimulate` | src/orchestrator/hf_eval.rs:358-371 | with any sound cache or none the answer is the simulator's, and the cache stays sound |
| `ProbeRank.MinimalRankProbe` | src/orchestrator/hf_eval.rs:334-408 | with or without a cache: a success is the first maximum-profit admissible size, a failure names exactly what the ladder saw, and the cache stays sound |
| `ProbeRank.ResultUnique` | src/orchestrator/hf_eval.rs:334-408 | that meaning determines the result, so the cache is transparent |
| `ProbeRank.SuccessHasProfit` | src/orchestrator/hf_eval.rs:349-392 | a success walks with a profit the sanity check lets pass, at the economic floor or the spot probe at least |
| `ProbeRank.ConsideredExactly` | src/orchestrator/hf_eval.rs:349-357 | the sizes tried are those from the economic floor or the spot probe upward |
| `ProbeRank.BuildBrentProbeSeeds` | src/orchestrator/hf_eval.rs:1590-1644 | the seeds are the caller's and then the first good ladder sizes, each once, in order, each with its own simulation, up to 48 |
| `ProbeRank.SeedsAreGood` | src/orchestrator/hf_eval.rs:1622-1641 | every added seed walks with a profit the fast check lets pass |
| `ProbeRank.GoodSizesAreSeeds` | src/orchestrator/hf_eval.rs:1604-1641 | and every such ladder size is a seed unless all 48 slots are taken |
| `ProbeRank.SeedingUnique` | src/orchestrator/hf_eval.rs:1590-1644 | that determines the seed list, so the cache is transparent |
| `Admission.CycleSimulatable` | src/orchestrator/hf_eval.rs:412-426 | true exactly when the uncached probe succeeds behind the two gates |
| `Admission.RankOneCycleProbe` | src/orchestrator/hf_eval.rs:529-866 | a cycle is seeded exactly when its probe is good, financed and not too deep; it is ranked by net when it clears gas and else by cover at economic size; its rotations are cooled exactly when the next probe would be as useless, and its tickless hops armed exactly when it never walked for lack of ticks |
| `Admission.StartIsSound` | src/orchestrator/hf_eval.rs:550-562 | a sound flash start is taken, and a broken one only if the scanned cycle was broken already |
| `Admission.SeededExactly` | src/orchestrator/hf_eval.rs:563-812 | the conditions under which a cycle gets a seed, one by one |
| `Admission.RankedExactly` | src/orchestrator/hf_eval.rs:811-866 | what its ranked and near-net entries are |
| `Admission.ProbeIsOwn` | src/orchestrator/hf_eval.rs:334-408 | the probe of a cycle is the largest sound profit on its own ladder, edges and revision |
| `Admission.CoolingIsWarranted` | src/orchestrator/hf_eval.rs:640-845 | a cycle that ranks is not cooled by its own ranking, and one that does not is cooled or armed exactly in the listed cases |
| `Admission.SeedHasProfit` | src/orchestrator/hf_eval.rs:812-813 | every seed carries a profit |
| `Admission.CutIsBestFirst` | src/orchestrator/hf_eval.rs:496-506 | taking the head of the value-sorted list displaces no more valuable cycle and keeps the order |
| `Admission.SelectProbeSurvivors` | src/orchestrator/hf_eval.rs:489-519 | distinct edge lists, at most `max_keep`, in descending value with nothing more valuable displaced, then the best rescues in execution order until their cap is used or none is left |
| `Admission.AdmitNearNet` | src/orchestrator/hf_eval.rs:990-1029 | only uncooled, evaluable near-net cycles, in order of descending cover within the slots, and every uncooled near-miss had its turn |
| `Admission.AdmitRescue` | src/orchestrator/hf_eval.rs:1030-1051 | the whole allowance goes to the first rescues by execution rank: each uncooled one of them is kept, unless its edges were seen, and nothing else, in that order |
| `Admission.SimulatableScoreFallback` | src/orchestrator/hf_eval.rs:449-487 | the eligible starts of the window by execution rank, each as often as it occurs there, cut at the cap |
| `Admission.FindEligible` | src/orchestrator/hf_eval.rs:458-482 | the eligible flash starts of the window, in scan order |
| `Admission.EligibleStartsMembers` | src/orchestrator/hf_eval.rs:458-482 | which starts these are |
| `Admission.AdmitFallback` | src/orchestrator/hf_eval.rs:1074-1109 | only cycles of the list that the probe seeds at an economic size, in list order, and all of those unless the cap is reached; what is admitted comes before what is left out |
| `Admission.FillTiers` | src/orchestrator/hf_eval.rs:988-1110 | near-net, rescue and fallback tiers in order, each from its own source, in its own order and as full as allowed; without a gas-clearing probe at most 6 in all |
| `Admission.FillRest` | src/orchestrator/hf_eval.rs:1030-1110 | the rescue allowance, then open flash starts of scanned cycles out of the best-ranked eligible ones, in execution order, until the cap is reached or none is left |
| `Admission.NearNetFills` | src/orchestrator/hf_eval.rs:990-1029 | while something clears gas a near-miss is left out only when the list is full of near-misses covering at least as much |
| `Admission.FourNearMisses` | src/orchestrator/hf_eval.rs:998-1003 | while nothing does, at most four are kept, the best by cover |
| `Admission.FallbackFills` | src/orchestrator/hf_eval.rs:1052-1110 | the fallback tier fills the list, or up to six beside near-misses only, or is empty |
| `Admission.RescueAllowance` | src/pipeline/cycle_filter.rs:22-28 | a quarter of the list, between 32 and 256; none beside near-misses and at most four while nothing clears gas |
| `Admission.OpenExactly` | src/orchestrator/hf_eval.rs:1074-1109 | which flash starts the fallback tier may take |
| `Admission.KeptIsFit` | src/orchestrator/hf_eval.rs:1012-1109 | no near-net or fallback cycle has a cooled token or lacks a flash loan |
| `Admission.KeptHasOwnFingerprint` | src/orchestrator/hf_eval.rs:563-564 | whatever is kept goes on under the fingerprint of its own edges |
| `Admission.AdmitSurvivors` | src/orchestrator/hf_eval.rs:964-1147 | for whatever ranking found: distinct edges, at most `max_keep`, uncooled, four tiers each from its own source and in its own order, best net first with nothing better displaced, each kept cycle with a seed that survives the final retain, at most 6 when nothing clears gas |
| `Admission.RankAll` | src/orchestrator/hf_eval.rs:925-948 | every scanned cycle is ranked against exactly the routes cooled before it; every ranked cycle has a seed, nothing is put up for rescue, and cooled routes and armed hops are exactly those the cycles add |
| `Admission.RankCyclesByProbeNet` | src/orchestrator/hf_eval.rs:871-1147 | ranking of the first 2 `max_keep` cycles and admission: every scanned cycle that clears gas and is not cooled at the end is kept, unless all `max_keep` slots went to scanned cycles netting at least as much; nothing else than scanned starts is kept; tiers, orders and seeds as admission promises |
| `Admission.KeptHasSeed` | src/orchestrator/hf_eval.rs:1074-1147 | every kept cycle is uncooled and has a seed with non-zero profit |
| `Admission.ProfitableIsUndisplaced` | src/orchestrator/hf_eval.rs:977-985 | the end-to-end promise for any order or interleaving of the per-cycle rankings in which nothing found cooled is warm at the end |
| `Admission.AdmitAfterParallelRank` | src/orchestrator/hf_eval.rs:899-923 | the promises of admission and the end-to-end one after a parallel ranking |
| `Admission.MergedPartsOk` | src/orchestrator/hf_eval.rs:899-985 | per-cycle rankings from any cooldowns merge into what admission may start from |
| `Admission.KeptAreScanned` | src/orchestrator/hf_eval.rs:871-1147 | every kept cycle is the start of a scanned cycle, ranked or open |
| `Admission.MergedHolds` | src/orchestrator/hf_eval.rs:210-225 | merging partial rankings loses no cycle and invents none |
| `Admission.SeedIsOwn` | src/orchestrator/hf_eval.rs:813 | when edges imply the start token, the seed handed on with a kept cycle is the probe answer for that cycle |
| `Rotation.InactiveCycleRotation.OffsetFor` | src/orchestrator/hf.rs:410-420 | a new generation restarts the rotation; the offset is the position within the length |
| `Rotation.InactiveCycleRotation.Advance` | src/orchestrator/hf.rs:422-426 | moves by the number served, only within the generation |
| `Rotation.ServeTick` | src/orchestrator/hf.rs:1406-1410 | offset, indices and advance together are one tick of the specification |
| `Rotation.TickKeepsRange` | src/orchestrator/hf.rs:422-426 | the stored position stays inside the snapshot, however many cycles are inactive |
| `Rotation.TickServesOnce` | src/orchestrator/hf.rs:429-433 | no tick serves an index twice and all are in range |
| `Rotation.RotationIsFair` | src/orchestrator/hf.rs:403-433 | over any completed ticks of any sizes, every index is served the floor or the ceiling of its share |
| `Rotation.EqualTicksAreFair` | src/orchestrator/hf.rs:2307-2309 | after m ticks of k out of n, every index is served floor or ceiling of mk/n times |
| `Selection.JudgeIsSound` | src/orchestrator/hf.rs:996-1266 | whatever the route through the gates, an admitted cycle matches states and metadata, connects, and is uncooled; a live cycle is cooled only when the floor walk shows it worthless |
| `Selection.JudgeAdmitsExactly` | src/orchestrator/hf.rs:996-1266 | a cycle is admitted if and only if it is not stuck, not cooled, becomes a sound cycle, and is active or liquid |
| `Selection.RawSkips` | src/orchestrator/hf.rs:998-1050 | which skip a raw cycle gets, and what is cooled or anchored with it |
| `Selection.ShapeSkips` | src/orchestrator/hf.rs:1050-1105 | which mismatch a cycle that cannot be healed or realigned is, and of which pools |
| `Selection.ReadySkips` | src/orchestrator/hf.rs:1105-1266 | which skip a remapped cycle gets, in the order of the gates |
| `Selection.GateOne` | src/orchestrator/hf.rs:996-1266 | one pass through the gates, counter by counter, accounts for the cycle exactly once and as judged |
| `Selection.GateAll` | src/orchestrator/hf.rs:996-1266 | the loop accounts for every cycle, and its lists, counters, anchors and cooldowns are those of judging each cycle against the cooldowns before it |
| `Selection.VerdictsConserved` | src/orchestrator/hf.rs:974-980 | seven skip counters plus active plus inactive equal the number of cycles judged |
| `Selection.InactiveStarved` | src/orchestrator/hf.rs:704-707 | slots never exceed the cap; inactive cycles get none exactly when the cap is at most 4 and the active ones fill it |
| `Selection.SlotShares` | src/orchestrator/hf.rs:704-707 | the shares in numbers: all of up to 4, then 4, a fifth from 25 on and 16 from 80 on; the inactive cycles get what is left |
| `Selection.SelectCyclesForRescore` | src/orchestrator/hf.rs:934-1358 | cap 0 gives the empty selection; otherwise active cycles in execution order, inactive ones by rotation, exact counters and exact hot pools |
| `Selection.SelectionConserves` | src/orchestrator/hf.rs:934-1358 | conservation over the snapshot, the cap, and the exact starvation condition, for every outcome of the gates |
| `Selection.SelectedPoolsAreHot` | src/orchestrator/hf.rs:1319-1336 | every addressable pool of a selected cycle is hot |
| `Selection.RotatedSlice` | src/orchestrator/hf.rs:1327-1335 | the inactive cycles served are a contiguous stretch of the ring |
| `Selection.SelectionRepeatsNothing` | src/orchestrator/hf.rs:1319-1336 | no cycle is selected more often than the gates listed it |
| `Selection.ActivesBestFirst` | src/orchestrator/hf.rs:1293-1309 | an active cycle left out ranks no better than any selected one, and all active slots are used |
| `Selection.ListsInOrder` | src/orchestrator/hf.rs:1293-1304 | active cycles by execution rank and then activity; inactive ones without tick needs first, each part by execution rank |
| `Selection.SelectedAreSound` | src/orchestrator/hf.rs:934-1358 | every selected cycle passed the gates when judged |
| `LogThrottle.NextInv` | src/log.rs:107-115 | every step of every caller keeps the chain of stored times |
| `LogThrottle.StoredTimesChain` | src/log.rs:107-115 | for interval at least 1, any interleaving and any clock readings, stored times grow by at least the interval |
| `LogThrottle.FiresInWindow` | src/log.rs:103-115 | at most width / interval + 1 calls fire with a clock reading in any window |
| `LogThrottle.FiresExactly` | src/log.rs:107-115 | a call whose reading is the interval past the loaded time fires if and only if no other call fired since it loaded the slot |
| `LogThrottle.ZeroIntervalGoesBack` | src/log.rs:107-115 | with interval 0 the slot can go backward |
| `LogThrottle.ThrottleSlot.CompareExchange` | src/log.rs:110-114 | the interval test and the exchange are the specified step |

## Left out

- AMM pricing, route simulation, sanity checks, gas and profit models, flash-loan lookup, Brent search: arbitrary functions in `ProbeRank`, `Admission` and `Selection`.
- RPC, WebSocket and Postgres connections, retries, provider caches, submission and on-chain verification.
- Memory orderings weaker than sequential consistency; the handoff in `persist` stores with Release and then loads with Acquire.
- Wrap-around of the 64-bit revision, sequence and time counters, and rounding of `f64` in the token bucket (reals are used).
- Rows that change while a drain runs, and Postgres collation: the table is fixed and ids compare byte-wise. Row parsing and `retain_routable_pool` are one per-row predicate.
- `parse_pg_row` and the SQL validity clause are per-row predicates.
- Removals of temporary files that fail; their result is ignored by the code, and the model removes the file.
- Task abort at shutdown and the stored join handle of the HF task.
- Spawning and the flag swap of `persist` are one step, since the spawned worker touches nothing before its first load.
- The wide-range and sibling hydrate passes and the tick fetches themselves: `ArmAndDrain` holds for whatever they loaded.
- Cooldowns that expire in the middle of one ranking or selection call; the cooled set is fixed except for what the call adds.
- The threads of the parallel branch of `rank_cycles_by_probe_net`: `RankAll` follows the sequential branch, and `AdmitAfterParallelRank` covers the parallel one by what its workers may find cooled, merged in scan order.
- Skip counters of the probe ranking, live-drop counters of the selection, flash diagnostics and log lines.
- RpcBudget.AdmitUrl: only for a caller alone on its bucket; competing callers may take the token it waits for.
- Rotation.RotationIsFair: counts completed ticks only; a tick that returns early serves without advancing.
- `PriorityDispatchQueue`, `bellman_ford` scratch reuse, the best-eval fold, state-URL ordering, WSS endpoint choice, configuration, TUI, CLI and process handling.
