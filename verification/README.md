# Verification of paw-kit's runtime

A Dafny model of the parts of paw-kit that decide, without blocking the caller, when a
compiled adapter may take traffic from the function it was compiled from, and of the
supporting pieces those decisions rest on. `dafny verify dfyconfig.toml` checks all of it.

- `DeadlinePool.dfy`: the bounded pool that runs calls under a deadline although some never
  return. Callers and workers interleave statement by statement.
- `PoolService.dfy`: whom that pool refuses, in which order it serves, what keeps a permit.
- `CompileGuard.dfy`: many threads and processes racing to compile one task.
- `TraceDb.dfy`: the rows, sequence numbers, retention and window statistics the gate reads.
- `ShadowWindow.dfy`: the arithmetic of windows, and the offline recomputation of their rates.
- `ShadowGate.dfy`: the promotion gate as a whole. Any number of processes share one database;
  every transaction and every locked section is one step.
- `GateOutcome.dfy`: what one stored comparison does to the task, in counts, and what the stall
  guard lets through.
- `ShadowQueue.dfy`: the runner's queues and counters under any interleaving of submitters and
  workers.
- `QueueLimits.dfy`: how full those queues get, when a job is refused, and who serves a key.
- `ShadowRunner.dfy`: the runner object itself, method by method, tied to the two machines above.
- `Agreement.dfy`: the structural comparison of two answers, and tolerances on named fields.
- `AtomicWrite.dfy`: replacing a file, over a file system that loses whatever was not synced.
- `HistoryLog.dfy`: the lineage sidecar with its unlocked rotation.
- `AdapterCache.dfy`: the mock backend's capped least-recently-used cache.
- `Binomial.dfy`: the exact chance of clearing a window by luck.
- `FiscalCalendar.dfy`: fiscal-week labels and the evaluation set built from them.
- `Mutator.dfy`: collecting mutations of a syntax tree and replaying one from its record.

Where the source updates objects in place there is a class whose methods are proved equal to
the steps of a value-level machine; the theorems are about every run of that machine.

## Where the code and what is said of it part ways

- The sequence number of an epoch is said to survive pruning (`paw_kit/jit/db.py:1419-1423`). It
  does if and only if a countable row of the epoch is kept: `TraceDb.SeqSurvivesPruning`,
  `TraceDb.ExcludedRunRestartsSeq`. The bound of five promotion draws holds all the same.
- Windows are said to be tumbling (`paw_kit/jit/shadow.py:589-616`). Their triggers always are.
  Their contents need not be: two windows have a comparison in common if and only if fewer than a
  window of comparisons were recorded between their readings
  (`ShadowGate.WindowsShareWhenReadClose`), as when a scoring is retried late
  (`ShadowGate.LateRetrySharesAComparison`). Three windows of one worker share none as long as each
  ends with the comparison that made it due (`ShadowGate.ThreeWindows`), and every window does if
  and only if at each scoring that comparison is still the newest
  (`ShadowGate.WindowsEndAtTheirTriggers`). A comparison is recorded and the statistics are read in
  two transactions, so with several processes that can fail and three windows can share one:
  `ShadowGate.LateReadsShareAComparison`.
- Two compiles of one task are never in progress at once if and only if no trigger finds it in
  `tracing` while one is going (`CompileGuard.NeverTwoCompiles`), which takes a lease reclaimed too
  early (`CompileGuard.OverlapNeedsAnEarlyReclaim`, `CompileGuard.SlowCompileOverlaps`). The bound
  of three paid compiles does not depend on it. A delivery that raises after its commit is taken back:
  `CompileGuard.DeliveredAndTakenBack`.
- The retry bound is said to hold whatever the database does (`paw_kit/jit/compiler.py:109-116`).
  Every time the counter goes backwards can cost two more compiles, and every increment that earns
  a retry without advancing it one: `CompileGuard.BoundedBySetbacks`, `CompileGuard.BoundIsReached`.
- `is_compiling` tells whether a compile thread of the process is running if and only if no worker
  drops its process's entry while another is (`paw_kit/jit/compiler.py:124-126`), whether the entry
  is the other's or its own: `CompileGuard.IsCompilingIsRight`, `CompileGuard.PopsSuccessor`,
  `CompileGuard.SecondWorkerHidesTheFirst`. A compile on the caller's own thread is never entered
  and not reported: `CompileGuard.CallersThreadIsNotReported`.
- `atomic_write_text` is said to leave the target untouched on any failure
  (`paw_kit/atomicio.py:71-72`). An interrupt between the rename and the return leaves the new
  content: `AtomicWrite.RaisingCall`. The mode is set after the file is synced, so unless it is
  the private one a crash can drop it: `AtomicWrite.CrashKeepsPrivateOnly`. A link is said to be
  left in place; it is if and only if no call renames onto it, and a call alone does exactly when
  the name it resolves to is itself a link, at the end of a chain that never ends:
  `AtomicWrite.LinkStays`, `AtomicWrite.ResolvesToLinkIffEndless`.
- The rotated file is said to predate the live one by construction (`paw_kit/cli.py:1647-1648`).
  It does if and only if no line is written into it while the live one has lines:
  `HistoryLog.RotatedPredatesLive`, `HistoryLog.LateLineReadsEarly`.

## Model

| member | source | states |
|---|---|---|
| `DeadlinePool.NeverQueuedBehindAWedge` | paw_kit/jit/deadline.py:102-136 | in every reachable state free permits + callers between acquire and enqueue + queued jobs + busy workers = pool size, so the queue is never longer than the number of workers not inside a call |
| `DeadlinePool.OnePermitPerReturn` | paw_kit/jit/deadline.py:102-136 | an accepted call hands back at most one permit, exactly one by the time it is gone, and none if its function never returns |
| `DeadlinePool.WedgeCost` | paw_kit/jit/deadline.py:113-136 | at most pool-size never-returning calls are ever admitted, and from then on every call is refused at once |
| `DeadlinePool.WedgedForGood` | paw_kit/jit/deadline.py:113-136 | once every slot is wedged no later run admits a call |
| `DeadlinePool.CallerReadsItsOwnOutcome` | paw_kit/jit/deadline.py:102-136 | a caller that sees `done` reads exactly the value or the error its own function produced |
| `PoolService.RefusedOnlyWhenAllAreHeld` | paw_kit/jit/deadline.py:113-126 | in every reachable state a call is refused if and only if as many calls hold a permit as the pool has workers, and accepted otherwise |
| `PoolService.OnlyWedgesStayHeld` | paw_kit/jit/deadline.py:102-136 | when nothing can happen without a new call, the permits held are exactly those of the calls that never return, nothing is queued and all other permits are free |
| `PoolService.FirstQueuedFirstServed` | paw_kit/jit/deadline.py:102-136 | once a call has been taken off the queue, so has every call that was waiting there when it was put on |
| `DeadlinePool.BoundedPool.constructor` | paw_kit/jit/deadline.py:78-96 | all permits free, all workers idle, nothing queued |
| `DeadlinePool.BoundedPool.TryAcquire` | paw_kit/jit/deadline.py:121-126 | refused exactly when no permit is free; the state moves as the machine's step says |
| `DeadlinePool.BoundedPool.Submit` | paw_kit/jit/deadline.py:127-129 | the job goes to the back of the queue and its caller starts waiting |
| `DeadlinePool.BoundedPool.Await` | paw_kit/jit/deadline.py:130-136 | the result delivered is the box's value or error, or the deadline error when the event is unset |
| `DeadlinePool.BoundedPool.GiveBack` | paw_kit/jit/deadline.py:109-111 | the worker returns its permit and is idle again |
| `CompileGuard.AtMostThreePaidCompiles` | paw_kit/jit/compiler.py:83-126 | over any number of triggers, threads, processes, deaths and reclaimed leases, at most three compiles are paid for before shadow, ready or failed |
| `CompileGuard.NeverTwoCompiles` | paw_kit/jit/compiler.py:58-84 | two compiles are never in progress at once in a run if and only if no trigger finds the task in tracing while a compile of it is going |
| `CompileGuard.OverlapNeedsAnEarlyReclaim` | paw_kit/jit/db.py:828-917 | without a lease reclaimed from under a live compile no run has two compiles in progress |
| `CompileGuard.OneCompileAtATime` | paw_kit/jit/compiler.py:58-84 | that, and status `compiling` while one is in progress, if and only if no lease is reclaimed from under a live compile and no delivery raises after it was committed |
| `CompileGuard.DeliveredAndTakenBack` | paw_kit/jit/db.py:1088-1124 | a delivery that raises after its commit is taken back by its own worker whenever an attempt is left |
| `CompileGuard.SlowCompileOverlaps` | paw_kit/jit/db.py:828-917 | a run in which a slow compile is reclaimed: two compiles side by side, and the late failure takes back what the first delivered |
| `CompileGuard.BoundedBySetbacks` | paw_kit/jit/compiler.py:105-123 | in every run, whatever the counter does: paid compiles are at most three, plus two for each time the counter went backwards, plus one for each increment that earned a retry without advancing it |
| `CompileGuard.BoundIsReached` | paw_kit/jit/compiler.py:105-123 | for every number of setbacks, and of mistaken increments up to one more, a run that pays for exactly what the bound allows |
| `CompileGuard.StuckCounterFailsClosed` | paw_kit/jit/compiler.py:109-123 | a failed attempt whose counter did not advance ends in failed, and when no other compile was going no later run compiles again |
| `CompileGuard.FailedIsFinal` | paw_kit/jit/compiler.py:83-84 | from failed with no compile going, no run starts or pays for a compile |
| `CompileGuard.DeliveryStands` | paw_kit/jit/compiler.py:98-104 | a delivery with no other compile going leaves the status delivered to, in every later run until the gate moves it, and no later trigger pays for another compile |
| `CompileGuard.LateDeliveryRevives` | paw_kit/jit/compiler.py:98-104 | with one still going, its delivery takes the task out of failed |
| `CompileGuard.IsCompilingIsRight` | paw_kit/jit/compiler.py:25-29 | in every run the report says of every process in every state whether any compile thread it ever entered is running, if and only if no worker drops its process's entry, or dies as the one entered, while another such thread runs |
| `CompileGuard.SecondWorkerHidesTheFirst` | paw_kit/jit/compiler.py:124-126 | a second worker of a process that delivers and drops its own entry leaves a first one running unreported |
| `CompileGuard.CallersThreadIsNotReported` | paw_kit/jit/compiler.py:128-130 | a compile on the caller's own thread is never entered, so alone it is in progress and unreported |
| `CompileGuard.IsCompilingNeverOverReports` | paw_kit/jit/compiler.py:25-29 | in every state of every run whatever is reported is an entered thread that is running |
| `CompileGuard.IsCompilingUnderReports` | paw_kit/jit/compiler.py:25-29 | a run after which a compile is in progress and its own process reports none |
| `CompileGuard.PopsSuccessor` | paw_kit/jit/compiler.py:124-126 | in any state, a worker that ends while another entered one of its process runs leaves that one unreported |
| `CompileGuard.WorkerIsARun` | paw_kit/jit/compiler.py:86-126 | the worker run without interruption is a run of the machine |
| `CompileGuard.CompileTask.TryBeginCompile` | paw_kit/jit/db.py:739-826 | claims exactly when the status is tracing, in one step |
| `CompileGuard.CompileTask.RegisterThread` | paw_kit/jit/compiler.py:132-139 | the thread is entered before it starts |
| `CompileGuard.CompileTask.ReportsCompiling` | paw_kit/jit/compiler.py:25-29 | whether the entered thread is running |
| `CompileGuard.CompileTask.ChargeFailure` | paw_kit/jit/compiler.py:117-123 | back to tracing exactly when the counter advanced and is below the cap; failed when it did not advance |
| `CompileGuard.CompileTask.ReclaimStaleCompile` | paw_kit/jit/db.py:828-917 | won exactly from compiling with an expired lease; then the attempt is charged in the same step and the cap, if given, makes it final; otherwise nothing changes |
| `CompileGuard.CompileTask.RunWorker` | paw_kit/jit/compiler.py:86-126 | the whole worker leaves exactly the state of the matching run |
| `TraceDb.RecordKeepsNumbering` | paw_kit/jit/db.py:1346-1409 | excluded rows carry 0 and countable rows of every epoch stay consecutively numbered after a record |
| `TraceDb.PruneKeepsNumbering` | paw_kit/jit/db.py:1647-1663 | and after retention |
| `TraceDb.MaxSeqIsNewest` | paw_kit/jit/db.py:1419-1429 | the maximum is the number of the newest retained countable row |
| `TraceDb.SeqSurvivesPruning` | paw_kit/jit/db.py:1419-1429 | retention leaves the counter of an epoch alone if and only if a countable row of it is kept or there was none |
| `TraceDb.PruningKeepsTheNewest` | paw_kit/jit/db.py:1647-1664 | retention keeps exactly the newest cap rows, or all when there are no more; a cap of 0 keeps everything |
| `TraceDb.RecordingCounts` | paw_kit/jit/db.py:1346-1407 | an agreement, a disagreement and an adapter error are numbered next and enter the newest window of their epoch and phase, where only an agreement counts as one; a teacher failure and a pool refusal get number 0 and change no window |
| `TraceDb.RefusedWhenEatenInto` | paw_kit/jit/db.py:1431-1535 | once an epoch has completed a window, and while its counter is intact, the statistics are refused if and only if retention has eaten into the newest window; otherwise they are those of all comparisons ever recorded |
| `TraceDb.TallyCounts` | paw_kit/jit/db.py:1500-1504 | a verdict's count is the number of positions that carry it |
| `TraceDb.ExcludedRunRestartsSeq` | paw_kit/jit/db.py:1647-1663 | for every cap and every table, a run of excluded rows as long as the cap makes the next comparison number 1 again |
| `TraceDb.FullWindow` | paw_kit/jit/db.py:1431-1547 | statistics over a full window count exactly the newest countable rows of that epoch and phase |
| `TraceDb.NewestOfSuffix` | paw_kit/jit/db.py:1431-1547 | retention never changes what a full window holds |
| `TraceDb.OnePhaseMatching` | paw_kit/jit/db.py:1431-1547 | the phase filter is idle when an epoch has rows of one phase only |
| `ShadowWindow.ScoringAdvances` | paw_kit/jit/shadow.py:613-655 | a scoring strictly raises the scored-windows record, leaves it at seq/window, and in shadow never above the stall factor |
| `ShadowWindow.ScoringsTumble` | paw_kit/jit/shadow.py:589-655 | for any sequence of late, unscorable, skipped and renumbered comparisons, scorings lie in strictly later windows and in shadow number at most the stall factor |
| `ShadowWindow.WindowsBarelyOverlap` | paw_kit/jit/shadow.py:589-655 | the comparison numbers up to two triggers of one worker overlap in at most s mod window, on-time ones in none, and none is covered three times |
| `ShadowWindow.WindowRates` | scripts/measure_shadow_mode.py:202-218 | figure k is exactly chunk k of the sorted countable rows, one for every full chunk; a zero step is an error |
| `ShadowWindow.RateFigures` | scripts/measure_shadow_mode.py:202-220 | figure k covers comparisons k*window to (k+1)*window of the sorted ones, gives the numbers of the first and the last, counts the positions with each verdict, adds up to the window, and its rate times the window is the agreements |
| `ShadowWindow.OfflineMatchesTheGate` | scripts/measure_shadow_mode.py:202-218 | while nothing of a one-phase epoch was pruned, the offline chunk of an on-time boundary is the window the gate read |
| `ShadowWindow.NumberedAreCountable` | scripts/measure_shadow_mode.py:204 | rows with a positive number are exactly the countable ones |
| `ShadowGate.PromotionIsEarned` | paw_kit/jit/shadow.py:589-665 | in every interleaving shadow becomes ready only through a full window of the live epoch at or above the threshold, due no later than the stall point, or by opting out |
| `ShadowGate.DemotionIsEarned` | paw_kit/jit/shadow.py:589-676 | ready becomes shadow only through a full audit window of the live epoch strictly below the demote threshold, or a fresh compile |
| `GateOutcome.SettledByCounts` | paw_kit/jit/shadow.py:589-676 | the converse, in counts: in any state a stored comparison moves the task if and only if its window is due, not past five windows in shadow, and full, the agreeing comparisons of the newest window are at least threshold*window (below demote threshold*window in audit), the task is at the job's epoch and phase and no access fails; then shadow becomes ready and ready shadow, one epoch on |
| `GateOutcome.SettledIsARun` | paw_kit/jit/shadow.py:589-676 | that handling, uninterrupted, is a run of the machine |
| `GateOutcome.ThrottleLosesNoDraw` | paw_kit/jit/shadow.py:360-402 | a shadow job is up for skipping if and only if no later comparison of its epoch could be scored, whatever was scored before |
| `GateOutcome.SkippedOnlyPastTheStallPoint` | paw_kit/jit/shadow.py:344-402 | in every run a job is skipped only in shadow, with a window, and once a comparison of its epoch was numbered five windows or more |
| `GateOutcome.SoleProcessSkips` | paw_kit/jit/shadow.py:344-402 | with one process and nothing pruned the next shadow job can be skipped if and only if five windows of countable comparisons are recorded at its epoch, cached numbers included |
| `GateOutcome.AdmitForgetsOlderEpochs` | paw_kit/jit/shadow.py:428-470 | taking up a job forgets the recorded windows and cached numbers of older epochs than its own and no others |
| `ShadowGate.NoShortcut` | paw_kit/jit/decorator.py:633-638 | without an opted-out process no run promotes by opting out |
| `ShadowGate.EpochsOnlyRise` | paw_kit/jit/db.py:1163-1244 | history is only extended |
| `ShadowGate.OldJobsAreInert` | paw_kit/jit/shadow.py:428-444 | a job of an epoch that is over never changes the task again, even after its bookkeeping was pruned |
| `ShadowGate.AtMostFiveDraws` | paw_kit/jit/shadow.py:613-655 | a process gets at most five promotion draws per live epoch, whatever the mix of boundaries, retries, skips, window sizes, other processes and restarted counters |
| `ShadowGate.DrawsAreTumbling` | paw_kit/jit/shadow.py:589-655 | successive scorings of one process, epoch and phase lie in strictly later windows and each reads a full one |
| `ShadowGate.WindowsEndAtTheirTriggers` | paw_kit/jit/shadow.py:632-655 | in every run of any number of processes all scored windows end with the comparison that made them due, if and only if at each scoring that comparison was still the newest of its epoch |
| `ShadowGate.WindowsShareWhenReadClose` | paw_kit/jit/shadow.py:632-655 | in every run, any two windows of one epoch, phase and size hold a comparison in common if and only if fewer than a window of comparisons were recorded between their readings |
| `ShadowGate.ThreeShareWhenReadClose` | paw_kit/jit/shadow.py:632-655 | and three do if and only if fewer than a window were recorded between the first reading and the third |
| `ShadowGate.WindowIsItsComparisons` | paw_kit/jit/db.py:1431-1547 | a scored window is the last of all comparisons of its epoch and phase recorded by then, pruned ones included |
| `ShadowGate.LateRetrySharesAComparison` | paw_kit/jit/shadow.py:589-655 | a run in which two windows that end with their triggers share comparison 4, the first having been retried after a failed read |
| `ShadowGate.OnTimeWindowsShare` | paw_kit/jit/shadow.py:589-655 | two windows of one series that end with their triggers share a number if and only if the triggers are less than a window apart |
| `ShadowGate.TwoWindows` | paw_kit/jit/shadow.py:589-655 | what they share is only what the earlier scoring was late by |
| `ShadowGate.ThreeWindows` | paw_kit/jit/shadow.py:589-655 | and no comparison is in three of them |
| `ShadowGate.SoleProcessWindows` | paw_kit/jit/shadow.py:589-655 | with one process on the database no scoring is stale, every window ends with its trigger, and two windows share only what the earlier was late by |
| `ShadowGate.PromotedBeforeTheStallPoint` | paw_kit/jit/shadow.py:613-665 | when no scoring was stale, every comparison of a promoting window lies at or before the stall point |
| `ShadowGate.LateReadsShareAComparison` | paw_kit/jit/shadow.py:632-655 | a run of two processes with one legal configuration in which three windows scored by one worker all hold the same comparison |
| `ShadowGate.WindowHolds` | paw_kit/jit/db.py:1431-1547 | a scored window holds only recorded countable comparisons of its own epoch and phase |
| `ShadowQueue.BooksBalance` | paw_kit/jit/shadow.py:216-278 | pending = queued + in flight + submitters between counting and queueing, and submitted = finished + dropped + unfinished for each kind, in every state of every run |
| `ShadowQueue.NeverClamped` | paw_kit/jit/shadow.py:326-344 | the clamp of the pending counter at zero never acts |
| `ShadowQueue.FifoBySingleWorker` | paw_kit/jit/shadow.py:307-344 | jobs are taken in the order they were accepted, by at most one live worker per key |
| `ShadowQueue.DrainedMeansDone` | paw_kit/jit/shadow.py:711-725 | a pending sum of zero means every accepted job of those keys was taken and finished at that read |
| `QueueLimits.QueueStaysWithinItsSize` | paw_kit/jit/shadow.py:307-324 | in every run a key's queue holds at most the queue size of the job that opened it, and at least one place |
| `QueueLimits.RefusedOnlyWhenFull` | paw_kit/jit/shadow.py:216-278 | in every run a put is refused if and only if the queue is exactly that full |
| `QueueLimits.EnsuredIsServed` | paw_kit/jit/shadow.py:307-324 | in every run a submitter that goes on to queue leaves a thread of its key that is not dead, and a new one is started if and only if all of the key's threads are dead |
| `ShadowRunner.SubmitOutcome` | paw_kit/jit/shadow.py:216-278 | accepted exactly when the queue has room or is new; appended to its own queue only; counted as pending or as dropped accordingly; a live worker either way |
| `ShadowRunner.FirstBurst` | paw_kit/jit/shadow.py:216-324 | of a burst on a key never seen, with nothing taken, exactly the first max(1, queue size of the first job) are accepted, in order, and the rest dropped |
| `ShadowRunner.PruneIsTheGates` | paw_kit/jit/shadow.py:428-444 | pruning one key drops exactly its older epochs and touches no other key |
| `ShadowRunner.ScoringIsTheGates` | paw_kit/jit/shadow.py:589-655 | what a stored comparison does to the windows is the gate machine's check and read in a row |
| `ShadowRunner.TransitionIsTheGates` | paw_kit/jit/shadow.py:589-676 | the status, the epoch and the window record the runner leaves are those of the gate machine's check, read and decision with nothing in between, failing accesses included |
| `ShadowRunner.TaskStore.RecordShadowPair` | paw_kit/jit/db.py:1346-1417 | the row is appended with the next number, or 0 when it is not countable, and the table is pruned when that is due |
| `ShadowRunner.TaskStore.TryPromote` | paw_kit/jit/db.py:1163-1205 | moves shadow to ready exactly at the expected epoch and raises it by one |
| `ShadowRunner.TaskStore.TryDemote` | paw_kit/jit/db.py:1207-1244 | moves ready to shadow exactly at the expected epoch and raises it by one |
| `ShadowRunner.ShadowRunner.EnsureWorker` | paw_kit/jit/shadow.py:307-324 | opens the queue on first use, with max(1, queue size) places, and starts a thread unless a live one is registered |
| `ShadowRunner.ShadowRunner.PutNowait` | paw_kit/jit/shadow.py:228-230 | full exactly when the queue has no room; otherwise the job is at its back |
| `ShadowRunner.ShadowRunner.RollBack` | paw_kit/jit/shadow.py:230-238 | a dropped job is taken off pending and counted under its kind |
| `ShadowRunner.ShadowRunner.Submit` | paw_kit/jit/shadow.py:216-278 | the four sections in a row, true exactly when the queue admits the job |
| `ShadowRunner.ShadowRunner.TakeJob` | paw_kit/jit/shadow.py:326-344 | the oldest job of the key is taken |
| `ShadowRunner.ShadowRunner.FinishJob` | paw_kit/jit/shadow.py:326-344 | the job leaves pending and is counted finished |
| `ShadowRunner.ShadowRunner.PruneStaleEpochState` | paw_kit/jit/shadow.py:428-444 | after the deletions exactly the entries of other keys and of this and later epochs are left |
| `ShadowRunner.ShadowRunner.CurrentSeq` | paw_kit/jit/shadow.py:346-358 | the cached number, else the database's, or 0 when it cannot be read, which is then cached |
| `ShadowRunner.ShadowRunner.StallThrottled` | paw_kit/jit/shadow.py:360-402 | skips exactly an unsampled shadow comparison past the stall point |
| `ShadowRunner.ShadowRunner.ScoreWindow` | paw_kit/jit/shadow.py:618-655 | scores exactly when a window is due, enough comparisons fill it and the statistics can be read; the rate is that of the newest window |
| `ShadowRunner.ShadowRunner.MaybeTransition` | paw_kit/jit/shadow.py:589-676 | the task moves exactly on a window scored now with enough agreements for a promotion, or too few for staying ready, at the job's own epoch and phase and with no database error |
| `ShadowRunner.ShadowRunner.TotalPending` | paw_kit/jit/shadow.py:687-725 | the pending count over the keys |
| `Agreement.AgreementIsNormalEquality` | paw_kit/jit/agreement.py:64-114 | where no text stands opposite a structure, agreement holds if and only if normal forms are equal and the nesting fits the budget |
| `Agreement.AgreesWithItself` | paw_kit/jit/agreement.py:64-140 | an answer without floats agrees with itself if and only if it is not nested too deeply |
| `Agreement.Symmetric` | paw_kit/jit/agreement.py:64-140 | agreement is symmetric on all values, failing serialisations included |
| `Agreement.DepthMonotone` | paw_kit/jit/agreement.py:64-66 | a larger remaining depth budget never loses an agreement |
| `Agreement.ToleranceWidens` | paw_kit/jit/agreement.py:143-192 | where the default agrees, the tolerant form agrees if and only if tolerated numbers are within tolerance; for where it does not, see the next two rows |
| `Agreement.ToleranceIsFieldwise` | paw_kit/jit/agreement.py:143-192 | of two dicts or models the tolerant form agrees if and only if they have one shape, every tolerated pair of numbers, flags not counted, is within its tolerance, and every other field agrees by default; on anything else it is the default |
| `Agreement.ToleranceAdmits` | paw_kit/jit/agreement.py:143-192 | differing whole numbers within the tolerance of their field: the tolerant form agrees where the default disagrees |
| `Agreement.OneNumberWithin` | paw_kit/jit/agreement.py:143-192 | with a tolerance on one whole-number field the answers agree if and only if the numbers are that close, by default only if they are equal |
| `Agreement.FloatsAgreeToNineDigits` | paw_kit/jit/agreement.py:81-87 | two floats agree if and only if they are equal, or of one sign and the smaller is at least 999999999 parts in a thousand million of the larger |
| `Agreement.NumbersAreNotFlags` | paw_kit/jit/agreement.py:73-87 | a whole number beside a float is compared as one, and agrees with no flag, text, structure or other value |
| `Agreement.TextOppositeStructure` | paw_kit/jit/agreement.py:89-96 | a text agrees with a structure if and only if it agrees with what the structure is written as, and a failing write is a disagreement |
| `Agreement.ToleranceOnlyWidens` | paw_kit/jit/agreement.py:143-192 | on whole-number fields and tolerances of zero or more no agreement is lost |
| `Agreement.FloatsCanNarrow` | paw_kit/jit/agreement.py:143-192 | on floats one can be lost: 10000000000.0 against 10000000001.0 at tolerance 0 |
| `Agreement.LargerTolerances` | paw_kit/jit/agreement.py:143-192 | raising tolerances keeps every agreement |
| `Agreement.AgreementBounds` | paw_kit/jit/agreement.py:143-192 | a tolerant agreement bounds every tolerated difference and every other field agrees by default |
| `AtomicWrite.AlwaysWhole` | paw_kit/atomicio.py:65-108 | with any number of concurrent writers, kills, failures and machine crashes, a name always holds its first content or the whole content of one call writing to it, and never disappears |
| `AtomicWrite.DurableOnceReturned` | paw_kit/atomicio.py:99-102 | after a return with the directory synced no earlier file ever comes back, crashes included |
| `AtomicWrite.WithoutDirSync` | paw_kit/atomicio.py:46-62 | when the directory sync failed the call returns and a crash can bring the old file back |
| `AtomicWrite.RaisingCall` | paw_kit/atomicio.py:103-108 | a failing call removes its file and leaves names alone; its content is there if and only if it failed after the rename |
| `AtomicWrite.ModeNeverMoves` | paw_kit/atomicio.py:81-98 | in a run without a crash every file ever under a name has the mode of the first one, or the private mode when there was none |
| `AtomicWrite.CrashKeepsPrivateOnly` | paw_kit/atomicio.py:94-98 | after any crash-free run and a durable return, every crash keeps the mode of the name if and only if it is the private one |
| `AtomicWrite.LinkStays` | paw_kit/atomicio.py:76-80 | in every run, crashes included, a link is the same link in every state if and only if no call renames its file onto it |
| `AtomicWrite.StepLink` | paw_kit/atomicio.py:99 | such a rename leaves a file in the link's place |
| `AtomicWrite.LinkOffTheCallsStays` | paw_kit/atomicio.py:76-80 | a link no call resolves to is kept, whatever loops there are elsewhere |
| `AtomicWrite.PathsStillLead` | paw_kit/atomicio.py:76-80 | when no call resolves to a link, all links stay and every path leads to the same name as before |
| `AtomicWrite.ResolvesToLinkIffEndless` | paw_kit/atomicio.py:76-80 | the name a path resolves to is itself a link if and only if the chain of links from the path never ends |
| `AtomicWrite.FileSystem.Realpath` | paw_kit/atomicio.py:76-80 | follows links one by one to the resolved name |
| `AtomicWrite.FileSystem.Prepare` | paw_kit/atomicio.py:74-84 | destination and mode are settled, no name changes |
| `AtomicWrite.FileSystem.Fill` | paw_kit/atomicio.py:86-98 | the temporary file holds the whole content, is synced and has the destination's mode or else the private one; or the call has cleaned up |
| `AtomicWrite.FileSystem.Publish` | paw_kit/atomicio.py:99-102 | the destination names the new file and no other name changes; without an interrupt the call has returned |
| `AtomicWrite.FileSystem.AtomicWriteText` | paw_kit/atomicio.py:65-108 | the whole call is a run; an exception before the rename leaves every name as it was, one after it leaves the new content; and it keeps all links if and only if the name it resolves to is not one |
| `HistoryLog.WholeLines` | paw_kit/backend/manifest_lineage.py:199-296 | under any interleaving of appends and rotations every file is a sequence of whole lines of distinct calls, and no line is in two files |
| `HistoryLog.FilesStayBounded` | paw_kit/backend/manifest_lineage.py:199-233 | with at most m calls past their size check at once and lines of at most l bytes, no file exceeds the cap plus (m-1)*l |
| `HistoryLog.ReadsBackATail` | paw_kit/cli.py:1647-1653 | appending one by one, rotated file then live file read back an unbroken tail of everything appended, ending with the newest |
| `HistoryLog.ReadsInOrderUnlessMisplaced` | paw_kit/cli.py:1647-1653 | in every run of any number of processes the two files read back an unbroken, ordered tail of everything written, in every state, if and only if no line lands in the rotated file behind live lines or in a file that lost its name |
| `HistoryLog.RotatedPredatesLive` | paw_kit/cli.py:1647-1653 | the rotated file predates the live one in every state if and only if no line is written into it while the live one has lines |
| `HistoryLog.TwiceTheCap` | paw_kit/backend/manifest_lineage.py:199-233 | appending lines that fit one after another, both files together never exceed twice the cap |
| `HistoryLog.AppendRotatesOnlyPastTheCap` | paw_kit/backend/manifest_lineage.py:199-296 | an append whose line fits leaves the rotated file alone and only extends the live one; one whose line does not makes the whole live file the rotated one and starts a new file with the line |
| `HistoryLog.GenerationsAreFull` | paw_kit/backend/manifest_lineage.py:199-296 | appending any lines to an empty log one by one: both files hold the last lines byte for byte, and each generation ended only because its next line would have passed the cap |
| `HistoryLog.KeepsAllThatFits` | paw_kit/backend/manifest_lineage.py:199-233 | lines that fit under the cap together are all in the live file and nothing is rotated |
| `HistoryLog.NothingIsLostBelowTheCap` | paw_kit/backend/manifest_lineage.py:199-296 | the same for any number of processes and any interleaving: while all lines together fit, nothing is moved aside and the live file holds every line written, in order |
| `HistoryLog.AppendAllIsARun` | paw_kit/backend/manifest_lineage.py:236-296 | appending one after another is a run of the machine with one call underway at a time |
| `HistoryLog.LateLineReadsEarly` | paw_kit/cli.py:1647-1653 | with a descriptor opened before a rotation, a line written later reads back earlier |
| `HistoryLog.SecondRotationLosesAGeneration` | paw_kit/backend/manifest_lineage.py:215-222 | two calls that both found the file full lose the rotated generation |
| `HistoryLog.AppendingInOrder` | paw_kit/backend/manifest_lineage.py:236-296 | one append keeps the tail unbroken |
| `HistoryLog.Sidecar.RotateIfFull` | paw_kit/backend/manifest_lineage.py:199-233 | the live file moves aside exactly when the next line would pass the cap |
| `HistoryLog.Sidecar.WriteLine` | paw_kit/backend/manifest_lineage.py:282-288 | the line goes whole to the end of the live file, created if need be |
| `HistoryLog.Sidecar.AppendHistoryEntry` | paw_kit/backend/manifest_lineage.py:236-296 | the whole append, keeping what is read back an unbroken tail |
| `AdapterCache.BoundedTouch` | paw_kit/backend/mock.py:99-107 | evicting at every use leaves what evicting once at the end would leave |
| `AdapterCache.RecencySorted` | paw_kit/backend/mock.py:99-107 | the recency order is the order of last uses |
| `AdapterCache.ResidentsAreTheMostRecent` | paw_kit/backend/mock.py:99-107 | after any run the residents, in order, are the at most 256 distinct paths used last |
| `AdapterCache.EvictedAreOlder` | paw_kit/backend/mock.py:99-107 | a used path that is not resident was last used before all 256 residents |
| `AdapterCache.UsesMakeRecent` | paw_kit/backend/mock.py:99-312 | every compile, edit, hit or load makes its path the most recent and evicts past the cap; a miss, a refused lookup and file changes leave the order alone |
| `AdapterCache.InferAnswersTheLastCompile` | paw_kit/backend/mock.py:109-254 | until the path is recompiled, edited or its file changed, inference answers as the last compile dictates; only a file over the size limit is lost with its eviction |
| `AdapterCache.RulesAreForgotten` | paw_kit/backend/mock.py:290-304 | a registered rule answers while resident, and after eviction the file decides again |
| `AdapterCache.DefaultAnswersWhileResident` | paw_kit/backend/mock.py:196-304 | a default set by hand answers, while the adapter stays resident, every input with neither rule nor example, and changes no other answer |
| `AdapterCache.UnwrittenIsForgotten` | paw_kit/backend/mock.py:157-176 | a compile whose write failed answers while resident, and after eviction the older file does |
| `AdapterCache.FirstOutputIsFirst` | paw_kit/backend/mock.py:235-239 | the example that answers is the first with this input and an output |
| `AdapterCache.RepliesInOrder` | paw_kit/backend/mock.py:229-254 | an input's rule answers before any example, the first example with an output before the default, the default before giving up, which raises when strict and gives the sentinel otherwise |
| `AdapterCache.MockBackend.PutAdapter` | paw_kit/backend/mock.py:99-107 | inserted at the end, oldest evicted past the cap |
| `AdapterCache.MockBackend.Evict` | paw_kit/backend/mock.py:106-107 | popping from the front leaves the newest 256 |
| `AdapterCache.MockBackend.LoadAdapterFromDisk` | paw_kit/backend/mock.py:178-194 | nothing for a missing, oversized or misshapen file, else what it holds |
| `AdapterCache.MockBackend.Compile` | paw_kit/backend/mock.py:109-176 | the adapter is cached, then written; a failing write raises and leaves it cached |
| `AdapterCache.MockBackend.Infer` | paw_kit/backend/mock.py:196-254 | the reply is that of the resident adapter, else of the file, which becomes resident |
| `AdapterCache.MockBackend.Lookup` | paw_kit/backend/mock.py:229-242 | rules, then examples, then the default |
| `AdapterCache.MockBackend.GetOrCreateAdapter` | paw_kit/backend/mock.py:260-288 | resident, loaded, or a stub |
| `AdapterCache.MockBackend.RegisterRule` | paw_kit/backend/mock.py:290-296 | the rule is set in memory only |
| `AdapterCache.MockBackend.SetDefaultResponse` | paw_kit/backend/mock.py:298-304 | the default is set in memory only |
| `AdapterCache.MockBackend.GetAdapter` | paw_kit/backend/mock.py:306-312 | the resident adapter, moved to the end, or none |
| `Binomial.ResidualIsTheChance` | scripts/measure_shadow_mode.py:660-680 | the closed form is the total weight of all windows whose rate is at or above the threshold |
| `Binomial.RaisesBelowNone` | scripts/measure_shadow_mode.py:660-680 | the computation raises if and only if threshold times window is at most -1, never for a threshold of 0 or more |
| `Binomial.EachRunListed` | scripts/measure_shadow_mode.py:660-680 | every sequence of verdicts is among those summed over |
| `Binomial.NoRunTwice` | scripts/measure_shadow_mode.py:660-680 | and none is counted twice |
| `Binomial.ResidualIsMonotone` | scripts/measure_shadow_mode.py:660-680 | it is a probability, rises with p and falls with the threshold |
| `Binomial.WithinStallBounds` | scripts/measure_shadow_mode.py:660-680 | the chance over several windows is a probability between that of one and their sum |
| `Binomial.WithinStallIsTheChance` | scripts/measure_shadow_mode.py:660-680 | and is the total weight of the sequences of windows in which at least one clears |
| `FiscalCalendar.YearLength` | scripts/measure_finetune_fiscal.py:150-153 | calendar years are 365 or 366 days by the Gregorian rule |
| `FiscalCalendar.RangeIsFourYears` | scripts/measure_finetune_fiscal.py:95-96 | the range is 1 January 2024 to 31 December 2027 |
| `FiscalCalendar.FirstMondayIsOne` | scripts/measure_finetune_fiscal.py:150-153 | a Monday, in the first week of February, with none before it in the month |
| `FiscalCalendar.WholeWeeks` | scripts/measure_finetune_fiscal.py:161-165 | a fiscal year is exactly 52 or 53 whole weeks |
| `FiscalCalendar.InFiscalYear` | scripts/measure_finetune_fiscal.py:156-158 | the fiscal year of a date is the only one whose bounds contain it |
| `FiscalCalendar.LabelMeansSevenDays` | scripts/measure_finetune_fiscal.py:168-172 | a label is held by exactly the seven days of its week, and only weeks 1 to 52 or 53 occur |
| `FiscalCalendar.WeekStartsOnMonday` | scripts/measure_finetune_fiscal.py:168-172 | those seven days start on a Monday |
| `FiscalCalendar.LabelsNeverDecrease` | scripts/measure_finetune_fiscal.py:168-172 | labels never decrease with the date |
| `FiscalCalendar.WeekLaterIsNextLabel` | scripts/measure_finetune_fiscal.py:168-172 | seven days later is the successor label, across year ends |
| `FiscalCalendar.ThreeYearsAreEnough` | scripts/measure_finetune_fiscal.py:175-180 | near the start of any fiscal year at all if and only if near that of its own calendar year |
| `FiscalCalendar.AllDates` | scripts/measure_finetune_fiscal.py:250-257 | the unreserved days of the range, in order |
| `FiscalCalendar.Shuffle` | scripts/measure_finetune_fiscal.py:265-267 | the swaps the draws ask for, from the last position down, hence a permutation |
| `FiscalCalendar.AnyOrderCanComeOut` | scripts/measure_finetune_fiscal.py:265-267 | for every arrangement of the days there are draws that produce it |
| `FiscalCalendar.BuildFixture` | scripts/measure_finetune_fiscal.py:232-267 | 300 days, none twice, none reserved, none out of range, every unreserved boundary day in, and the others exactly those drawn |
| `FiscalCalendar.FixtureCounts` | scripts/measure_finetune_fiscal.py:262-264 | 81 boundary days and 1372 others, so that the sample of 219 exists |
| `FiscalCalendar.EightyOneBoundaryDays` | scripts/measure_finetune_fiscal.py:262-264 | four windows of 21 days less the three reserved ones |
| `Mutator.EntriesAreOffers` | tools/mutate.py:260-317 | a mutation is collected if and only if a node of the tree offers it and its kind is not skipped |
| `Mutator.EachPlaceOnce` | tools/mutate.py:260-317 | no node is collected twice |
| `Mutator.SwapIsTheMutant` | tools/mutate.py:242-246 | for every operator the swap is the only one that answers differently exactly on equal operands (for an ordering) or always (for any other comparison) |
| `Mutator.OffersOneChange` | tools/mutate.py:280-317 | a two-operand comparison offers such a swap, `and` and `or` each other, a truth value its opposite, an int between -10000 and 10000 the next one up, and nothing else offers anything |
| `Mutator.RecordTellsTheMutant` | tools/mutate.py:270-317 | the record's old token is the one the node shows and its new token the one the mutated node shows |
| `Mutator.Visit` | tools/mutate.py:292-317 | the walk appends exactly the subtree's mutations, in order |
| `Mutator.Collect` | tools/mutate.py:260-317 | the list of the whole tree |
| `Mutator.ReplayIsExact` | tools/mutate.py:320-365 | replaying a collected record always succeeds, and changes exactly the collected node if and only if no other node shares its kind, position and old token |
| `Mutator.AltersMeansClashes` | tools/mutate.py:330-360 | the transformer alters exactly the nodes sharing kind, position and old token |
| `Mutator.AndInsideOr` | tools/mutate.py:342-347 | an `and` opening an `or` is touched by the other's replay and left as it was |

## Left out

- AtomicWrite.DurableOnceReturned: creating missing parent directories is not part of the file-system model, nor is their durability.
- AtomicWrite.FileSystem.Realpath: links among the parent directories of a path are not followed; names are whole paths.
- AtomicWrite.FileSystem.Prepare: missing parent directories are not created.
- ShadowWindow.WindowsBarelyOverlap: about comparison numbers; the rows themselves are the subject of ShadowGate.WindowsShareWhenReadClose.
- ShadowWindow.OfflineMatchesTheGate: says nothing about an epoch of which rows were pruned, where the offline chunks start elsewhere.
- ShadowGate.TwoWindows: about windows of equal size; a process whose configuration changes starts a new epoch.
- HistoryLog.WholeLines: a line reaches the file in one append; a write that buffering splits or the kernel cuts short is not modelled.
- Agreement.AgreementIsNormalEquality: floats are left out of the equivalence because closeness is not transitive; they are reals, without NaN, infinities or overflow in conversion.
- Agreement.ToleranceIsFieldwise: with the default comparison as base; another one handed in by the caller is not modelled.
- AdapterCache.InferAnswersTheLastCompile: a sequential statement; inference does not look again after its disk load, so another thread may come between, and a dict handed out by `get_adapter` may be edited by its holder.
- AdapterCache.MockBackend.GetOrCreateAdapter: its second look under the lock, which matters only to other threads, is left out.
- FiscalCalendar.YearLength: years have no upper end, and January of year 1 belongs to fiscal year 0, where Python raises.
- Mutator.ReplayIsExact: the tree is a value, so editing it in place is not captured; parsing and unparsing are not part of this model.
- SQLite, and failing or retried transactions: each is one step that happens or, for a stored comparison, does not.
- Deletion of tasks, and several tasks in one database: the gate is modelled for one task.
- Wall-clock time: deadlines are a step in which the caller gives up, and the sampling past the stall point is a free choice.
- The judge inside `_run_job`: its verdict is a free choice, so nothing depends on texts stored or redacted.
- Logging, warn-once sets, latency fields, the exit-time drain.
- Unicode normalisation, JSON text and reprs: parameters of the comparison, with only a possible failure assumed.
- `safe_agreement`, `select_folded_examples`, `classify`, `is_survivor`, `confirm_kill` and `run_phase`: branch checks that would add only easy members.
- Path safety, the command line, HTTP serving, schema and grammar code, and the remaining scripts.
