# jobsd, modelled and proved in Dafny

jobsd is a small job scheduler. Each instance has a SQLite database with a jobs table and a runs
table, a daemon whose loop enqueues due jobs and starts pending runs, and a command line whose
processes read and write the same database while the daemon works. This project models that
behaviour and proves what its code promises. `dafny verify dfyconfig.toml` checks all of it.

## The run protocol

`Protocol.dfy` is a step system. A step is one SQL statement or one critical section of one actor:
the loop goroutine, the completion goroutine of a run, a command line process, or the daemon process
starting or dying. The state holds both tables, the next ids, the active map with each run's phase,
the cancel reason of every run ever registered, the wait group, the clock, and where the loop is. A
store call that can fail carries its outcome in the step, so every interleaving and every pattern of
failures is a behaviour. `Domain.dfy`, `RunsStore.dfy` and `JobsStore.dfy` hold the rows and the
effect of each statement.

- `Safety.dfy`: an invariant that every step keeps, and so every reachable state has.
- `RunLife.dfy`: a run is started at most once; a terminal row is final although `MarkFinished` checks
  no status; where each canceled, succeeded or failed row comes from; the active map agrees with the
  table; when the loop has returned nothing is left running.
- `Reasons.dfy`: who is told to stop. A listed run is dropped exactly when its job is not under replace and has
  an active run; under replace every active run of the job is told before the new one starts; at shutdown every
  active run is told before the wait; and each reason comes from one such step.
- `Passes.dfy`: a pass that comes to its end has started each run it listed, or given it up for one of four causes;
  and each due job it listed was skipped by forbid, or enqueued once its policy let it in, or a statement failed.
- `Stranded.dfy`: a run whose `MarkRunning` failed is never run afterwards.
- `Orphans.dfy`: a row that is running when the daemon dies is never finished or run again, and while it is
  there it keeps a forbid job from being enqueued.
- `ManyLoops.dfy`: that a run is started at most once needs neither the lock nor a single loop: it holds
  of any number of loops on the same tables, because of the claim alone.
- `Exclusion.dfy`: a job that is never under replace has one active run at a time, and its next run
  waits for the previous one's persistence, summary and hook.
- `Summary.dfy`: the last-run columns are those of the run finished last.
- `Order.dfy`: a job's runs start in the order they were queued, under side conditions on the steps.
  `QueueOrder.dfy`: for any job and any behaviour, exactly when its queue stays in order.
  `StartOrder.dfy`: exactly when its runs have started out of order.
- `PolicyLimits.dfy`: what forbid and replace promise about the queue, and exactly which inserts keep it.
- `Occurrences.dfy`: a job's scheduled rows increase, so that no occurrence is enqueued twice; with
  atomic commands and processing always. `Repeats.dfy`: without, only one of five slips can end that.
  `OnceRuns.dfy`: a once job has one scheduled row per arming. `Pauses.dfy`: a disabled job is in no due list, and
  gets a scheduled row only from a due pass that has held it since before.
- `Witness.dfy`: reachable behaviours in which the forbid limit, the order and the occurrences fail, and two in which
  a run is canceled by replacement and by shutdown.

`Database.dfy` (with `Query.dfy`) is the store as a class, one method per call. `Loop.dfy` is the loop
as a class: the methods of the source with their loops and branches, changing fields and calling the
store. Between any two statements the other actors do anything they can. Each method records its steps,
and its contract says that the recorded trace is a behaviour of the step system ending in the object's
own state, so every theorem above holds of it. With `reliable` set, the trace is also one in which no
call failed except for a missing row or a schedule that cannot be read, so a method cannot skip work by
pretending that the database refused it.

## Schedules, storage and job rows

`Storage.dfy` spells out the stored time format, the `date-time` of section 5.6 of RFC 3339 in UTC with
whole seconds: the calendar with the closed form of its day numbers, printing, reading, and the ordering property
of section 5.1. `Schedule.dfy` has the parser, with what it makes of every text and its normal form, the next
occurrence in the job's zone, and the catch-up loop with its closed form.
`Jobs.dfy` follows one job row and its scheduled runs through add, update, pause, resume and the
scheduler's processing; `Processing.dfy` ties that processing to the statements the loop executes, and `Commands.dfy`
runs the commands against the database. Time is an integer count
of nanoseconds; a stored time is a count of seconds, which for the years 0000 to 9999 is what comparing
the stored texts compares.

## Serve, output capture and hooks

`Instance.dfy` is a step system of any number of serve processes on one instance, sharing the lock and
the state file, any of which may die at any step. `Serve.dfy` is `Serve` as it is written, with its
flags, its deferred actions in reverse order of registration, and its two result channels. With `reliable` set, no
call of the process fails; it then ends in an error only if the lock was taken, or a goroutine failed or ended.
`Capture.dfy` is the bounded capture of a command's output; `Hooks.dfy` the hook's retry loop.

The select in `Serve` may take the result of the control server or of the loop, and the code after it
receives from both channels again. Each channel carries one value, so such a process waits for as long as
it lives (`SecondReceiveBlocks`), while after a signal or a shutdown request each receive is ready once its
value has been sent (`FirstReceiveIsReady`). Only a signal or a shutdown request leads through the graceful
path.

## Properties that are false in general, and exactly when they hold

- `every 500ms` is accepted, but only whole seconds are stored. An interval job just processed is never
  listed as due again for the same instant exactly when its duration is a whole number of seconds
  (`NotDueAgainIff`), and its stored due times strictly increase exactly when its duration is at least a
  second (`StrictlyIncreasingIff`).
- The catch-up loop of `computeFutureNextRun` always ends for an interval. For cron, where the library answers
  with the least later occurrence, and with one fixed instant when there is none, it ends exactly when an
  occurrence lies after now (`OccurrenceIff`, for an instant not after now). If the library looks only so far,
  it ends exactly when the occurrences lead past now without a gap, from the due time or from that instant
  (`LeadsIff`). `cron 0 0 31 2 *` is accepted although its date is not in the calendar; the loop ends exactly
  when the fixed instant lies after now (`NoSuchDate`), so with a zero time the daemon stays in it.
- The queue of a job is in order when its started runs, and then the claimed run in hand, come before all its
  claimable rows. It stays so exactly when each claim takes the foremost claimable row of the job, and each
  insert goes behind what has started (`OrderKeptIff`); then the runs start in the order they were queued
  (`GuardedStartsInOrder`). In a pass a claim does so exactly when no earlier row of the page is a still
  claimable one of the job (`ClaimKeepsOrderIff`); a completion inside a pass breaks it (`Overtaken`: 1, 3, 2). A
  manual run does exactly when no started run of its job, or one in hand, was queued later
  (`ManualKeepsOrderIff`); the command reads the time before its statements run, so it can be late
  (`LateInsert`).
- Runs of a job have started out of order exactly when some run passed another, because it was claimed while the
  other was claimable and earlier in the queue, or because the other was added behind it, and both have been
  started since (`OutOfOrderIff`).
- An insert keeps a forbid job at one unfinished row exactly when it has none at that moment
  (`ForbidInsertIff`), and leaves a replace job its only pending row exactly when none is pending at that
  moment (`ReplaceInsertIff`), whatever the check before it found: another enqueue can come between
  (`ForbidRace`).
- The occurrences of a job stop increasing only after one of five slips (`RepeatHasCause`): the daemon dies
  between insert and advance (`EnqueuedTwice`), the advance fails, the inserted row cannot be read back, the
  advance does not pass the due time (a duration below a second), or a command writes a next run that is
  not after what was enqueued. Step by step they increase exactly when each insert is for a later due time than
  those before (`RisingIff`).
- A disabled job gets no scheduled row as long as no command enables it, but for a due pass that listed the job while
  it was enabled and has held it ever since (`PausedGetsNone`): pausing does not stop that pass.
- A living process gives the lock back with its loop running exactly when the control server failed in the
  select, in its shutdown, or in the receive on the way out, and the loop has not returned since
  (`UndrainedIff`; `EscapeReleases` leads from each such error there).

## Assumptions

- One statement is atomic, and a failed one changes nothing. For an insert that commits but cannot be
  read back, the step says both.
- The protocol has one loop at a time; `OneLoop` says when `Serve` guarantees that, and `ManyLoops.dfy`
  does without it.
- `time.ParseDuration`, the cron parser and the time zone database are fixed functions. Nothing is
  assumed of the cron library as a whole. Where a result needs an expression to be regular (`Regular`: its
  next function is strictly later and least, and its occurrences are whole seconds), it is asked of
  the job's own expression. `computeFutureNextRun` asks only that its loop ends, and the loop class nothing:
  it follows a catch-up for a given number of turns, and reports when it is still in it.
- `Summary.dfy`: the job is never of kind once and never under replace, a command writes back the
  last-run columns it read, the job's summary updates succeed, and the process does not die between
  storing an outcome and reporting it.
- `Order.dfy`: the job is never under replace, time does not go back, no run of the job unregisters while
  the loop is in a pending pass, loading and claiming the job's rows do not fail, and a manual run is not
  queued before one that has started or is listed in the pass. `QueueOrder.dfy` assumes none of these;
  its results about a pass assume only that a run enqueued meanwhile is not queued before a listed one.
- `PolicyLimits.dfy`: the job keeps its policy, and the policy check and its insert are one step.
- `Jobs.dfy`: each command and each processing of the due job is one step, and the clock does not go back.
  For increasing occurrences, an interval or once job waits at least a second in every state
  (`AlwaysSpaced`), and a cron expression is regular.
- `Occurrences.dfy`, up to `ScheduledRunsIncrease`: the same of the protocol's steps. A command does not write
  the job's row while the due pass holds it, the insert and the advance of the job succeed, and the daemon
  does not die between them. `OnceRuns.dfy` assumes the same; `RisingIff` and `Repeats.dfy` assume none of this.
- `Orphans.dfy`, `NothingEnqueued`: the job stays under forbid and is not deleted, and no `job run` adds a row on
  the strength of a check made in an earlier step.

## Model

| member | source | states |
|---|---|---|
| Database.Database.Insert | internal/sqlite/runs_store.go:39-109 | a new pending row under the next id with its eleven columns, for an existing job only; otherwise nothing changes |
| Database.Database.ListPending | internal/sqlite/runs_store.go:111-133 | the first claimable rows in (queued_at, id) order: none is missing, none precedes them, and a short page means there are no more |
| Database.Database.ListUnfinishedByJob | internal/sqlite/runs_store.go:249-266 | exactly the job's pending and running rows, in (queued_at, id) order; empty if and only if there are none |
| Database.Database.ClaimPending | internal/sqlite/runs_store.go:135-195 | claims exactly the first page, in order, and touches no other row; a failure on the way claims nothing |
| Database.Database.TryClaimPending | internal/sqlite/runs_store.go:197-215 | succeeds if and only if the row was pending without a runner, and then only sets its runner |
| Database.Database.MarkRunning | internal/sqlite/runs_store.go:217-247 | succeeds if and only if the row was pending, and then only sets its status and started_at |
| Database.Database.MarkFinished | internal/sqlite/runs_store.go:268-348 | refuses an outcome that is not terminal; otherwise overwrites whatever status an existing row has, with the outcome and no runner |
| Database.Database.CancelPendingByJob | internal/sqlite/runs_store.go:350-370 | cancels exactly the pending rows of the job and changes no other |
| Database.Database.ListDue | internal/sqlite/jobs_store.go:227-245 | every due job and no other, in (next_run_at, id) order |
| Database.Database.Create | internal/sqlite/jobs_store.go:23-69 | a new row under the next id; refuses an override together with disabled inheritance |
| Database.Database.Update | internal/sqlite/jobs_store.go:141-185 | writes every column of an existing row; refuses an override together with disabled inheritance |
| Database.Database.UpdateNextRun | internal/sqlite/jobs_store.go:247-264 | changes next_run_at of an existing row and nothing else |
| Database.Database.UpdateLastRunSummary | internal/sqlite/jobs_store.go:266-294 | changes the two last-run columns of an existing row and nothing else |
| Database.Database.Delete | internal/sqlite/jobs_store.go:214-225 | removes the job, and with it every one of its runs |
| Safety.StepKeeps | internal/daemon/loop.go:86-347 | every step of every actor keeps the invariant of the protocol |
| Safety.Reachable | internal/daemon/loop.go:86-347 | every state of every behaviour satisfies that invariant |
| RunLife.RunSettles | internal/sqlite/runs_store.go:286-303 | MarkFinished has no condition on the status, yet in the protocol it only ever overwrites a running row |
| RunLife.StaysSettled | internal/daemon/loop.go:70-77 | along any behaviour terminal rows, removed rows and reasons once set stay as they are |
| RunLife.StartedAtMostOnce | internal/daemon/loop.go:162-189 | no two starts, even by different incarnations of the daemon, are of the same run |
| RunLife.TerminalForever | internal/sqlite/runs_store.go:268-348 | a succeeded, failed or canceled row keeps every column until its job is deleted, and its id is never used again |
| RunLife.DecidedBefore | internal/daemon/loop.go:231-243 | an outcome about to be stored is the executor's result as the reason read earlier changed it |
| RunLife.EndedBy | internal/daemon/loop.go:249-264 | a started row that is terminal holds exactly the outcome its goroutine decided on |
| RunLife.CanceledOrigin | internal/daemon/loop.go:231-256 | started_at tells the two origins of a canceled row apart: without it, one earlier step, a cancellation of the job's pending runs, took it from pending to what it is, and it was never registered; with it, a reason was set when its goroutine decided, which its message names and which the run keeps for good |
| RunLife.UncanceledOrigin | internal/daemon/loop.go:231-256 | a succeeded or failed row is the executor's result unchanged, and no reason had been set when it was decided |
| RunLife.OneUncanceledRunPerJob | internal/daemon/loop.go:193-221 | of two active runs of a job at least one has been told to stop, whatever its policies and their changes |
| RunLife.MapAgreesWithTable | internal/daemon/loop.go:175-228 | an active run's row is running until its outcome is stored and terminal afterwards; a running row of this incarnation is active, about to be registered, or lost to a failed MarkFinished; the wait group covers the map |
| RunLife.ReturnedMeansDrained | internal/daemon/loop.go:100-116 | when Run has returned the map is empty, and every run it marked is terminal, deleted, or lost to a failed MarkFinished |
| Reasons.PrepareDropsIff | internal/daemon/loop.go:193-205 | a listed run is dropped before its claim if and only if its job is not under replace and has an active run; under replace with an active run the collection follows, without one the claim |
| Reasons.CollectsAll | internal/daemon/loop.go:313-321 | what a replacement collects is exactly the active runs of the job |
| Reasons.ToldBeforeStart | internal/daemon/loop.go:193-221 | in any behaviour, when a run starts every other active run of its job has been told to stop |
| Reasons.ReasonOrigin | internal/daemon/loop.go:299-327 | a reason was set by one earlier step: replacement while the loop took up a run of a job under replace, shutdown while it was stopping |
| Reasons.ShutdownTellsAll | internal/daemon/loop.go:299-311 | in any behaviour, when the loop waits for its goroutines every run still active has been told to stop |
| Passes.EveryListedRun | internal/daemon/loop.go:139-191 | a pass that comes to its end has started each run it listed, or given it up at one step: a call failed, its job is gone, its job has an active run and is not under replace, or its row was no longer claimable or pending |
| Passes.EveryDueJob | internal/daemon/loop.go:120-137 | a pass that comes to its end has moved each due job on, after forbid found an unfinished run, or after the policy let it in and its row was inserted for the due time; or a statement for it failed |
| Stranded.FailedMarkNeverRuns | internal/daemon/loop.go:175-183 | a run whose MarkRunning failed is in no later state running or finished: its row is pending and claimed, canceled without having started, or deleted |
| Stranded.StrandedNeverRuns | internal/daemon/loop.go:162-183 | so is any claimed row the loop no longer has in hand |
| Stranded.HandWaits | internal/daemon/loop.go:162-183 | a row about to be marked is claimed and pending, unless it has been canceled or deleted meanwhile |
| Orphans.CrashOrphans | internal/daemon/loop.go:86-118 | every run that is running when the daemon dies is left in the table without a goroutine |
| Orphans.StaysOrphan | internal/daemon/loop.go:86-118 | nothing recovers it: in every later state its row is exactly what it was, until its job is deleted |
| Orphans.ForbidSkips | internal/daemon/policy.go:39-48 | while it is there, each occurrence of a forbid job is skipped, and each `job run` of it refused |
| Orphans.NothingEnqueued | internal/daemon/policy.go:71-98 | so, once the daemon has stopped, no run of the job is added as long as the job stays under forbid and everyone checks |
| ManyLoops.Reachable | internal/sqlite/runs_store.go:197-215 | with any number of loops, listings of any age, and rows finished in any status: an id once claimed is never claimable again, and one loop at most has it |
| ManyLoops.StartedAtMostOnce | internal/daemon/loop.go:162-189 | no two starts, by whichever loops at the same time, are of the same run |
| Exclusion.Excludes | internal/daemon/loop.go:193-196 | for a job never under replace: at most one active run, and none while the loop handles one past its check |
| Exclusion.AtMostOneActive | internal/daemon/loop.go:329-340 | a job never under replace has at most one active run |
| Exclusion.StillActive | internal/daemon/loop.go:342-347 | a run leaves the active map only by its own finishActiveRun or when the process dies |
| Exclusion.Completed | internal/daemon/loop.go:249-297 | a run about to unregister went through MarkFinished and, unless that failed, through the summary and then the hook |
| Exclusion.NextRunWaits | internal/daemon/loop.go:223-297 | between two starts of such a job the earlier run was persisted, summarised, notified and unregistered, in that order |
| Summary.StaysUpToDate | internal/daemon/loop.go:266-279 | the last-run columns can lag only while a goroutine that stored an outcome has not reported it |
| Summary.SummaryIsCurrent | internal/sqlite/jobs_store.go:266-294 | whenever the job has no active run, its last-run columns are the time and status of the run finished last |
| Order.StaysFifo | internal/daemon/loop.go:139-191 | for a job never under replace, with orderly steps: starts, the run in hand, the list of the pass and the claimable rows stay in queue order |
| Order.StartsInQueueOrder | internal/sqlite/runs_store.go:111-133 | over the whole history of such a job, for any claim limits and across restarts, runs start in (queued_at, id) order |
| QueueOrder.StepIff | internal/daemon/loop.go:139-191 | a step of anyone keeps starts, the run in hand and the claimable rows in queue order if and only if a claim takes the job's foremost row and an insert goes behind what has started |
| QueueOrder.OrderKeptIff | internal/daemon/loop.go:139-191 | the order has held in every state so far if and only if every step so far did that; for any policy and any failures |
| QueueOrder.GuardedStartsInOrder | internal/sqlite/runs_store.go:111-133 | then earlier started is earlier queued |
| QueueOrder.ClaimKeepsOrderIff | internal/daemon/loop.go:146-173 | claiming a row of the page keeps the order if and only if no earlier row of the page is a still claimable one of the job |
| QueueOrder.ManualKeepsOrderIff | internal/app/job.go:630-655 | a manual run keeps the order if and only if no started run of the job, or one in hand, was queued later than the time the command read |
| StartOrder.OutOfOrderIff | internal/daemon/loop.go:139-191 | in any behaviour a job's runs have started out of queue order if and only if at some step a run passed another, at its claim or because the other was added behind it, and both have been started since |
| StartOrder.ClaimsInOrder | internal/daemon/loop.go:162-189 | runs start in the order of their claims, across restarts |
| PolicyLimits.KeepsPromise | internal/daemon/policy.go:38-57 | with atomic enqueues every state keeps what the policy promises, the loop's stay between check and insert included |
| PolicyLimits.ForbidKeepsOneUnfinished | internal/daemon/policy.go:39-48 | a forbid job never has two unfinished rows |
| PolicyLimits.ReplaceKeepsLastPending | internal/daemon/policy.go:53-59 | a replace job's pending row is its row of highest id, so there is at most one |
| PolicyLimits.ForbidInsertIff | internal/daemon/policy.go:40-48 | an insert keeps at most one unfinished row if and only if the job has none at that moment |
| PolicyLimits.ReplaceInsertIff | internal/daemon/policy.go:53-59 | an insert leaves the new row the only pending one if and only if the job has no pending row at that moment |
| Witness.ForbidRace | internal/daemon/policy.go:40-48 | a manual run enqueued between the scheduler's check and its insert gives a forbid job two unfinished rows |
| Witness.Overtaken | internal/daemon/loop.go:146-160 | a completion inside a pending pass: the runs of a job start in the order 1, 3, 2 |
| Witness.LateInsert | internal/app/job.go:630-655 | a run whose command read the time before another started, and inserted its row afterwards, starts second although it was queued first |
| Witness.EnqueuedTwice | internal/daemon/policy.go:45-69 | a daemon that dies after the insert and before the advance enqueues the same occurrence again |
| Witness.Replaced | internal/daemon/loop.go:193-205 | under replace run 2 starts although run 1 is executing, and run 1 is stored as canceled by replacement |
| Witness.ShutDown | internal/daemon/loop.go:100-116 | a run executing at shutdown is stored as canceled by shutdown, and then the loop returns |
| Loop.Loop.SetReason | internal/daemon/loop.go:70-77 | the first reason set is kept |
| Loop.Loop.HasActiveRun | internal/daemon/loop.go:329-340 | true if and only if some active run belongs to the job |
| Loop.Loop.JobHandles | internal/daemon/loop.go:313-321 | exactly the active runs of the job |
| Loop.Loop.TellAll | internal/daemon/loop.go:323-326 | every run collected is offered the reason and no other is, while runs go on finishing |
| Loop.Loop.CancelJobRuns | internal/daemon/loop.go:313-327 | the replace branch: collects the job's runs and offers them replacement, and only then lets the new run be claimed |
| Loop.Loop.CancelActiveRuns | internal/daemon/loop.go:299-311 | shutdown: before the wait every active run has a reason, and those that got one now got shutdown |
| Loop.Loop.PrepareRunStart | internal/daemon/loop.go:193-205 | a job under replace is always ready; any other only if it has no active run at the moment of the check; when ready, every run of the job still active has been told to stop, by replacement if it was not before |
| Loop.Loop.StartRunExecution | internal/daemon/loop.go:207-221 | registers the run, counts it in the wait group, and records the start, in one step |
| Loop.Loop.HandlePending | internal/daemon/loop.go:146-189 | takes exactly the next run of the pass through load, prepare, claim, mark and start, or leaves it at the first failure |
| Loop.Loop.TryClaim | internal/daemon/loop.go:162-173 | a run goes on only if this loop won its claim, which leaves the row pending with this runner |
| Loop.Loop.MarkRunning | internal/daemon/loop.go:175-183 | and only if its row was still pending when marked, which leaves it running since now |
| Loop.Loop.ClaimAndStart | internal/daemon/loop.go:162-189 | nothing is started that was not claimed and marked running first |
| Loop.Loop.ListPage | internal/daemon/loop.go:140-144 | the pass is over a page of at most the claim limit, 64 when none is set |
| Loop.Loop.ProcessPendingRuns | internal/daemon/loop.go:139-191 | handles every row of one listing, in order |
| Loop.Loop.EnqueueScheduled | internal/daemon/policy.go:45-59 | the row it inserts last is pending, scheduled for the job's due time and queued now; goes on to the schedule only if the call succeeded |
| Loop.Loop.ApplyPolicy | internal/daemon/policy.go:38-63 | only forbid skips the row, and only if the job has an unfinished run; replace cancels the pending rows first |
| Loop.Loop.EnqueueScheduledWithPolicy | internal/daemon/policy.go:27-69 | takes exactly the next due job through policy, insert and schedule, or leaves it at the first failure |
| Loop.Loop.Disarm | internal/daemon/policy.go:100-111 | a once job is disabled by writing back the row the listing returned; that write is the last step, and succeeds or changes nothing |
| Loop.Loop.MoveOn | internal/daemon/policy.go:113-118 | any other job's next run becomes the catch-up from its due time, in stored seconds; the loop is still in the catch-up exactly when it has not ended within the given turns |
| Loop.Loop.AdvanceScheduleState | internal/daemon/policy.go:100-119 | the one or the other, by kind, as the last step |
| Loop.Loop.ProcessDueJobs | internal/daemon/loop.go:120-137 | handles every job of one listing, in order, unless it stays in the catch-up of one |
| Loop.Loop.OnTick | internal/daemon/loop.go:105-115 | a tick is taken: the due jobs first, then the pending runs |
| Loop.Loop.Wait | internal/daemon/loop.go:100-104 | returns only once the wait group is down to zero |
| Loop.Loop.Run | internal/daemon/loop.go:86-118 | is a behaviour of the protocol with that many ticks; when it returns nothing is active and every run it marked is terminal, deleted, or lost to a failed MarkFinished |
| Loop.Loop.Decide | internal/daemon/loop.go:231-243 | the result unchanged without a reason; else canceled, with the message of the reason set at that moment |
| Loop.Loop.Persist | internal/daemon/loop.go:249-264 | stores the decided outcome; after an error the table is unchanged, and neither summary nor hook follows |
| Loop.Loop.Summarise | internal/daemon/loop.go:266-279 | offers the stored outcome to the job's last-run columns; an error changes nothing and is ignored |
| Loop.Loop.Unregister | internal/daemon/loop.go:342-347 | leaves the map, and only then the wait group |
| Loop.Loop.Complete | internal/daemon/loop.go:223-297 | one statement of the goroutine, the next in its order |
| Loop.Loop.EnqueueManualWithPolicy | internal/daemon/policy.go:71-98 | statement by statement, with failures and the others in between: added as the last step, after a moment without unfinished rows under forbid and after canceling the pending rows under replace; a conflict only under forbid and after a moment with an unfinished row |
| Loop.Loop.RunAtOnce | internal/daemon/policy.go:71-98 | undisturbed, it is refused if and only if the job is under forbid with an unfinished run; under replace its pending rows are canceled before the new one is added |
| Storage.StampRoundTrip | internal/sqlite/jobs_store.go:506-533 | the date and time of a count of seconds is valid, and counts that many seconds, which the next three rows put in terms of the calendar |
| Storage.ValidDateIff | internal/sqlite/jobs_store.go:506-533 | the valid dates, month by month, with the 29th of February in leap years only |
| Storage.DayNumberIs | internal/sqlite/jobs_store.go:506-533 | the day number in closed form: with years that begin in March, 365 y + y/4 - y/100 + y/400 + (153 m + 2)/5 + day + 59 |
| Storage.SecondsAre | internal/sqlite/jobs_store.go:506-533 | 86400 seconds a day, 3600 an hour, 60 a minute; 1970-01-01 is day 719528 |
| Storage.SecondsRoundTrip | internal/sqlite/jobs_store.go:506-533 | and every valid date and time is that of its count |
| Storage.StampOrder | internal/sqlite/jobs_store.go:506-508 | calendar order is time order |
| Storage.ReadPrint | internal/sqlite/jobs_store.go:526-533 | reading undoes printing |
| Storage.PrintRead | internal/sqlite/jobs_store.go:526-533 | and only what could have been printed is read |
| Storage.FormatShows | internal/sqlite/jobs_store.go:506-508 | the text of an instant is yyyy-mm-ddThh:mm:ssZ, digit by digit, of the date and time its whole seconds count |
| Storage.PrintOrder | internal/sqlite/jobs_store.go:227-233 | lexical order of printed times is calendar order |
| Storage.StorageTruncates | internal/sqlite/jobs_store.go:506-533 | storing an instant and reading it back truncates it to the second |
| Storage.StoredOrder | internal/sqlite/jobs_store.go:227-245 | comparing stored texts compares whole seconds |
| Schedule.FieldsOfJoin | internal/schedule/parser.go:22-66 | splitting undoes joining |
| Schedule.SpellsFields | internal/schedule/parser.go:22-27 | every text is its fields, with spaces between them and any number of spaces around |
| Schedule.ParseIs | internal/schedule/parser.go:16-75 | what the parser makes of any text, whatever its spacing and the case of its keyword: which texts are accepted, with which result, and with which error the others are refused |
| Schedule.NormalParses | internal/schedule/parser.go:16-75 | every normal form is accepted and parses to itself |
| Schedule.ParsedIsNormal | internal/schedule/parser.go:16-75 | what the parser returns is a normal form, and the join of its fields |
| Schedule.ParseIsIdempotent | internal/schedule/parser.go:16-75 | parsing the normalised expression again gives the same kind and expression |
| Schedule.NextOfParsed | internal/schedule/next.go:11-48 | on a parsed schedule Next has no error: it adds the duration, or asks the cron library about the five fields |
| Schedule.NextReparsed | internal/schedule/next.go:11-23 | on any stored schedule Next fails as the parser does, or for another kind, and else agrees with the parsed schedule |
| Schedule.IntervalCatchUp | internal/daemon/policy.go:136-145 | catching up an interval ends at due + (floor((now - due) / d) + 1) d |
| Schedule.CronCatchUp | internal/daemon/policy.go:136-145 | catching up cron ends at the first occurrence after now |
| Schedule.LeadsIff | internal/daemon/policy.go:136-145 | for a library that finds the least later occurrence as far as it looks, and answers with one fixed instant otherwise: the catch-up loop ends if and only if the occurrences lead past now, from the due time or from that instant, or that instant lies after now |
| Schedule.OccurrenceIff | internal/daemon/policy.go:136-145 | if it looks everywhere, and that instant is not after now: if and only if an occurrence lies after now |
| Schedule.LeastLaterEnds | internal/daemon/policy.go:136-145 | so it ends for a next function that always finds one |
| Schedule.ConstantEndsIff | internal/daemon/policy.go:136-145 | with one fixed answer it ends if and only if that lies after now |
| Schedule.NoSuchDate | internal/schedule/next.go:37-45 | `cron 0 0 31 2 *` is accepted, its date is not in the calendar, and the loop ends if and only if the instant the library answers with instead lies after now |
| Schedule.CaughtUp | internal/daemon/policy.go:141-143 | where it ends lies strictly after now |
| Schedule.CatchUpEnds | internal/daemon/policy.go:121-146 | it ends, at those closed forms, for any stored interval, and for any stored cron expression whose own next function is least and later |
| Schedule.ComputeFutureNextRun | internal/daemon/policy.go:121-146 | whenever the loop ends, the method returns where, or its error, which the next three rows put in terms of the expression and the zone |
| Schedule.FutureCron | internal/daemon/policy.go:121-159 | the cron library is asked about the five fields in the zone the job names, the local one only for an empty name or "Local", and answers with its first occurrence after now |
| Schedule.FutureInterval | internal/daemon/policy.go:121-159 | an interval or once text is caught up from the due time in multiples of its duration |
| Schedule.FutureErrors | internal/daemon/policy.go:121-159 | the due time is missing, or the zone is neither local nor known, if and only if it says so |
| Schedule.CronNotDueAgain | internal/daemon/policy.go:113-118 | a cron job just processed is not due again for the same instant, and its due times increase |
| Schedule.NotDueAgainIff | internal/daemon/policy.go:113-118 | an interval job never is, if and only if its duration is a whole number of seconds |
| Schedule.StrictlyIncreasingIff | internal/daemon/policy.go:113-118 | an interval job's stored due times strictly increase if and only if its duration is at least a second |
| Jobs.ApplyTexts | internal/app/job.go:353-367 | the accumulated flags say exactly whether the name or command changed |
| Jobs.ApplyTiming | internal/app/job.go:368-383 | and whether its schedule has to be computed afresh |
| Jobs.ApplySettings | internal/app/job.go:384-416 | the same for hook settings and the enabled flag, in the source's order |
| Jobs.ApplyFlags | internal/app/job.go:346-416 | both together: every column is the flag's value if given and the old one if not |
| Jobs.UpdateCommand | internal/app/job.go:259-444 | the command, its checks in order, computes the declared update |
| Jobs.UpdatedColumns | internal/app/job.go:346-416 | the row it writes, column by column in terms of the flags: name, command, policy and hook settings |
| Jobs.UpdatedSchedule | internal/app/job.go:368-438 | and schedule, zone and enabled; the next run stays unless one of them changes, and is then none, or computed from now |
| Jobs.RefusedIff | internal/app/job.go:259-344 | an update of a stored row is refused if and only if no flag is given, two exclude each other, a text has only spaces, the schedule is not accepted or the zone unknown |
| Jobs.CronNextRun | internal/app/job_support.go:104-133 | the next run a command computes for a stored cron text: the library's answer to now in the zone the job names |
| Jobs.DurationNextRun | internal/app/job_support.go:121-133 | for a stored interval or once text: now and the duration |
| Jobs.NextRunFailsIff | internal/app/job_support.go:121-133 | for a schedule the parser made it fails if and only if the zone is unknown |
| Jobs.AddedIs | internal/app/job.go:71-129 | a job can be added if and only if name, schedule and command are not blank, the schedule is accepted, the zone known, and no override given together with disabled inheritance; its row has the settings' columns, enabled unless `disabled`, with its next run from now |
| Jobs.EditKeepsRow | internal/app/job.go:346-438 | an updated row is enabled exactly when it has a next run, has no override together with disabled inheritance, and can be scheduled |
| Jobs.AddedKeepsRow | internal/app/job.go:71-129 | so is an added row |
| Jobs.After | internal/app/job.go:418-431 | and so is the row after any command or processing |
| Jobs.History | internal/app/job.go:418-431 | and after any sequence of them |
| Jobs.ArmedLater | internal/app/job_support.go:121-133 | a next run computed by a command lies in a later second than its now |
| Jobs.AdvancedLater | internal/daemon/policy.go:100-119 | processing moves the next run to a later second than the due time |
| Jobs.StepKeepsIncreasing | internal/daemon/policy.go:27-69 | each command and each processing keeps the occurrences increasing and below the next one |
| Jobs.OccurrencesIncrease | internal/daemon/policy.go:27-69 | over a job's whole life its scheduled_for values strictly increase and lie below its next run: no occurrence is enqueued twice |
| Occurrences.StaysSequenced | internal/daemon/policy.go:27-119 | over behaviours of the protocol with atomic commands and processing, the scheduled rows, the next run and the rows the due pass holds stay in step |
| Occurrences.ScheduledRunsIncrease | internal/daemon/policy.go:27-69 | so in the runs table scheduled_for strictly increases with the id, below the job's next_run_at |
| Occurrences.RisingIff | internal/daemon/policy.go:45-69 | in any behaviour scheduled_for has increased with the id in every state so far if and only if each insert was for a due time after those of the job's rows then |
| Repeats.RepeatHasCause | internal/daemon/policy.go:45-119 | if scheduled_for has not increased with the id, an earlier step was one of five slips: a death between insert and advance, a failed advance, a failed read-back, an advance that does not pass the due time, or a command writing a next run not after what was enqueued |
| Jobs.OncePerArming | internal/daemon/policy.go:100-111 | until a command arms it again, a once job yields at most one scheduled row, for the next run it was armed with, and none while disabled |
| Jobs.ProcessedOnce | internal/daemon/policy.go:38-48 | whatever follows the processing of a due once job until it is armed again, its scheduled rows are those before and the one for that due time, or not even that one if forbid skipped it; and it stays disabled |
| OnceRuns.OneRunPerArming | internal/daemon/policy.go:100-111 | the same in the runs table, over behaviours of the protocol: until a command arms it again a once job gets at most one scheduled row, for the time it was armed for, and is then disabled; a disabled job gets none |
| Pauses.NotListed | internal/sqlite/jobs_store.go:227-245 | from a state in which the job is disabled, no due list contains it as long as no command enables it |
| Pauses.PausedGetsNone | internal/daemon/loop.go:120-137 | and it gets no scheduled row, unless the due pass that inserts it has held the job since before |
| Processing.Statements | internal/daemon/policy.go:27-119 | the statements of one due job, undisturbed: its row advanced, one run added unless forbid skips it, pending rows canceled under replace, nothing else |
| Processing.ProcessingIsStatements | internal/daemon/policy.go:27-119 | they do to the tables what one processing step does to the job's account |
| Processing.DueAtIs | internal/sqlite/jobs_store.go:227-245 | a row is due at an instant if and only if it is enabled with a next run not after it, and then the due list has it |
| Processing.NotListedAgain | internal/sqlite/jobs_store.go:227-245 | a once job, a regular cron job, or an interval of whole seconds, just processed is not in a due list for the same instant |
| Commands.AddJob | internal/app/job.go:71-129 | adds the declared row, and every row stays schedulable |
| Commands.UpdateJob | internal/app/job.go:337-438 | writes the declared update or nothing, and every row stays schedulable |
| Commands.PauseJob | internal/app/job.go:527-545 | an enabled job is disabled and loses its next run, every other column and row unchanged; a disabled one is left alone |
| Commands.ResumeJob | internal/app/job.go:578-604 | a disabled job is enabled with the next run from now, which for a stored row never fails, every other column and row unchanged; an enabled one is left alone |
| Instance.StepKeeps | internal/daemon/server.go:55-217 | every action of every process keeps the invariant of lock, state file and flags |
| Instance.Reachable | internal/daemon/server.go:55-217 | every state of every behaviour satisfies it |
| Instance.OneHolder | internal/daemon/server.go:55-67 | one process at a time holds the lock |
| Instance.OneLoop | internal/daemon/server.go:139-155 | two loops run on one instance only while a process whose Serve has returned an error has not ended yet |
| Instance.RemovesOnlyItsOwn | internal/daemon/server.go:115-123 | a state file goes only by an action of the process that wrote it, while it holds the lock |
| Instance.WritesUnderLock | internal/daemon/server.go:115-118 | a state file is written only by a process that holds the lock |
| Instance.DrainsBeforeRelease | internal/daemon/server.go:193-212 | a living process gives the lock back either in its deferred actions, or after a signal or shutdown request with its loop drained and its state file gone |
| Instance.UndrainedIff | internal/daemon/server.go:165-204 | it gives the lock back with its loop running if and only if the control server failed in the select, in its shutdown, or in the receive, and the loop has not returned since |
| Instance.EscapeReleases | internal/daemon/server.go:55-123 | from each such error the four deferred actions can follow at once, and release the lock with the loop running |
| Instance.ReturnsClean | internal/daemon/server.go:193-217 | a return without an error implies a signal or shutdown request, a drained loop, no state file of its own and no lock |
| Instance.CleanLife | internal/daemon/server.go:55-217 | in any behaviour, a process that returns without an error has done fifteen things in this order: lock, database, migrations, listener, metadata, state file, goroutines, select, shutdown of the control server, cancellation of the loop, both results, and gave back state file, lock and database |
| Instance.SecondReceiveBlocks | internal/daemon/server.go:166-204 | a process whose select took a result is at the receive that waits for it again in every later state in which it lives |
| Instance.FirstReceiveIsReady | internal/daemon/server.go:198-204 | after a signal or shutdown request each receive still has its value to come, and is ready if and only if it has been sent |
| Instance.ErrorReleasesUndrained | internal/daemon/server.go:193-197 | a control server that fails to shut down lets the deferred release free the lock while the loop runs |
| Serve.Server.Acquire | internal/daemon/server.go:69-106 | resources are taken in order, and the first error leads to the deferred actions |
| Serve.Server.Publish | internal/daemon/server.go:115-187 | the state file is written before the control server and loop start |
| Serve.Server.Wait | internal/daemon/server.go:165-187 | the select: stop asked for, or a result taken, which goes on only if it is no error and a stop was under way; every other return has its excuse |
| Serve.Server.Drain | internal/daemon/server.go:193-204 | control server, loop context, then both results |
| Serve.Server.GiveBack | internal/daemon/server.go:205-217 | state file, lock, database |
| Serve.Server.RunDeferred | internal/daemon/server.go:63-123 | deferred actions run last-registered first, and nothing is left open; nor is the lock or a state file left if releasing and removing do not fail |
| Serve.Server.Serve | internal/daemon/server.go:27-219 | is a behaviour of its process among the others; every return leaves nothing open or held, unless releasing or removing failed; without an error the loop has drained; and if no call fails, an error means that the lock was taken, or a goroutine failed or ended unasked |
| Capture.ReadCapturedStream | internal/daemon/executor.go:130-166 | however the stream is cut into reads: the text is its first 65536 bytes, truncated if and only if there are more, and an error other than end of stream is reported |
| Capture.OutputAbsentIff | internal/daemon/executor.go:168-180 | no output is stored if and only if both streams were empty |
| Capture.OutputKeepsPrefix | internal/daemon/executor.go:168-180 | stored texts are prefixes of their own streams, and proper ones exactly when marked truncated |
| Hooks.Notify | internal/daemon/on_finish.go:72-134 | the job's own hook, whatever the metadata, else the instance's if it is inherited, is delivered as the normaliser gives it: attempts 1 to k, all but the last failed and retryable, the last not to be retried or at its retry count + 1, its backoff between; without a hook nothing is done; it fails if and only if the hook that applies is refused or the inherited one cannot be read |
| Hooks.EndsOnce | internal/daemon/on_finish.go:88-109 | the results determine the number of attempts |
| Hooks.RoundsAre | internal/daemon/on_finish.go:88-109 | attempts and records are numbered 1 to k, with exactly k - 1 backoffs |
| Hooks.RoundsAt | internal/daemon/on_finish.go:88-109 | where each effect stands: attempt i, its record, and then the backoff before attempt i + 1 |
| Hooks.InheritsIff | internal/daemon/on_finish.go:114-134 | the instance's metadata matters if and only if the job neither overrides nor disables its hook |
| Hooks.CommandJudged | internal/daemon/on_finish.go:182-205 | a command attempt succeeds exactly when the command exits well, and is timed out exactly when its deadline had passed |
| Hooks.HttpJudged | internal/daemon/on_finish.go:230-273 | an HTTP attempt succeeds exactly on a status from 200 to 299, and may be repeated exactly after no answer or one from 500 up |
| Hooks.CommandAttempts | internal/daemon/on_finish.go:182-205 | a command hook is attempted again after every failure, timeouts included, and stops below the limit only on success |
| Hooks.HttpAttempts | internal/daemon/on_finish.go:230-273 | an HTTP hook is attempted again only after no answer or a status from 500 up, and stops below the limit only for another reason |

## Left out

- SQLite itself, SQL text, migrations and row scanning: each statement is an update of a table value. Of
  the schema only never-reused ids, the foreign key and the delete cascade are kept; a name that is taken
  is one of the ways a create or an update can fail.
- created_at, updated_at and the outputs table: no decision of the modelled code depends on them.
- The empty policy and unsupported policies: stored rows are always under forbid, queue or replace.
- Loop.Loop.Run: the nil checks of its collaborators, logging and the ticker are not modelled; a run of
  the loop is any number of ticks followed by the shutdown. The wait and each catch-up are followed for a
  given number of turns, after which the method reports that it has not returned.
- Loop.Loop.Complete: the goroutine is stepped statement by statement, with its position kept in the
  active map, because the loop's methods run it between their own statements. Reasons are kept by run id
  instead of in objects, so aliasing of activeRun objects is not captured.
- Loop.Loop.RunAtOnce: is the case of EnqueueManualWithPolicy in which nothing comes between its statements.
- Commands.PauseJob: jobs are found by id; the lookup by name, printing and flag parsing are not modelled.
- Jobs.UpdateCommand: parsing the policy and the hook configuration, and the text of messages, are not
  modelled; giving `--enabled=false` counts as giving `--enabled`, as in the source.
- Jobs.OccurrencesIncrease: speaks of one job whose commands and processing are atomic; without that, a
  command that writes back a row it read earlier can undo an advance, and RisingIff says what is left.
- ManyLoops.StartedAtMostOnce: the loops take their runs one at a time, and their due passes are inserts.
- Storage.StorageTruncates: years outside 0000 to 9999, offsets other than Z and fractional seconds are not read.
- Schedule.ComputeFutureNextRun: integers are unbounded, where the source counts nanoseconds in 64 bits.
- Hooks.Notify: the payload, its JSON, running the program and the HTTP exchange are not modelled, and
  the clock enters only through the given results. Filling in defaults is a parameter.
- Capture.ReadCapturedStream: a reader is the list of its answers; the pipes, the process and the exit
  code classification are not modelled.
- Serve.Server.Serve: argument checks, ports, tokens and the HTTP control API are not modelled; each fallible
  call either succeeds or fails.
- Liveness: nothing is said about how long ticks, hooks, executions or waits take.
