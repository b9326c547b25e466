/** The scheduled runs of a job, in the runs table, over whole behaviours of the protocol. */
module Occurrences {
  import opened Domain
  import opened Protocol
  import opened Storage
  import opened Safety
  import Schedule
  import Jobs
  import RunLife
  import R = RunsStore
  import J = JobsStore

  type Library = Schedule.Library

  // ----- what is kept -----

  predicate IsScheduled(r: Run, job: JobId) {
    r.jobId == job && r.scheduledFor.Some?
  }

  /** The job's scheduled rows increase with their ids. */
  ghost predicate Rising(runs: R.Table, job: JobId) {
    forall a <- runs, b <- runs | a < b && IsScheduled(runs[a], job) && IsScheduled(runs[b], job) ::
      runs[a].scheduledFor.value < runs[b].scheduledFor.value
  }

  ghost predicate UpTo(runs: R.Table, job: JobId, at: Second) {
    forall id <- runs | IsScheduled(runs[id], job) :: runs[id].scheduledFor.value <= at
  }

  ghost predicate Below(runs: R.Table, job: JobId, at: Second) {
    forall id <- runs | IsScheduled(runs[id], job) :: runs[id].scheduledFor.value < at
  }

  /** The rows agree but for the last-run columns, which the completion goroutines write. */
  predicate Alike(a: Job, b: Job) {
    a == b.(lastRunAt := a.lastRunAt, lastRunStatus := a.lastRunStatus)
  }

  predicate InDue(pc: Pc) { pc.DueNext? || pc.DueInsert? || pc.DueAdvance? }

  /** The loop is between the job's policy check and its advance. */
  predicate InHand(pc: Pc, job: JobId) {
    (pc.DueInsert? || pc.DueAdvance?) && pc.job.id == job
  }

  /** The due pass holds the job's row, listed and not yet advanced. */
  predicate Held(pc: Pc, job: JobId) {
    InDue(pc) && (InHand(pc, job) || exists i :: 0 <= i < |pc.due| && pc.due[i].id == job)
  }

  predicate Current(row: Job, jobs: J.Table, now: Second) {
    row.id in jobs ==> Alike(row, jobs[row.id]) && J.Due(row, now)
  }

  /** What the due pass holds of the job is its current row, once. */
  ghost predicate HoldsCurrent(pc: Pc, jobs: J.Table, next: JobId, clock: Second, job: JobId) {
    && (pc.DueList? || InDue(pc) ==> pc.now <= clock)
    && (InDue(pc) ==>
          && (forall i :: 0 <= i < |pc.due| ==>
            pc.due[i].id < next && (pc.due[i].id == job ==> Current(pc.due[i], jobs, pc.now)))
          && (forall i, j :: 0 <= i < j < |pc.due| ==> pc.due[i].id != pc.due[j].id))
    && (pc.DueInsert? || pc.DueAdvance? ==>
          && pc.job.id < next && (pc.job.id == job ==> Current(pc.job, jobs, pc.now))
          && (forall i :: 0 <= i < |pc.due| ==> pc.due[i].id != pc.job.id))
  }

  /**
    The rows lie below the next run; while the loop is about to advance the job, its due time may have its row already.
   */
  ghost predicate BelowNext(pc: Pc, jobs: J.Table, runs: R.Table, job: JobId) {
    job in jobs && jobs[job].nextRunAt.Some? ==>
      if pc.DueAdvance? && pc.job.id == job then UpTo(runs, job, jobs[job].nextRunAt.value)
      else Below(runs, job, jobs[job].nextRunAt.value)
  }

  ghost predicate RowGood(lib: Library, jobs: J.Table, job: JobId) {
    job in jobs ==> Jobs.RowOk(lib, jobs[job]) && Jobs.Spaced(lib, jobs[job])
  }

  ghost predicate Sequenced(lib: Library, s: State, job: JobId) {
    && Rising(s.runs, job) && UpTo(s.runs, job, s.clock)
    && RowGood(lib, s.jobs, job)
    && HoldsCurrent(s.pc, s.jobs, s.nextJob, s.clock, job)
    && BelowNext(s.pc, s.jobs, s.runs, job)
  }

  // ----- what is assumed of the steps -----

  /** Update, pause or resume made the row, at an instant before which all occurrences so far lie. */
  ghost predicate Commanded(lib: Library, old_: Job, row: Job, runs: R.Table, job: JobId) {
    exists now: Time :: UpTo(runs, job, Seconds(now)) && Command(lib, old_, row, now)
  }

  ghost predicate Command(lib: Library, old_: Job, row: Job, now: Time) {
    || (exists f :: Jobs.Update(lib, old_, f, now) == Jobs.Done(Some(row)))
    || row == Jobs.Paused(old_)
    || Jobs.Resumed(lib, old_, now) == Schedule.Ok(row)
  }

  /** The next run is where the catch-up of the row ends, from an instant of the pass's second. */
  ghost predicate Advanced(lib: Library, row: Job, now: Second, next: Option<Second>) {
    Jobs.RowOk(lib, row) && row.nextRunAt.Some? &&
    exists instant: Time :: Seconds(instant) == now
      && Schedule.Ends(Jobs.RowStep(lib, row), Instant(row.nextRunAt.value), instant)
      && next == Some(Schedule.StoredNext(Jobs.RowStep(lib, row), row.nextRunAt.value, instant))
  }

  /**
    Commands on the job, and its processing from the listing to the advance, do not overlap and do not fail halfway.
   */
  ghost predicate Atomic(lib: Library, s: State, e: Step, job: JobId) {
    match e
    case Clock(to) => s.clock <= to
    case Cli(AddJob(row)) => row.id == job ==> Jobs.RowOk(lib, row) && Jobs.Spaced(lib, row)
    case Cli(WriteJob(row)) =>
      row.id == job && job in s.jobs ==>
        !Held(s.pc, job) && Commanded(lib, s.jobs[job], row, s.runs, job)
          && (Jobs.RowOk(lib, row) ==> Jobs.Spaced(lib, row))
    case Loop(InsertDue(inserted, ok)) => s.pc.DueInsert? && (s.pc.job.id == job ==> ok == inserted)
    case Loop(AdvanceDue(ok, next)) =>
      s.pc.DueAdvance?
        && (s.pc.job.id == job && job in s.jobs ==>
          ok && (s.pc.job.kind != Once ==> Advanced(lib, s.pc.job, s.pc.now, next)))
    case Crash => !(s.pc.DueAdvance? && s.pc.job.id == job)
    case _ => true
  }

  // ----- the tables -----

  /** No scheduled row is added or changed. */
  ghost predicate Fewer(runs: R.Table, runs': R.Table) {
    forall id <- runs' :: runs'[id].scheduledFor == None
      || (id in runs && runs'[id].jobId == runs[id].jobId && runs'[id].scheduledFor == runs[id].scheduledFor)
  }

  lemma FewerKeeps(lib: Library, s: State, runs: R.Table, job: JobId)
    requires Sequenced(lib, s, job) && Fewer(s.runs, runs)
    ensures Sequenced(lib, s.(runs := runs), job)
  {
    hide RowGood, HoldsCurrent, IsScheduled;
    assert forall id <- runs | IsScheduled(runs[id], job) ::
      id in s.runs && IsScheduled(s.runs[id], job) && runs[id].scheduledFor == s.runs[id].scheduledFor by {
      FewerScheduled(s.runs, runs, job);
    }
    hide Fewer;
  }

  lemma FewerScheduled(runs: R.Table, runs': R.Table, job: JobId)
    requires Fewer(runs, runs')
    ensures forall id <- runs' | IsScheduled(runs'[id], job) ::
      id in runs && IsScheduled(runs[id], job) && runs'[id].scheduledFor == runs[id].scheduledFor
  {
  }

  lemma StatementsAddNone(runs: R.Table, id: RunId, job: JobId, at: Second, runner: nat, o: Outcome)
    ensures Fewer(runs, runs)
    ensures Fewer(runs, R.PendingCanceled(runs, job, at)) && Fewer(runs, R.Claimed(runs, id, runner))
    ensures Fewer(runs, R.Started(runs, id, at)) && Fewer(runs, R.Finished(runs, id, o))
      && Fewer(runs, R.JobRemoved(runs, job))
    ensures Fewer(runs, R.Inserted(runs, id, job, None, at))
  {
  }

  // ----- the loop -----

  lemma MoveKeeps(lib: Library, s: State, pc: Pc, job: JobId)
    requires Sequenced(lib, s, job) && !InDue(pc)
    requires s.pc.DueAdvance? ==> s.pc.job.id != job || job !in s.jobs
    requires pc.DueList? ==> pc.now <= s.clock
    ensures Sequenced(lib, s.(pc := pc), job)
  {
    hide Rising, UpTo, Below, RowGood;
  }

  lemma ListedKeeps(lib: Library, s: State, due: seq<Job>, job: JobId)
    requires Sequenced(lib, s, job) && J.Keyed(s.jobs) && (forall id <- s.jobs :: id < s.nextJob)
    requires s.pc.DueList? && J.IsDueList(s.jobs, s.pc.now, due)
    ensures Sequenced(lib, s.(pc := DueNext(due, s.pc.now)), job)
  {
    hide Rising, UpTo, Below, RowGood;
    forall i, j | 0 <= i < j < |due| ensures due[i].id != due[j].id {
      assert J.Before(due[i], due[j]);
    }
  }

  lemma PolicyKeeps(lib: Library, s: State, ok: bool, job: JobId)
    requires Sequenced(lib, s, job) && s.pc.DueNext? && s.pc.due != []
    ensures Sequenced(lib, ApplyPolicyNext(s, ok), job)
  {
    hide Rising, UpTo, Below, RowGood, HoldsCurrent, Fewer, R.HasUnfinished, R.PendingCanceled;
    var s' := ApplyPolicyNext(s, ok);
    PolicyRuns(s, ok);
    FewerKeeps(lib, s, s'.runs, job);
    HeadHeld(s.(runs := s'.runs), job);
    BelowIsUpTo(s'.runs, s.jobs, job);
  }

  lemma PolicyRuns(s: State, ok: bool)
    requires s.pc.DueNext? && s.pc.due != []
    ensures Fewer(s.runs, ApplyPolicyNext(s, ok).runs)
  {
    hide R.HasUnfinished, R.PendingCanceled, Fewer;
    StatementsAddNone(s.runs, 0, s.pc.due[0].id, s.pc.now, 0, Outcome(Pending, 0, None, None));
  }

  lemma BelowIsUpTo(runs: R.Table, jobs: J.Table, job: JobId)
    ensures job in jobs && jobs[job].nextRunAt.Some? && Below(runs, job, jobs[job].nextRunAt.value) ==>
      UpTo(runs, job, jobs[job].nextRunAt.value)
  {
  }

  lemma HeadHeld(s: State, job: JobId)
    requires s.pc.DueNext? && s.pc.due != [] && HoldsCurrent(s.pc, s.jobs, s.nextJob, s.clock, job)
    ensures HoldsCurrent(DueNext(s.pc.due[1..], s.pc.now), s.jobs, s.nextJob, s.clock, job)
    ensures HoldsCurrent(DueInsert(s.pc.due[0], s.pc.due[1..], s.pc.now), s.jobs, s.nextJob, s.clock, job)
    ensures HoldsCurrent(DueAdvance(s.pc.due[0], s.pc.due[1..], s.pc.now), s.jobs, s.nextJob, s.clock, job)
  {
    var rest := s.pc.due[1..];
    assert forall i :: 0 <= i < |rest| ==> rest[i] == s.pc.due[i + 1];
  }

  lemma InsertKeeps(lib: Library, s: State, inserted: bool, ok: bool, job: JobId)
    requires Sequenced(lib, s, job) && s.pc.DueInsert? && (forall id <- s.runs :: id < s.nextRun)
    requires inserted ==> s.pc.job.id in s.jobs && s.pc.job.nextRunAt.Some?
    requires s.pc.job.id == job ==> ok == inserted
    ensures Sequenced(lib, InsertDueNext(s, inserted, ok), job)
  {
    hide RowGood;
    var s' := InsertDueNext(s, inserted, ok);
    if s.pc.job.id != job || !inserted {
      assert forall id <- s'.runs | IsScheduled(s'.runs[id], job) :: id in s.runs && s'.runs[id] == s.runs[id];
    } else {
      assert s.pc.job.nextRunAt == s.jobs[job].nextRunAt;
      assert forall id <- s'.runs | id != s.nextRun :: id in s.runs && s'.runs[id] == s.runs[id];
    }
  }

  lemma AdvanceKeeps(lib: Library, s: State, ok: bool, next: Option<Second>, job: JobId)
    requires Sequenced(lib, s, job) && J.Keyed(s.jobs) && s.pc.DueAdvance?
      && Atomic(lib, s, Loop(AdvanceDue(ok, next)), job)
    ensures Sequenced(lib, AdvanceDueNext(s, ok, next), job)
  {
    var s' := AdvanceDueNext(s, ok, next);
    if s.pc.job.id == job && job in s.jobs {
      AdvanceJob(lib, s, next, job);
    } else {
      assert job in s'.jobs <==> job in s.jobs;
      assert job in s.jobs ==> s'.jobs[job] == s.jobs[job];
      hide Rising, UpTo, Below, RowGood, J.Updated, J.NextRunUpdated, Advanced;
    }
  }

  lemma AdvanceJob(lib: Library, s: State, next: Option<Second>, job: JobId)
    requires Sequenced(lib, s, job) && s.pc.DueAdvance? && s.pc.job.id == job && job in s.jobs
    requires s.pc.job.kind != Once ==> Advanced(lib, s.pc.job, s.pc.now, next)
    ensures Sequenced(lib, AdvanceDueNext(s, true, next), job)
  {
    var row := s.pc.job;
    var s' := AdvanceDueNext(s, true, next);
    AlikeGood(lib, row, s.jobs[job]);
    AdvancedGood(lib, row, s.pc.now, next);
    if row.kind != Once { UpToIsBelow(s.runs, job, row.nextRunAt.value, next.value); }
    var row' := if row.kind == Once then row.(enabled := false, nextRunAt := None) else row.(nextRunAt := next);
    assert Alike(row', s'.jobs[job]);
    AlikeGood(lib, row', s'.jobs[job]);
    hide Rising, UpTo, Below, Advanced, Jobs.RowOk, Jobs.Spaced;
  }

  lemma UpToIsBelow(runs: R.Table, job: JobId, at: Second, later: Second)
    requires at < later
    ensures UpTo(runs, job, at) ==> Below(runs, job, later)
  {
  }

  /** The last-run columns do not matter to the schedule. */
  lemma AlikeGood(lib: Library, a: Job, b: Job)
    requires Alike(a, b)
    ensures Jobs.RowOk(lib, a) <==> Jobs.RowOk(lib, b)
    ensures Jobs.RowOk(lib, a) ==> (Jobs.Spaced(lib, a) <==> Jobs.Spaced(lib, b))
  {
    hide Schedule.Parse, Schedule.LoadZone, Schedule.Parsed, Schedule.Regular, Schedule.DurationOf;
  }

  lemma AdvancedGood(lib: Library, row: Job, now: Second, next: Option<Second>)
    requires Jobs.RowOk(lib, row) && Jobs.Spaced(lib, row) && J.Due(row, now)
    ensures row.kind == Once ==>
      var row' := row.(enabled := false, nextRunAt := None);
      Jobs.RowOk(lib, row') && Jobs.Spaced(lib, row')
    ensures row.kind != Once && Advanced(lib, row, now, next) ==>
      var row' := row.(nextRunAt := next);
      next.Some? && row.nextRunAt.value < next.value && Jobs.RowOk(lib, row') && Jobs.Spaced(lib, row')
  {
    hide Schedule.Parse, Schedule.LoadZone, Schedule.Parsed, Schedule.Regular, Schedule.DurationOf, Schedule.Ends;
    hide Schedule.StoredNext;
    if row.kind != Once && Advanced(lib, row, now, next) {
      var instant: Time :| Seconds(instant) == now
        && Schedule.Ends(Jobs.RowStep(lib, row), Instant(row.nextRunAt.value), instant)
        && next == Some(Schedule.StoredNext(Jobs.RowStep(lib, row), row.nextRunAt.value, instant));
      Jobs.AdvancedLater(lib, row, instant);
    }
  }

  lemma OtherKeeps(lib: Library, s: State, e: LoopStep, job: JobId)
    requires Sequenced(lib, s, job) && LoopEnabled(s, e) && !e.ListDue?
    requires OnlyMoves(e)
    ensures Sequenced(lib, LoopNext(s, e), job)
  {
    hide Rising, UpTo, Below, RowGood, HoldsCurrent, R.IsPage, J.IsDueList, HasActive, Handles;
    MoveKeeps(lib, s, LoopNext(s, e).pc, job);
  }

  lemma ClaimKeeps(lib: Library, s: State, ok: bool, job: JobId)
    requires Sequenced(lib, s, job) && s.pc.Handling?
    ensures Sequenced(lib, TryClaimNext(s, ok), job)
  {
    hide Rising, UpTo, Below, RowGood, HoldsCurrent, BelowNext, Fewer, R.Claimed, R.Claimable;
    StatementsAddNone(s.runs, s.pc.run.id, 0, s.clock, s.runner, Outcome(Pending, 0, None, None));
    var s' := TryClaimNext(s, ok);
    FewerKeeps(lib, s, s'.runs, job);
    MoveKeeps(lib, s.(runs := s'.runs), s'.pc, job);
  }

  lemma MarkKeeps(lib: Library, s: State, ok: bool, job: JobId)
    requires Sequenced(lib, s, job) && s.pc.Handling?
    ensures Sequenced(lib, MarkRunningNext(s, ok), job)
  {
    hide Rising, UpTo, Below, RowGood, HoldsCurrent, BelowNext, Fewer, R.Started;
    StatementsAddNone(s.runs, s.pc.run.id, 0, s.clock, s.runner, Outcome(Pending, 0, None, None));
    var s' := MarkRunningNext(s, ok);
    FewerKeeps(lib, s, s'.runs, job);
    MoveKeeps(lib, s.(runs := s'.runs), s'.pc, job);
    SameParts(lib, s.(runs := s'.runs, pc := s'.pc), s', job);
  }

  lemma PassKeeps(lib: Library, s: State, e: LoopStep, job: JobId)
    requires Sequenced(lib, s, job) && LoopEnabled(s, e)
    requires e.TryClaim? || e.MarkRunning? || e.RegisterActive? || e.CancelHandle?
    ensures Sequenced(lib, LoopNext(s, e), job)
  {
    if e.TryClaim? || e.MarkRunning? {
      hide Sequenced, TryClaimNext, MarkRunningNext;
      ClaimKeeps(lib, s, e.ok, job);
      MarkKeeps(lib, s, e.ok, job);
    } else {
      hide Rising, UpTo, Below, RowGood, HoldsCurrent, BelowNext, SetReason;
      var s' := LoopNext(s, e);
      MoveKeeps(lib, s, s'.pc, job);
      SameParts(lib, s.(pc := s'.pc), s', job);
    }
  }

  lemma SameParts(lib: Library, s: State, s': State, job: JobId)
    requires Sequenced(lib, s, job)
    requires s'.runs == s.runs && s'.jobs == s.jobs && s'.pc == s.pc && s'.clock == s.clock && s'.nextJob == s.nextJob
    ensures Sequenced(lib, s', job)
  {
  }

  lemma LoopKeeps(lib: Library, s: State, e: LoopStep, job: JobId)
    requires Sequenced(lib, s, job) && Ids(s.jobs, s.runs, s.nextJob, s.nextRun)
    requires LoopEnabled(s, e) && Atomic(lib, s, Loop(e), job)
    ensures Sequenced(lib, LoopNext(s, e), job)
  {
    hide Sequenced, ApplyPolicyNext, InsertDueNext, AdvanceDueNext;
    match e
    case ListDue(due) =>
      if due.Some? { ListedKeeps(lib, s, due.value, job); } else { ListFails(lib, s, job); }
    case ApplyPolicy(ok) => PolicyKeeps(lib, s, ok, job);
    case InsertDue(inserted, ok) => InsertKeeps(lib, s, inserted, ok, job);
    case AdvanceDue(ok, next) => AdvanceKeeps(lib, s, ok, next, job);
    case _ => hide LoopNext; if OnlyMoves(e) { OtherKeeps(lib, s, e, job); } else { PassKeeps(lib, s, e, job); }
  }

  lemma ListFails(lib: Library, s: State, job: JobId)
    requires Sequenced(lib, s, job) && s.pc.DueList?
    ensures Sequenced(lib, s.(pc := PendingList), job)
  {
    MoveKeeps(lib, s, PendingList, job);
  }

  // ----- the other actors -----

  lemma RunKeeps(lib: Library, s: State, id: RunId, e: RunStep, job: JobId)
    requires Sequenced(lib, s, job) && RunEnabled(s, id, e)
    ensures Sequenced(lib, RunNext(s, id, e), job)
  {
    hide Sequenced, R.Finished, J.SummaryUpdated, Fewer;
    var s' := RunNext(s, id, e);
    var o := if e.Persist? then s.active[id].phase.final else Outcome(Pending, 0, None, None);
    StatementsAddNone(s.runs, id, 0, 0, 0, o);
    if e.Summarise? {
      SummaryKeeps(lib, s, s.active[id].job, s.active[id].phase.final.finishedAt, s.active[id].phase.final.status, job);
    }
    FewerKeeps(lib, s, s'.runs, job);
    SameParts(lib, if e.Summarise? then s.(jobs := s'.jobs) else s.(runs := s'.runs), s', job);
  }

  lemma SummaryKeeps(lib: Library, s: State, of: JobId, at: Second, status: Status, job: JobId)
    requires Sequenced(lib, s, job)
    ensures Sequenced(lib, s.(jobs := J.SummaryUpdated(s.jobs, of, at, status)), job)
  {
    var jobs := J.SummaryUpdated(s.jobs, of, at, status);
    if job in s.jobs {
      assert Alike(s.jobs[job], jobs[job]);
      AlikeGood(lib, s.jobs[job], jobs[job]);
    }
    hide Rising, UpTo, Below, Jobs.RowOk, Jobs.Spaced;
  }

  lemma CommandGood(lib: Library, old_: Job, row: Job, now: Time)
    requires Jobs.RowOk(lib, old_) && Command(lib, old_, row, now)
    ensures Jobs.RowOk(lib, row)
    ensures Jobs.Spaced(lib, row) && row.nextRunAt.Some? && row.nextRunAt != old_.nextRunAt ==>
      Seconds(now) < row.nextRunAt.value
  {
    hide Schedule.Parse, Schedule.LoadZone, Schedule.Next, Jobs.NextRun, Jobs.Spaced;
    if exists f :: Jobs.Update(lib, old_, f, now) == Jobs.Done(Some(row)) {
      var f :| Jobs.Update(lib, old_, f, now) == Jobs.Done(Some(row));
      Jobs.EditKeepsRow(lib, old_, f, now);
      hide Jobs.Update;
      if Jobs.Spaced(lib, row) && row.nextRunAt.Some? && row.nextRunAt != old_.nextRunAt {
        Jobs.UpdateArms(lib, old_, f, now);
        Jobs.ArmedLater(lib, row, now);
      }
    } else if row == Jobs.Paused(old_) {
    } else if Jobs.Spaced(lib, row) && !old_.enabled {
      Jobs.ArmedLater(lib, row, now);
    }
  }

  lemma WriteKeeps(lib: Library, s: State, row: Job, job: JobId)
    requires Sequenced(lib, s, job) && row.id in s.jobs && Atomic(lib, s, Cli(WriteJob(row)), job)
    ensures Sequenced(lib, s.(jobs := s.jobs[row.id := row]), job)
  {
    if row.id == job {
      var now: Time :| UpTo(s.runs, job, Seconds(now)) && Command(lib, s.jobs[job], row, now);
      hide Jobs.Spaced, Command;
      CommandGood(lib, s.jobs[job], row, now);
      if row.nextRunAt.Some? && row.nextRunAt != s.jobs[job].nextRunAt {
        UpToIsBelow(s.runs, job, Seconds(now), row.nextRunAt.value);
      }
      hide Jobs.RowOk, Rising, UpTo, Below;
    } else {
      hide Rising, UpTo, Below, Jobs.RowOk, Jobs.Spaced, Commanded;
    }
  }

  lemma AddKeeps(lib: Library, s: State, row: Job, job: JobId)
    requires Sequenced(lib, s, job) && Ids(s.jobs, s.runs, s.nextJob, s.nextRun)
    requires row.id == s.nextJob && Atomic(lib, s, Cli(AddJob(row)), job)
    ensures Sequenced(lib, s.(jobs := s.jobs[row.id := row], nextJob := s.nextJob + 1), job)
  {
    hide Rising, UpTo, Jobs.RowOk, Jobs.Spaced;
    assert row.id == job ==> forall id <- s.runs :: s.runs[id].jobId != job;
  }

  lemma DeleteKeeps(lib: Library, s: State, of: JobId, job: JobId)
    requires Sequenced(lib, s, job)
    ensures Sequenced(lib, s.(jobs := s.jobs - {of}, runs := R.JobRemoved(s.runs, of)), job)
  {
    StatementsAddNone(s.runs, 0, of, 0, 0, Outcome(Pending, 0, None, None));
    hide Fewer, R.JobRemoved;
    FewerKeeps(lib, s, R.JobRemoved(s.runs, of), job);
    hide Rising, UpTo, Below, Jobs.RowOk, Jobs.Spaced;
  }

  lemma CliKeeps(lib: Library, s: State, e: CliStep, job: JobId)
    requires Sequenced(lib, s, job) && Ids(s.jobs, s.runs, s.nextJob, s.nextRun)
    requires CliEnabled(s, e) && Atomic(lib, s, Cli(e), job)
    ensures Sequenced(lib, CliNext(s, e), job)
  {
    hide Sequenced, Atomic, Fewer, R.PendingCanceled, R.Inserted, R.HasUnfinished, R.JobRemoved;
    match e
    case AddJob(row) => AddKeeps(lib, s, row, job);
    case WriteJob(row) => WriteKeeps(lib, s, row, job);
    case DeleteJob(j) => DeleteKeeps(lib, s, j, job);
    case CancelPending(j, at) =>
      StatementsAddNone(s.runs, 0, j, at, 0, Outcome(Pending, 0, None, None));
      FewerKeeps(lib, s, R.PendingCanceled(s.runs, j, at), job);
    case InsertManual(j, at) => ManualKeeps(lib, s, j, at, job);
    case RunJob(j) =>
      StatementsAddNone(s.runs, 0, j, s.clock, 0, Outcome(Pending, 0, None, None));
      FewerKeeps(lib, s, R.PendingCanceled(s.runs, j, s.clock), job);
      ManualKeeps(lib, s, j, s.clock, job);
      ManualKeeps(lib, s.(runs := R.PendingCanceled(s.runs, j, s.clock)), j, s.clock, job);
  }

  lemma ManualKeeps(lib: Library, s: State, j: JobId, at: Second, job: JobId)
    requires Sequenced(lib, s, job)
    ensures Sequenced(lib, ManualInserted(s, j, at), job)
  {
    StatementsAddNone(s.runs, s.nextRun, j, at, 0, Outcome(Pending, 0, None, None));
    FewerKeeps(lib, s, R.Inserted(s.runs, s.nextRun, j, None, at), job);
    hide Fewer, R.Inserted, Sequenced;
    SameParts(lib, s.(runs := R.Inserted(s.runs, s.nextRun, j, None, at)), ManualInserted(s, j, at), job);
  }

  lemma ClockKeeps(lib: Library, s: State, to: Second, job: JobId)
    requires Sequenced(lib, s, job) && s.clock <= to
    ensures Sequenced(lib, s.(clock := to), job)
  {
    hide RowGood;
  }

  lemma RestartKeeps(lib: Library, s: State, e: Step, job: JobId)
    requires Sequenced(lib, s, job) && Enabled(s, e) && Atomic(lib, s, e, job) && (e.Start? || e.Crash? || e.WgDone?)
    ensures Sequenced(lib, Next(s, e), job)
  {
    hide Rising, UpTo, Below, RowGood;
  }

  lemma StepKeeps(lib: Library, s: State, e: Step, job: JobId)
    requires Inv(s) && Enabled(s, e) && Sequenced(lib, s, job) && Atomic(lib, s, e, job)
    ensures Sequenced(lib, Next(s, e), job)
  {
    hide Rows, Starts, Entries, OneUnreasoned, Snapshots, Registering, Accounted, Clearing, Sequenced, Atomic;
    hide LoopNext, RunNext, CliNext, LoopEnabled, RunEnabled, CliEnabled;
    match e
    case Loop(l) => LoopKeeps(lib, s, l, job);
    case Completion(id, r) => RunKeeps(lib, s, id, r, job);
    case Cli(c) => CliKeeps(lib, s, c, job);
    case Clock(to) => ClockNow(lib, s, to, job); ClockKeeps(lib, s, to, job);
    case _ => RestartKeeps(lib, s, e, job);
  }

  lemma ClockNow(lib: Library, s: State, to: Second, job: JobId)
    requires Atomic(lib, s, Clock(to), job)
    ensures s.clock <= to
  {
  }

  lemma {:induction false} StaysSequenced(lib: Library, ss: seq<State>, es: seq<Step>, i: nat, job: JobId)
    requires Behaviour(ss, es) && i < |ss| && forall k :: 0 <= k < i ==> Atomic(lib, ss[k], es[k], job)
    ensures Sequenced(lib, ss[i], job)
  {
    hide Inv, Next, Enabled, Atomic;
    if i == 0 {
    } else {
      hide Sequenced;
      StaysSequenced(lib, ss, es, i - 1, job);
      Reachable(ss, es, i - 1);
      StepKeeps(lib, ss[i - 1], es[i - 1], job);
    }
  }

  /**
    In the runs table of any reachable state, a job's scheduled rows strictly increase with their ids,
    so no occurrence is enqueued twice, and all lie below the job's next run, across restarts, catch-up, pause,
    resume and edits. (Between a row's insert and the advance, the row is the due time itself.)
   */
  lemma ScheduledRunsIncrease(lib: Library, ss: seq<State>, es: seq<Step>, i: nat, job: JobId, a: RunId, b: RunId)
    requires Behaviour(ss, es) && i < |ss| && forall k :: 0 <= k < i ==> Atomic(lib, ss[k], es[k], job)
    requires a in ss[i].runs && b in ss[i].runs && a < b
    requires IsScheduled(ss[i].runs[a], job) && IsScheduled(ss[i].runs[b], job)
    ensures ss[i].runs[a].scheduledFor.value < ss[i].runs[b].scheduledFor.value
    ensures job in ss[i].jobs && ss[i].jobs[job].nextRunAt.Some? ==>
      (ss[i].pc.DueAdvance? && ss[i].pc.job.id == job)
        || ss[i].runs[b].scheduledFor.value < ss[i].jobs[job].nextRunAt.value
  {
    hide Atomic, Next, Enabled;
    StaysSequenced(lib, ss, es, i, job);
  }

  // ----- without atomicity: exactly when the occurrences increase -----

  /** A scheduled row of the job is inserted only for a due time after those of its rows so far. */
  ghost predicate Guard(s: State, e: Step, job: JobId) {
    match e
    case Loop(InsertDue(inserted, _)) =>
      s.pc.DueInsert?
        && (inserted && s.pc.job.id == job && s.pc.job.nextRunAt.Some? ==> Below(s.runs, job, s.pc.job.nextRunAt.value))
    case _ => true
  }

  lemma FewerRises(runs: R.Table, runs': R.Table, job: JobId)
    requires Rising(runs, job) && Fewer(runs, runs')
    ensures Rising(runs', job)
  {
    FewerScheduled(runs, runs', job);
    hide Fewer, IsScheduled;
  }

  lemma InsertRisesIff(s: State, inserted: bool, ok: bool, job: JobId)
    requires s.pc.DueInsert? && (forall id <- s.runs :: id < s.nextRun) && Rising(s.runs, job)
    requires inserted ==> s.pc.job.nextRunAt.Some?
    ensures Rising(InsertDueNext(s, inserted, ok).runs, job) <==> Guard(s, Loop(InsertDue(inserted, ok)), job)
  {
    var runs' := InsertDueNext(s, inserted, ok).runs;
    if inserted {
      assert forall id <- s.runs :: id in runs' && runs'[id] == s.runs[id];
      assert forall id <- runs' :: id == s.nextRun || id in s.runs;
      if s.pc.job.id == job {
        assert IsScheduled(runs'[s.nextRun], job) && runs'[s.nextRun].scheduledFor == s.pc.job.nextRunAt;
      } else {
        assert !IsScheduled(runs'[s.nextRun], job);
      }
    }
    hide IsScheduled;
  }

  /** No other step adds a scheduled row or changes one. */
  lemma LoopFewer(s: State, e: LoopStep)
    requires LoopEnabled(s, e) && !e.InsertDue?
    ensures Fewer(s.runs, LoopNext(s, e).runs)
  {
    hide Fewer, Moved, R.Claimed, R.Started, R.Claimable;
    if e.ApplyPolicy? {
      hide ApplyPolicyNext;
      PolicyRuns(s, e.ok);
    } else if e.TryClaim? || e.MarkRunning? {
      StatementsAddNone(s.runs, s.pc.run.id, 0, s.clock, s.runner, Outcome(Pending, 0, None, None));
    } else {
      RunLife.LoopRuns(s, e);
      StatementsAddNone(s.runs, 0, 0, 0, 0, Outcome(Pending, 0, None, None));
    }
  }

  lemma RunFewer(s: State, id: RunId, e: RunStep)
    requires RunEnabled(s, id, e)
    ensures Fewer(s.runs, RunNext(s, id, e).runs)
  {
    hide Fewer, R.Finished;
    var o := if e.Persist? then s.active[id].phase.final else Outcome(Pending, 0, None, None);
    StatementsAddNone(s.runs, id, 0, 0, 0, o);
  }

  lemma CliFewer(s: State, e: CliStep)
    requires CliEnabled(s, e)
    ensures Fewer(s.runs, CliNext(s, e).runs)
  {
    hide Fewer, R.PendingCanceled, R.Inserted, R.HasUnfinished, R.JobRemoved;
    match e
    case DeleteJob(j) => StatementsAddNone(s.runs, 0, j, 0, 0, Outcome(Pending, 0, None, None));
    case CancelPending(j, at) => StatementsAddNone(s.runs, 0, j, at, 0, Outcome(Pending, 0, None, None));
    case InsertManual(j, at) => StatementsAddNone(s.runs, s.nextRun, j, at, 0, Outcome(Pending, 0, None, None));
    case RunJob(j) =>
      var canceled := R.PendingCanceled(s.runs, j, s.clock);
      StatementsAddNone(s.runs, s.nextRun, j, s.clock, 0, Outcome(Pending, 0, None, None));
      StatementsAddNone(canceled, s.nextRun, j, s.clock, 0, Outcome(Pending, 0, None, None));
      FewerTrans(s.runs, canceled, R.Inserted(canceled, s.nextRun, j, None, s.clock));
    case _ => StatementsAddNone(s.runs, 0, 0, 0, 0, Outcome(Pending, 0, None, None));
  }

  lemma FewerTrans(a: R.Table, b: R.Table, c: R.Table)
    requires Fewer(a, b) && Fewer(b, c)
    ensures Fewer(a, c)
  {
  }

  lemma StepRisesIff(s: State, e: Step, job: JobId)
    requires Inv(s) && Enabled(s, e) && Rising(s.runs, job)
    ensures Rising(Next(s, e).runs, job) <==> Guard(s, e, job)
  {
    hide Rows, Starts, Entries, OneUnreasoned, Snapshots, Registering, Accounted, Clearing;
    hide Rising, Fewer, InsertDueNext, RunNext, CliNext, RunEnabled, CliEnabled, Below;
    if e.Loop? && e.loop.InsertDue? {
      InsertRisesIff(s, e.loop.inserted, e.loop.ok, job);
    } else {
      hide LoopNext, LoopEnabled;
      match e {
        case Loop(l) => LoopFewer(s, l);
        case Completion(id, r) => RunFewer(s, id, r);
        case Cli(c) => CliFewer(s, c);
        case _ => StatementsAddNone(s.runs, 0, 0, 0, 0, Outcome(Pending, 0, None, None));
      }
      FewerRises(s.runs, Next(s, e).runs, job);
    }
  }

  /**
    Whatever else happens, the job's occurrences have increased in every state so far exactly when the
    due time of each of its inserts came after those enqueued before.
   */
  lemma {:induction false} RisingIff(ss: seq<State>, es: seq<Step>, i: nat, job: JobId)
    requires Behaviour(ss, es) && i < |ss|
    ensures (forall k :: 0 <= k <= i ==> Rising(ss[k].runs, job)) <==>
      (forall k :: 0 <= k < i ==> Guard(ss[k], es[k], job))
  {
    hide Inv, Next, Enabled, Guard;
    if i == 0 {
    } else {
      hide Rising;
      RisingIff(ss, es, i - 1, job);
      Reachable(ss, es, i - 1);
      if forall k :: 0 <= k < i ==> Guard(ss[k], es[k], job) {
        StepRisesIff(ss[i - 1], es[i - 1], job);
      }
      if forall k :: 0 <= k <= i ==> Rising(ss[k].runs, job) {
        assert Rising(ss[i - 1].runs, job) && Rising(ss[i].runs, job);
        StepRisesIff(ss[i - 1], es[i - 1], job);
      }
    }
  }
}
