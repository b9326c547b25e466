/** The scheduler's processing of a due job as one step, tied to the statements the loop executes for it. */
module Processing {
  import opened Domain
  import opened Protocol
  import opened Storage
  import opened Jobs
  import Schedule
  import R = RunsStore
  import J = JobsStore

  /** The statements of one due job, when every call succeeds and nothing comes between them. */
  function Undisturbed(s: State, next: Option<Second>): State
    requires s.pc.DueNext? && s.pc.due != []
  {
    var inserted := Enqueued(s);
    if inserted.pc.DueAdvance? then AdvanceDueNext(inserted, true, next) else inserted
  }

  function Enqueued(s: State): State
    requires s.pc.DueNext? && s.pc.due != []
  {
    var checked := ApplyPolicyNext(s, true);
    if checked.pc.DueInsert? then InsertDueNext(checked, true, true) else checked
  }

  /** A row is due at an instant exactly if ListDue finds it in the second of the instant. */
  lemma DueAtIs(s: State, row: Job, instant: Time, list: seq<Job>)
    requires row.id in s.jobs && s.jobs[row.id] == row && J.IsDueList(s.jobs, instant / 1_000_000_000, list)
    ensures DueAt(row, instant) <==> row in list
    ensures DueAt(row, instant) <==> row.enabled && row.nextRunAt.Some? && Instant(row.nextRunAt.value) <= instant
  {
  }

  /** What the statements leave in the runs table: no row when forbid skips it, else one for the due time. */
  function RunsAfter(runs: R.Table, id: RunId, row: Job, now: Second): R.Table {
    if row.policy == Forbid && R.HasUnfinished(runs, row.id) then runs
    else
      var kept := if row.policy == Replace then R.PendingCanceled(runs, row.id, now) else runs;
      R.Inserted(kept, id, row.id, row.nextRunAt, now)
  }

  lemma Enqueues(s: State, row: Job, due: seq<Job>, now: Second)
    requires s.pc == DueNext([row] + due, now)
    ensures Enqueued(s) == s.(runs := RunsAfter(s.runs, s.nextRun, row, now), pc := DueAdvance(row, due, now),
      nextRun := if row.policy == Forbid && R.HasUnfinished(s.runs, row.id) then s.nextRun else s.nextRun + 1)
  {
    hide R.HasUnfinished, R.PendingCanceled, R.Inserted;
    assert ([row] + due)[1..] == due;
    match row.policy
    case Forbid =>
    case Queue =>
    case Replace =>
  }

  lemma Statements(s: State, row: Job, due: seq<Job>, now: Second, next: Option<Second>)
    requires row.id in s.jobs && s.jobs[row.id] == row && s.pc == DueNext([row] + due, now)
    ensures var s' := Undisturbed(s, next);
      && s'.pc == DueNext(due, now)
      && s'.runs == RunsAfter(s.runs, s.nextRun, row, now)
      && s'.nextRun == (if row.policy == Forbid && R.HasUnfinished(s.runs, row.id) then s.nextRun else s.nextRun + 1)
      && s'.jobs == s.jobs[row.id :=
           if row.kind == Once then row.(enabled := false, nextRunAt := None) else row.(nextRunAt := next)]
  {
    hide R.HasUnfinished, R.PendingCanceled, R.Inserted, RunsAfter, Enqueued;
    Enqueues(s, row, due, now);
  }

  /** The job's row becomes the processed one, and the new run, if there is one, is scheduled for the due time. */
  lemma ProcessingIsStatements(lib: Schedule.Library, s: State, row: Job, due: seq<Job>, instant: Time)
    requires RowOk(lib, row) && DueAt(row, instant) && Completes(lib, Account(row, instant, []), Process(false))
    requires row.id in s.jobs && s.jobs[row.id] == row && s.pc == DueNext([row] + due, Seconds(instant))
    ensures var b := Processed(lib, Account(row, instant, []), R.HasUnfinished(s.runs, row.id));
      var s' := Undisturbed(s, b.row.nextRunAt);
      && s'.pc == DueNext(due, Seconds(instant)) && s'.jobs == s.jobs[row.id := b.row]
      && s'.runs == RunsAfter(s.runs, s.nextRun, row, Seconds(instant))
      && b.scheduled == (if s'.nextRun == s.nextRun then [] else [row.nextRunAt.value])
  {
    hide RowOk, Schedule.StoredNext, Schedule.Ends, R.HasUnfinished, RunsAfter, RowStep, Undisturbed;
    Statements(s, row, due, Seconds(instant),
      Processed(lib, Account(row, instant, []), R.HasUnfinished(s.runs, row.id)).row.nextRunAt);
  }

  /**
    An interval of whole seconds, regular cron or once: the processed row is not due for the same instant, so ListDue
    leaves it out.
   */
  lemma NotListedAgain(lib: Schedule.Library, s: State, row: Job, due: seq<Job>, instant: Time, list: seq<Job>)
    requires RowOk(lib, row) && DueAt(row, instant) && Completes(lib, Account(row, instant, []), Process(false))
    requires row.kind == Interval ==> Schedule.DurationOf(lib, SpecOf(row)) % NANOS == 0
    requires Schedule.Regular(lib, SpecOf(row), Schedule.LoadZone(lib, row.timezone).value)
    requires row.id in s.jobs && s.jobs[row.id] == row && s.pc == DueNext([row] + due, Seconds(instant))
    requires var b := Processed(lib, Account(row, instant, []), R.HasUnfinished(s.runs, row.id));
      J.IsDueList(Undisturbed(s, b.row.nextRunAt).jobs, Seconds(instant), list)
    ensures forall i :: 0 <= i < |list| ==> list[i].id != row.id
  {
    hide Schedule.Parse, Schedule.Parsed, Schedule.LoadZone, Schedule.DurationOf, Schedule.StoredNext, RowStep;
    hide Undisturbed, Schedule.Ends;
    hide Schedule.LeastLater, Schedule.WholeSeconds;
    ProcessingIsStatements(lib, s, row, due, instant);
    RowSteps(lib, row);
    RowIsRegular(lib, row);
    if row.kind == Cron {
      Schedule.CronNotDueAgain(RowStep(lib, row), row.nextRunAt.value, instant);
    } else if row.kind == Interval {
      Schedule.IntervalNextIs(RowStep(lib, row), Schedule.DurationOf(lib, SpecOf(row)), row.nextRunAt.value, instant);
      Schedule.NotDueAgainIff(Schedule.DurationOf(lib, SpecOf(row)));
    }
  }

  lemma RowIsRegular(lib: Schedule.Library, row: Job)
    requires RowOk(lib, row) && Schedule.Regular(lib, SpecOf(row), Schedule.LoadZone(lib, row.timezone).value)
    ensures row.kind == Cron ==> Schedule.LeastLater(RowStep(lib, row)) && Schedule.WholeSeconds(RowStep(lib, row))
  {
    hide Schedule.LeastLater, Schedule.WholeSeconds, Schedule.StoredStep, Schedule.LoadZone;
    RowSteps(lib, row);
  }
}
