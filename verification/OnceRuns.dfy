/** A once job has one scheduled run per arming, in the runs table, over behaviours of the protocol. */
module OnceRuns {
  import opened Domain
  import opened Protocol
  import opened Safety
  import opened Occurrences
  import RunLife
  import R = RunsStore
  import J = JobsStore

  /** The step gives the job no next run: a command leaves it disabled, or enabled as it was, for the same time. */
  predicate LeavesUnarmed(s: State, e: Step, job: JobId) {
    e.Cli? && e.cli.WriteJob? && e.cli.row.id == job && job in s.jobs && e.cli.row.enabled ==>
      s.jobs[job].enabled && e.cli.row.kind == s.jobs[job].kind && e.cli.row.nextRunAt == s.jobs[job].nextRunAt
  }

  /** A scheduled row of the job enqueued since the id `base` was next. */
  predicate Since(runs: R.Table, id: RunId, base: RunId, job: JobId) {
    id in runs && base <= id && IsScheduled(runs[id], job)
  }

  /** The time the job is armed for. */
  function ArmedFor(jobs: J.Table, job: JobId): Option<Second> {
    if job in jobs && jobs[job].enabled then jobs[job].nextRunAt else None
  }

  /** All rows since then are for that time; and an enabled job is still armed for it. */
  ghost predicate OnlyFor(s: State, job: JobId, base: RunId, due: Option<Second>) {
    && job < s.nextJob
    && (forall id | Since(s.runs, id, base, job) :: s.runs[id].scheduledFor == due)
    && (job in s.jobs && s.jobs[job].enabled ==> s.jobs[job].kind == Once && s.jobs[job].nextRunAt == due)
  }

  lemma FewerOnlyFor(s: State, s': State, job: JobId, base: RunId, due: Option<Second>)
    requires OnlyFor(s, job, base, due) && Fewer(s.runs, s'.runs) && s.nextJob <= s'.nextJob
    requires job in s'.jobs && s'.jobs[job].enabled ==>
      job in s.jobs && s.jobs[job].enabled && s'.jobs[job].kind == s.jobs[job].kind
        && s'.jobs[job].nextRunAt == s.jobs[job].nextRunAt
    ensures OnlyFor(s', job, base, due)
  {
    FewerScheduled(s.runs, s'.runs, job);
    hide Fewer, IsScheduled;
  }

  /** Inserted for the job, a row is for the time the job is armed for. */
  lemma InsertOnlyFor(s: State, inserted: bool, ok: bool, job: JobId, base: RunId, due: Option<Second>)
    requires OnlyFor(s, job, base, due) && LoopEnabled(s, InsertDue(inserted, ok))
    requires HoldsCurrent(s.pc, s.jobs, s.nextJob, s.clock, job)
    ensures OnlyFor(InsertDueNext(s, inserted, ok), job, base, due)
  {
    var s' := InsertDueNext(s, inserted, ok);
    assert forall id :: id in s'.runs && id != s.nextRun ==> id in s.runs && s'.runs[id] == s.runs[id];
  }

  lemma AdvanceOnlyFor(s: State, ok: bool, next: Option<Second>, job: JobId, base: RunId, due: Option<Second>)
    requires OnlyFor(s, job, base, due) && s.pc.DueAdvance? && HoldsCurrent(s.pc, s.jobs, s.nextJob, s.clock, job)
    ensures OnlyFor(AdvanceDueNext(s, ok, next), job, base, due)
  {
  }

  /** The other steps of the loop leave the jobs as they are. */
  lemma LoopOnlyFor(s: State, e: LoopStep, job: JobId, base: RunId, due: Option<Second>)
    requires OnlyFor(s, job, base, due) && LoopEnabled(s, e) && HoldsCurrent(s.pc, s.jobs, s.nextJob, s.clock, job)
    ensures OnlyFor(LoopNext(s, e), job, base, due)
  {
    hide OnlyFor, HoldsCurrent, InsertDueNext, AdvanceDueNext;
    match e
    case InsertDue(inserted, ok) => InsertOnlyFor(s, inserted, ok, job, base, due);
    case AdvanceDue(ok, next) => AdvanceOnlyFor(s, ok, next, job, base, due);
    case _ =>
      hide LoopNext, LoopEnabled, Fewer;
      LoopFewer(s, e);
      RunLife.LoopFrame(s, e);
      FewerOnlyFor(s, LoopNext(s, e), job, base, due);
  }

  lemma RunOnlyFor(s: State, id: RunId, e: RunStep, job: JobId, base: RunId, due: Option<Second>)
    requires OnlyFor(s, job, base, due) && RunEnabled(s, id, e)
    ensures OnlyFor(RunNext(s, id, e), job, base, due)
  {
    hide OnlyFor, Fewer, R.Finished, Final;
    RunFewer(s, id, e);
    FewerOnlyFor(s, RunNext(s, id, e), job, base, due);
  }

  lemma CliOnlyFor(s: State, e: CliStep, job: JobId, base: RunId, due: Option<Second>)
    requires OnlyFor(s, job, base, due) && CliEnabled(s, e) && LeavesUnarmed(s, Cli(e), job)
    ensures OnlyFor(CliNext(s, e), job, base, due)
  {
    CliFewer(s, e);
    hide Fewer, IsScheduled, R.PendingCanceled, R.Inserted, R.HasUnfinished, R.JobRemoved;
    FewerOnlyFor(s, CliNext(s, e), job, base, due);
  }

  lemma StepOnlyFor(s: State, e: Step, job: JobId, base: RunId, due: Option<Second>)
    requires Enabled(s, e) && OnlyFor(s, job, base, due) && LeavesUnarmed(s, e, job)
    requires HoldsCurrent(s.pc, s.jobs, s.nextJob, s.clock, job)
    ensures OnlyFor(Next(s, e), job, base, due)
  {
    hide OnlyFor, HoldsCurrent, LoopNext, RunNext, CliNext, LoopEnabled, RunEnabled, CliEnabled, LeavesUnarmed;
    match e
    case Loop(l) => LoopOnlyFor(s, l, job, base, due);
    case Completion(id, r) => RunOnlyFor(s, id, r, job, base, due);
    case Cli(c) => CliOnlyFor(s, c, job, base, due);
    case _ => SameOnlyFor(s, Next(s, e), job, base, due);
  }

  lemma SameOnlyFor(s: State, s': State, job: JobId, base: RunId, due: Option<Second>)
    requires OnlyFor(s, job, base, due) && s'.runs == s.runs && s'.jobs == s.jobs && s'.nextJob == s.nextJob
    ensures OnlyFor(s', job, base, due)
  {
  }

  /** From i to j no step arms the job. */
  ghost predicate Unarmed(ss: seq<State>, es: seq<Step>, i: nat, j: nat, job: JobId)
    requires Behaviour(ss, es) && i <= j < |ss|
  {
    forall k :: i <= k < j ==> LeavesUnarmed(ss[k], es[k], job)
  }

  lemma {:induction false} StaysOnlyFor(lib: Library, ss: seq<State>, es: seq<Step>, i: nat, j: nat, job: JobId,
      due: Option<Second>)
    requires Behaviour(ss, es) && i <= j < |ss| && forall k :: 0 <= k < j ==> Atomic(lib, ss[k], es[k], job)
    requires Unarmed(ss, es, i, j, job) && OnlyFor(ss[i], job, ss[i].nextRun, due)
    ensures OnlyFor(ss[j], job, ss[i].nextRun, due)
  {
    hide Inv, Next, Enabled, Atomic, LeavesUnarmed, OnlyFor;
    if i == j {
    } else {
      StaysOnlyFor(lib, ss, es, i, j - 1, job, due);
      StaysSequenced(lib, ss, es, j - 1, job);
      hide HoldsCurrent;
      StepOnlyFor(ss[j - 1], es[j - 1], job, ss[i].nextRun, due);
    }
  }

  lemma BeginsOnlyFor(s: State, job: JobId)
    requires Inv(s) && job in s.jobs && (s.jobs[job].enabled ==> s.jobs[job].kind == Once)
    ensures OnlyFor(s, job, s.nextRun, ArmedFor(s.jobs, job))
  {
    hide Rows, Starts, Entries, OneUnreasoned, Snapshots, Registering, Accounted, Clearing;
  }

  /**
    Until it is armed again, an enabled once job has at most one scheduled row, for the time it was armed for,
    and none as long as it stays enabled, but for the moment between the insert and the disabling; a disabled job
    has none.
   */
  lemma OneRunPerArming(lib: Library, ss: seq<State>, es: seq<Step>, i: nat, j: nat, job: JobId, a: RunId, b: RunId)
    requires Behaviour(ss, es) && i <= j < |ss| && forall k :: 0 <= k < j ==> Atomic(lib, ss[k], es[k], job)
    requires job in ss[i].jobs && (ss[i].jobs[job].enabled ==> ss[i].jobs[job].kind == Once)
      && Unarmed(ss, es, i, j, job)
    requires Since(ss[j].runs, a, ss[i].nextRun, job)
    ensures ss[i].jobs[job].enabled && ss[j].runs[a].scheduledFor == ss[i].jobs[job].nextRunAt
    ensures Since(ss[j].runs, b, ss[i].nextRun, job) ==> a == b
    ensures job in ss[j].jobs && ss[j].jobs[job].enabled ==> ss[j].pc.DueAdvance? && ss[j].pc.job.id == job
  {
    hide Next, Enabled, Atomic, LeavesUnarmed, Inv;
    Reachable(ss, es, i);
    BeginsOnlyFor(ss[i], job);
    StaysOnlyFor(lib, ss, es, i, j, job, ArmedFor(ss[i].jobs, job));
    StaysSequenced(lib, ss, es, j, job);
    hide HoldsCurrent, RowGood, Behaviour;
  }
}
