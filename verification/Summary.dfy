/** The last-run columns of a job follow the run the loop most recently finished for it. */
module Summary {
  import opened Domain
  import opened Protocol
  import opened Safety
  import opened Exclusion
  import RunLife
  import R = RunsStore
  import J = JobsStore

  /** The columns hold the outcome most recently stored for the job, or nothing if there is none. */
  predicate Reflects(jobs: J.Table, last: map<JobId, Outcome>, job: JobId)
    requires job in jobs
  {
    if job in last then
      jobs[job].lastRunAt == Some(last[job].finishedAt) && jobs[job].lastRunStatus == Some(last[job].status)
    else
      jobs[job].lastRunAt == None && jobs[job].lastRunStatus == None
  }

  /** The goroutine that stored the outcome has still to report it. */
  predicate Reporting(active: map<RunId, Active>, job: JobId) {
    exists a <- active :: active[a].job == job && active[a].phase.Persisted?
  }

  ghost predicate Reports(active: map<RunId, Active>, last: map<JobId, Outcome>, job: JobId) {
    forall a <- active :: active[a].job == job && active[a].phase.Persisted? ==>
      job in last && last[job] == active[a].phase.final
  }

  /** Ids of jobs that do not exist yet appear nowhere. */
  ghost predicate KnownJobs(s: State) {
    && (forall job <- s.lastFinished :: job < s.nextJob)
    && (forall a <- s.active :: s.active[a].job < s.nextJob)
    && (s.pc.Handling? ==> s.pc.run.jobId < s.nextJob)
  }

  /** No row the due pass still holds would write this job back as a once job. */
  ghost predicate DueRepeats(pc: Pc, job: JobId) {
    && (pc.DueNext? || pc.DueInsert? || pc.DueAdvance? ==>
          forall i :: 0 <= i < |pc.due| ==> pc.due[i].id == job ==> pc.due[i].kind != Once)
    && (pc.DueInsert? || pc.DueAdvance? ==> pc.job.id == job ==> pc.job.kind != Once)
  }

  /** The job is neither once nor under replace. */
  predicate Repeats(s: State, job: JobId) {
    job in s.jobs ==> s.jobs[job].kind != Once && s.jobs[job].policy != Replace
  }

  /** The step is not one of those that lose a summary. */
  ghost predicate Calm(s: State, e: Step, job: JobId) {
    match e
    case Cli(WriteJob(row)) =>
      row.id == job && job in s.jobs ==>
        row.lastRunAt == s.jobs[job].lastRunAt && row.lastRunStatus == s.jobs[job].lastRunStatus
    case Completion(id, Summarise(ok)) => id in s.active && s.active[id].job == job ==> ok
    case Crash => !Reporting(s.active, job)
    case _ => true
  }

  ghost predicate UpToDate(s: State, job: JobId) {
    && KnownJobs(s) && DueRepeats(s.pc, job) && Reports(s.active, s.lastFinished, job)
    && (job in s.jobs && !Reporting(s.active, job) ==> Reflects(s.jobs, s.lastFinished, job))
  }

  predicate PassStep(e: LoopStep) {
    e.ListPending? || e.PassDone? || e.RegisterActive? || e.BeginStop? || e.Return? || e.Tick?
  }

  predicate OffDue(pc: Pc) { !pc.DueNext? && !pc.DueInsert? && !pc.DueAdvance? }

  lemma MovesLeaveDue(s: State, e: LoopStep)
    requires LoopEnabled(s, e) && OnlyMoves(e) && (PassStep(e) || HandlingStep(e))
    ensures OffDue(Moved(s, e))
  {
    hide R.IsPage, J.IsDueList, HasActive, Handles;
  }

  lemma ChangeLeavesDue(s: State, ok: bool, id: RunId)
    ensures Canceling(s.pc) ==> OffDue(CancelHandleNext(s, id).pc)
    ensures s.pc.Handling? ==>
      OffDue(TryClaimNext(s, ok).pc) && OffDue(MarkRunningNext(s, ok).pc) && OffDue(RegisterNext(s).pc)
  {
    hide R.Claimable, R.Claimed, R.Started, SetReason;
  }

  lemma ChangesLeaveDue(s: State, e: LoopStep)
    requires LoopEnabled(s, e) && !OnlyMoves(e) && (PassStep(e) || HandlingStep(e))
    ensures OffDue(LoopNext(s, e).pc)
  {
    hide OffDue, Moved, ApplyPolicyNext, InsertDueNext, AdvanceDueNext, CancelHandleNext, TryClaimNext, MarkRunningNext;
    hide RegisterNext;
    match e
    case CancelHandle(id) => ChangeLeavesDue(s, false, id);
    case TryClaim(ok) => ChangeLeavesDue(s, ok, 0);
    case MarkRunning(ok) => ChangeLeavesDue(s, ok, 0);
    case RegisterActive => ChangeLeavesDue(s, false, 0);
  }

  lemma PassStepsLeaveDue(s: State, e: LoopStep)
    requires LoopEnabled(s, e) && (PassStep(e) || HandlingStep(e))
    ensures OffDue(LoopNext(s, e).pc)
  {
    hide LoopEnabled, Moved;
    if OnlyMoves(e) { MovesLeaveDue(s, e); } else { ChangesLeaveDue(s, e); }
  }

  lemma DueStepsKeepDue(s: State, ok: bool, inserted: bool, next: Option<Second>, job: JobId)
    requires DueRepeats(s.pc, job)
    ensures s.pc.DueNext? && s.pc.due != [] ==> DueRepeats(ApplyPolicyNext(s, ok).pc, job)
    ensures s.pc.DueInsert? ==> DueRepeats(InsertDueNext(s, inserted, ok).pc, job)
    ensures s.pc.DueAdvance? ==> DueRepeats(AdvanceDueNext(s, ok, next).pc, job)
  {
    hide R.Inserted, R.PendingCanceled, R.HasUnfinished, J.NextRunUpdated, J.Updated;
  }

  lemma MovesKeepDue(s: State, e: LoopStep, job: JobId)
    requires LoopEnabled(s, e) && OnlyMoves(e) && Repeats(s, job) && DueRepeats(s.pc, job)
    ensures DueRepeats(Moved(s, e), job)
  {
    hide R.IsPage, HasActive, Handles;
  }

  lemma LoopKeepsDue(s: State, e: LoopStep, job: JobId)
    requires LoopEnabled(s, e) && Repeats(s, job) && DueRepeats(s.pc, job)
    ensures DueRepeats(LoopNext(s, e).pc, job)
  {
    if OnlyMoves(e) {
      hide Moved, DueRepeats, Repeats;
      MovesKeepDue(s, e, job);
    } else if PassStep(e) || HandlingStep(e) {
      hide LoopNext, LoopEnabled;
      PassStepsLeaveDue(s, e);
    } else {
      hide DueRepeats, Repeats, ApplyPolicyNext, InsertDueNext, AdvanceDueNext;
      match e
      case ApplyPolicy(ok) => DueStepsKeepDue(s, ok, false, None, job);
      case InsertDue(inserted, ok) => DueStepsKeepDue(s, ok, inserted, None, job);
      case AdvanceDue(ok, next) => DueStepsKeepDue(s, ok, false, next, job);
    }
  }

  lemma LoopKnows(s: State, e: LoopStep)
    requires Ids(s.jobs, s.runs, s.nextJob, s.nextRun) && LoopEnabled(s, e) && KnownJobs(s)
    ensures KnownJobs(LoopNext(s, e))
  {
    RunLife.LoopFrame(s, e);
    if e.RegisterActive? { RunLife.RegisterOnly(s); }
    if LoopNext(s, e).pc.Handling? { HandlingMoves(s, e); }
    hide LoopNext, LoopEnabled;
  }

  lemma AdvanceKeeps(s: State, ok: bool, next: Option<Second>, job: JobId)
    requires LoopEnabled(s, AdvanceDue(ok, next)) && DueRepeats(s.pc, job)
    ensures var jobs := LoopNext(s, AdvanceDue(ok, next)).jobs;
      && (job in jobs <==> job in s.jobs)
      && (job in jobs ==>
        jobs[job].lastRunAt == s.jobs[job].lastRunAt && jobs[job].lastRunStatus == s.jobs[job].lastRunStatus)
  {
  }

  lemma RegisterReflects(s: State, job: JobId)
    requires s.pc.Handling? && s.pc.run.id !in s.active && Reports(s.active, s.lastFinished, job)
    ensures var active := RegisterNext(s).active;
      Reports(active, s.lastFinished, job) && (Reporting(s.active, job) ==> Reporting(active, job))
  {
    var active := RegisterNext(s).active;
    assert forall a <- s.active :: a in active && active[a] == s.active[a];
  }

  lemma LoopReflects(s: State, e: LoopStep, job: JobId)
    requires Ids(s.jobs, s.runs, s.nextJob, s.nextRun) && LoopEnabled(s, e) && Repeats(s, job) && UpToDate(s, job)
    requires At(s.pc, Register) ==> s.pc.run.id !in s.active
    ensures UpToDate(LoopNext(s, e), job)
  {
    LoopKeepsDue(s, e, job);
    LoopKnows(s, e);
    RunLife.LoopFrame(s, e);
    if e.RegisterActive? { RunLife.RegisterOnly(s); RegisterReflects(s, job); }
    if e.AdvanceDue? { AdvanceKeeps(s, e.ok, e.next, job); }
    hide LoopNext, LoopEnabled, KnownJobs, DueRepeats, Ids;
  }

  /** A goroutine of another job leaves the job's entries, columns and stored outcome as they are. */
  lemma OthersFrame(s: State, id: RunId, e: RunStep, job: JobId)
    requires RunEnabled(s, id, e) && s.active[id].job != job
    ensures var s' := RunNext(s, id, e);
      && s'.active - {id} == s.active - {id} && (id in s'.active ==> s'.active[id].job == s.active[id].job)
      && (job in s'.lastFinished <==> job in s.lastFinished)
      && (job in s.lastFinished ==> s'.lastFinished[job] == s.lastFinished[job])
    ensures var s' := RunNext(s, id, e);
      && (job in s'.jobs <==> job in s.jobs) && (job in s.jobs ==> s'.jobs[job] == s.jobs[job])
  {
    hide R.Finished, Final;
  }

  lemma RunKnows(s: State, id: RunId, e: RunStep)
    requires RunEnabled(s, id, e) && KnownJobs(s)
    ensures KnownJobs(RunNext(s, id, e)) && RunNext(s, id, e).pc == s.pc
  {
    hide R.Finished, Final, J.SummaryUpdated;
  }

  lemma OthersReflect(s: State, id: RunId, e: RunStep, job: JobId)
    requires RunEnabled(s, id, e) && UpToDate(s, job) && s.active[id].job != job
    ensures UpToDate(RunNext(s, id, e), job)
  {
    OthersFrame(s, id, e, job);
    RunKnows(s, id, e);
    hide RunNext, RunEnabled, KnownJobs, DueRepeats;
    var s' := RunNext(s, id, e);
    assert forall a <- s'.active :: a != id ==> a in s'.active - {id};
    assert forall a <- s.active :: a != id ==> a in s.active - {id};
    assert forall a <- s.active :: a != id ==> a in s'.active && s'.active[a] == s.active[a];
    assert forall a <- s'.active :: a != id ==> a in s.active && s'.active[a] == s.active[a];
  }

  /** The job's own goroutine, which is its only one. */
  lemma OwnReflects(s: State, id: RunId, e: RunStep, job: JobId)
    requires RunEnabled(s, id, e) && Calm(s, Completion(id, e), job)
    requires Alone(s.active, job) && UpToDate(s, job) && s.active[id].job == job
    ensures UpToDate(RunNext(s, id, e), job)
  {
    hide R.Finished;
    var s' := RunNext(s, id, e);
    assert forall a <- s.active :: s.active[a].job == job ==> a == id;
    assert !e.Unregister? ==> id in s'.active;
  }

  lemma RunReflects(s: State, id: RunId, e: RunStep, job: JobId)
    requires RunEnabled(s, id, e) && Calm(s, Completion(id, e), job)
    requires Alone(s.active, job) && UpToDate(s, job)
    ensures UpToDate(RunNext(s, id, e), job)
  {
    hide UpToDate, RunNext, Calm, Alone;
    if s.active[id].job == job { OwnReflects(s, id, e, job); } else { OthersReflect(s, id, e, job); }
  }

  lemma CliReflects(s: State, e: CliStep, job: JobId)
    requires Ids(s.jobs, s.runs, s.nextJob, s.nextRun) && CliEnabled(s, e) && Calm(s, Cli(e), job) && UpToDate(s, job)
    ensures UpToDate(CliNext(s, e), job)
  {
    RunLife.CliFrame(s, e);
    hide R.Inserted, R.PendingCanceled, R.JobRemoved;
  }

  lemma RegisterApart(s: State)
    requires Inv(s)
    ensures Ids(s.jobs, s.runs, s.nextJob, s.nextRun) && (At(s.pc, Register) ==> s.pc.run.id !in s.active)
  {
    hide Rows, Starts, OneUnreasoned, Snapshots, Accounted, Clearing;
  }

  lemma StepReflects(s: State, e: Step, job: JobId)
    requires Inv(s) && Enabled(s, e) && Repeats(s, job) && Calm(s, e, job)
    requires Alone(s.active, job) && UpToDate(s, job)
    ensures UpToDate(Next(s, e), job)
  {
    hide Inv, Ids, LoopNext, CliNext, RunNext, LoopEnabled, CliEnabled, RunEnabled;
    RegisterApart(s);
    match e
    case Loop(l) => hide Calm, UpToDate; LoopReflects(s, l, job);
    case Completion(id, r) => hide Calm, UpToDate; RunReflects(s, id, r, job);
    case Cli(c) => hide Calm, UpToDate; CliReflects(s, c, job);
    case _ =>
  }

  /** Every state has the job repeating, and every step spares its summary. */
  ghost predicate Disciplined(ss: seq<State>, es: seq<Step>, job: JobId, n: nat)
    requires Behaviour(ss, es)
  {
    && (forall k :: 0 <= k <= n && k < |ss| ==> Repeats(ss[k], job))
    && (forall k :: 0 <= k < n && k < |es| ==> Calm(ss[k], es[k], job))
  }

  lemma {:induction false} StaysUpToDate(ss: seq<State>, es: seq<Step>, i: nat, job: JobId)
    requires Behaviour(ss, es) && i < |ss| && Disciplined(ss, es, job, i)
    ensures UpToDate(ss[i], job)
  {
    hide Inv, Next, Enabled, Calm;
    if i == 0 {
    } else {
      StaysUpToDate(ss, es, i - 1, job);
      Reachable(ss, es, i - 1);
      Excludes(ss, es, i - 1, job);
      hide UpToDate;
      StepReflects(ss[i - 1], es[i - 1], job);
    }
  }

  /** Whenever the job has no active run, its last-run columns are those of the run most recently finished for it. */
  lemma SummaryIsCurrent(ss: seq<State>, es: seq<Step>, i: nat, job: JobId)
    requires Behaviour(ss, es) && i < |ss| && Disciplined(ss, es, job, i)
    requires job in ss[i].jobs && Idle(ss[i].active, job)
    ensures Reflects(ss[i].jobs, ss[i].lastFinished, job)
  {
    hide Next, Enabled, Calm;
    StaysUpToDate(ss, es, i, job);
  }
}
