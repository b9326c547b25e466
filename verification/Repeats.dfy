/** What it takes for a job's occurrences not to increase: one of five slips, each a single step. */
module Repeats {
  import opened Domain
  import opened Protocol
  import opened Safety
  import opened Occurrences
  import RunLife
  import R = RunsStore
  import J = JobsStore

  /** The stored next run lies above the scheduled rows. */
  ghost predicate NextAbove(jobs: J.Table, runs: R.Table, job: JobId) {
    job in jobs && jobs[job].nextRunAt.Some? ==> Below(runs, job, jobs[job].nextRunAt.value)
  }

  predicate Advancing(pc: Pc, job: JobId) { pc.DueAdvance? && pc.job.id == job }

  /** The daemon dies between the insert and the advance, and the stored next run is not above the rows. */
  ghost predicate DiesBetween(s: State, e: Step, job: JobId) {
    e == Crash && Advancing(s.pc, job) && !NextAbove(s.jobs, s.runs, job)
  }

  /** The advance fails, and leaves such a next run. */
  ghost predicate AdvanceFails(s: State, e: Step, job: JobId) {
    e.Loop? && e.loop.AdvanceDue? && !e.loop.ok && Advancing(s.pc, job) && !NextAbove(s.jobs, s.runs, job)
  }

  /** The inserted row cannot be read back, so the advance is not tried, and such a next run is left. */
  ghost predicate ReadBackFails(s: State, e: Step, job: JobId) {
    && e.Loop? && e.loop.InsertDue? && e.loop.inserted && !e.loop.ok && s.pc.DueInsert? && s.pc.job.id == job
    && !NextAbove(s.jobs, InsertDueNext(s, true, false).runs, job)
  }

  /** The advance does not pass the due time: a duration below a second. */
  ghost predicate AdvancesNowhere(s: State, e: Step, job: JobId) {
    && e.Loop? && e.loop.AdvanceDue? && e.loop.ok && Advancing(s.pc, job) && s.pc.job.kind != Once
    && e.loop.next.Some? && s.pc.job.nextRunAt.Some? && e.loop.next.value <= s.pc.job.nextRunAt.value
  }

  /**
    A command writes a next run that is not above the rows: one read before an advance, or computed by an earlier
    clock.
   */
  ghost predicate WritesOld(s: State, e: Step, job: JobId) {
    && e.Cli? && e.cli.WriteJob? && e.cli.row.id == job && job in s.jobs
    && e.cli.row.nextRunAt.Some? && !Below(s.runs, job, e.cli.row.nextRunAt.value)
  }

  ghost predicate Slip(s: State, e: Step, job: JobId) {
    || DiesBetween(s, e, job) || AdvanceFails(s, e, job) || ReadBackFails(s, e, job)
    || AdvancesNowhere(s, e, job) || WritesOld(s, e, job)
  }

  // ----- what holds without a slip -----

  ghost predicate RowBelow(row: Job, runs: R.Table, job: JobId) {
    row.id == job ==> row.nextRunAt.Some? && Below(runs, job, row.nextRunAt.value)
  }

  /** The due times the pass holds for the job lie above its rows, the one being advanced not below them. */
  ghost predicate HeldAbove(pc: Pc, runs: R.Table, job: JobId) {
    && (InDue(pc) ==>
          && (forall i :: 0 <= i < |pc.due| ==> RowBelow(pc.due[i], runs, job))
          && (forall i, j :: 0 <= i < j < |pc.due| ==> pc.due[i].id != pc.due[j].id))
    && (pc.DueInsert? || pc.DueAdvance? ==> forall i :: 0 <= i < |pc.due| ==> pc.due[i].id != pc.job.id)
    && (pc.DueInsert? ==> RowBelow(pc.job, runs, job))
    && (Advancing(pc, job) ==> pc.job.nextRunAt.Some? && UpTo(runs, job, pc.job.nextRunAt.value))
  }

  ghost predicate Steady(s: State, job: JobId) {
    && Rising(s.runs, job) && HeldAbove(s.pc, s.runs, job)
    && (!Advancing(s.pc, job) ==> NextAbove(s.jobs, s.runs, job))
  }

  // ----- one step -----

  lemma FewerBelow(runs: R.Table, runs': R.Table, job: JobId)
    requires Fewer(runs, runs')
    ensures forall at :: Below(runs, job, at) ==> Below(runs', job, at)
    ensures forall at :: UpTo(runs, job, at) ==> UpTo(runs', job, at)
    ensures Rising(runs, job) ==> Rising(runs', job)
  {
    FewerScheduled(runs, runs', job);
    hide Fewer, IsScheduled;
  }

  lemma FewerSteady(s: State, runs: R.Table, job: JobId)
    requires Steady(s, job) && Fewer(s.runs, runs)
    ensures Steady(s.(runs := runs), job)
  {
    FewerBelow(s.runs, runs, job);
    hide Fewer, Below, UpTo, Rising;
  }

  /** A move out of the due pass, or within it but not away from an advance of the job. */
  lemma LeavesDue(s: State, pc: Pc, job: JobId)
    requires Steady(s, job) && !InDue(pc) && (Advancing(s.pc, job) ==> NextAbove(s.jobs, s.runs, job))
    ensures Steady(s.(pc := pc), job)
  {
    hide Rising, NextAbove;
  }

  lemma ListSteady(s: State, due: seq<Job>, job: JobId)
    requires Steady(s, job) && J.Keyed(s.jobs) && s.pc.DueList? && J.IsDueList(s.jobs, s.pc.now, due)
    ensures Steady(s.(pc := DueNext(due, s.pc.now)), job)
  {
    hide Rising, Below, UpTo;
    forall i, j | 0 <= i < j < |due| ensures due[i].id != due[j].id {
      assert J.Before(due[i], due[j]);
    }
  }

  lemma BelowUpTo(runs: R.Table, job: JobId, at: Second)
    requires Below(runs, job, at)
    ensures UpTo(runs, job, at)
  {
  }

  lemma HeadAbove(due: seq<Job>, now: Second, runs: R.Table, job: JobId)
    requires due != [] && HeldAbove(DueNext(due, now), runs, job)
    ensures HeldAbove(DueNext(due[1..], now), runs, job)
    ensures HeldAbove(DueInsert(due[0], due[1..], now), runs, job)
    ensures HeldAbove(DueAdvance(due[0], due[1..], now), runs, job)
  {
    hide Below, UpTo;
    var rest := due[1..];
    assert forall i :: 0 <= i < |rest| ==> rest[i] == due[i + 1];
    if due[0].id == job { BelowUpTo(runs, job, due[0].nextRunAt.value); }
  }

  lemma PolicySteady(s: State, ok: bool, job: JobId)
    requires Steady(s, job) && s.pc.DueNext? && s.pc.due != []
    ensures Steady(ApplyPolicyNext(s, ok), job)
  {
    hide Rising, HeldAbove, NextAbove, Fewer, R.HasUnfinished, R.PendingCanceled;
    var s' := ApplyPolicyNext(s, ok);
    PolicyRuns(s, ok);
    FewerSteady(s, s'.runs, job);
    HeadAbove(s.pc.due, s.pc.now, s'.runs, job);
  }

  lemma InsertSteady(s: State, inserted: bool, ok: bool, job: JobId)
    requires Steady(s, job) && (forall id <- s.runs :: id < s.nextRun) && LoopEnabled(s, InsertDue(inserted, ok))
    requires !ReadBackFails(s, Loop(InsertDue(inserted, ok)), job)
    ensures Steady(InsertDueNext(s, inserted, ok), job)
  {
    var s' := InsertDueNext(s, inserted, ok);
    if s.pc.job.id != job || !inserted {
      assert forall id <- s'.runs | IsScheduled(s'.runs[id], job) :: id in s.runs && s'.runs[id] == s.runs[id];
      SameScheduled(s.runs, s'.runs, job);
      hide Rising, Below, UpTo, IsScheduled;
    } else {
      InsertedAbove(s.runs, s.nextRun, job, s.pc.job.nextRunAt.value, s.pc.now);
      hide Rising, Below, UpTo, IsScheduled, R.Inserted;
    }
  }

  lemma SameScheduled(runs: R.Table, runs': R.Table, job: JobId)
    requires forall id <- runs' | IsScheduled(runs'[id], job) :: id in runs && runs'[id] == runs[id]
    ensures forall at :: Below(runs, job, at) ==> Below(runs', job, at)
    ensures forall at :: UpTo(runs, job, at) ==> UpTo(runs', job, at)
    ensures Rising(runs, job) ==> Rising(runs', job)
  {
  }

  lemma InsertedAbove(runs: R.Table, id: RunId, job: JobId, due: Second, at: Second)
    requires Rising(runs, job) && Below(runs, job, due) && forall r <- runs :: r < id
    ensures Rising(R.Inserted(runs, id, job, Some(due), at), job)
      && UpTo(R.Inserted(runs, id, job, Some(due), at), job, due)
  {
  }

  lemma AdvanceSteady(s: State, ok: bool, next: Option<Second>, job: JobId)
    requires Steady(s, job) && J.Keyed(s.jobs) && s.pc.DueAdvance?
    requires !Slip(s, Loop(AdvanceDue(ok, next)), job)
    ensures Steady(AdvanceDueNext(s, ok, next), job)
  {
    hide Rising, Below, UpTo, IsScheduled;
    if ok && s.pc.job.id == job && next.Some? && s.pc.job.kind != Once {
      UpToBelow(s.runs, job, s.pc.job.nextRunAt.value, next.value);
    }
  }

  lemma UpToBelow(runs: R.Table, job: JobId, at: Second, later: Second)
    requires UpTo(runs, job, at) && at < later
    ensures Below(runs, job, later)
  {
  }

  lemma PassSteady(s: State, e: LoopStep, job: JobId)
    requires Steady(s, job) && LoopEnabled(s, e)
    requires e.TryClaim? || e.MarkRunning? || e.RegisterActive? || e.CancelHandle?
    ensures Steady(LoopNext(s, e), job)
  {
    LoopFewer(s, e);
    RunLife.LoopFrame(s, e);
    PassOffDue(s, e);
    hide Fewer, Rising, Below, UpTo, LoopNext, LoopEnabled, HeldAbove;
    FewerSteady(s, LoopNext(s, e).runs, job);
    OffDueSteady(s.(runs := LoopNext(s, e).runs), LoopNext(s, e), job);
  }

  lemma PassOffDue(s: State, e: LoopStep)
    requires LoopEnabled(s, e) && (e.TryClaim? || e.MarkRunning? || e.RegisterActive? || e.CancelHandle?)
    ensures !InDue(s.pc) && !InDue(LoopNext(s, e).pc)
  {
    hide R.Claimable, R.Claimed, R.Started, SetReason;
  }

  lemma OffDueSteady(s: State, s': State, job: JobId)
    requires Steady(s, job) && s'.runs == s.runs && s'.jobs == s.jobs && !InDue(s.pc) && !InDue(s'.pc)
    ensures Steady(s', job)
  {
    hide Rising, Below, UpTo;
  }

  lemma MoveSteady(s: State, e: LoopStep, job: JobId)
    requires Steady(s, job) && LoopEnabled(s, e) && OnlyMoves(e) && J.Keyed(s.jobs)
    ensures Steady(LoopNext(s, e), job)
  {
    if e.ListDue? && e.due.Some? {
      hide Steady, J.IsDueList;
      ListSteady(s, e.due.value, job);
    } else {
      hide Steady, R.IsPage, J.IsDueList, HasActive, Handles;
      LeavesDue(s, Moved(s, e), job);
    }
  }

  lemma LoopSteady(s: State, e: LoopStep, job: JobId)
    requires Steady(s, job) && Ids(s.jobs, s.runs, s.nextJob, s.nextRun) && LoopEnabled(s, e) && !Slip(s, Loop(e), job)
    ensures Steady(LoopNext(s, e), job)
  {
    hide Steady, ApplyPolicyNext, AdvanceDueNext, NextAbove;
    match e
    case ApplyPolicy(ok) => PolicySteady(s, ok, job);
    case InsertDue(inserted, ok) => InsertSteady(s, inserted, ok, job);
    case AdvanceDue(ok, next) => AdvanceSteady(s, ok, next, job);
    case _ => hide LoopNext, LoopEnabled; if OnlyMoves(e) { MoveSteady(s, e, job); } else { PassSteady(s, e, job); }
  }

  lemma RunSteady(s: State, id: RunId, e: RunStep, job: JobId)
    requires Steady(s, job) && RunEnabled(s, id, e)
    ensures Steady(RunNext(s, id, e), job)
  {
    hide Steady, Fewer, R.Finished, Final;
    RunFewer(s, id, e);
    var s' := RunNext(s, id, e);
    FewerSteady(s, s'.runs, job);
    JobsSteady(s.(runs := s'.runs), s', job);
  }

  /** The stored next run stays, or goes. */
  lemma JobsSteady(s: State, s': State, job: JobId)
    requires Steady(s, job) && s'.runs == s.runs && s'.pc == s.pc
    requires job in s'.jobs && s'.jobs[job].nextRunAt.Some? ==>
      job in s.jobs && s'.jobs[job].nextRunAt == s.jobs[job].nextRunAt
    ensures Steady(s', job)
  {
    hide Rising, Below, UpTo, HeldAbove;
  }

  lemma CliSteady(s: State, e: CliStep, job: JobId)
    requires Steady(s, job) && Ids(s.jobs, s.runs, s.nextJob, s.nextRun) && CliEnabled(s, e) && !Slip(s, Cli(e), job)
    ensures Steady(CliNext(s, e), job)
  {
    CliFewer(s, e);
    RunLife.CliFrame(s, e);
    hide Fewer, R.PendingCanceled, R.Inserted, R.HasUnfinished, R.JobRemoved;
    var s' := CliNext(s, e);
    FewerSteady(s, s'.runs, job);
    match e
    case AddJob(row) => hide Rising, UpTo, HeldAbove;
    case WriteJob(row) => hide Rising, UpTo, HeldAbove, Below;
    case _ => hide Steady, Slip; JobsSteady(s.(runs := s'.runs), s', job);
  }

  lemma StepSteady(s: State, e: Step, job: JobId)
    requires Inv(s) && Enabled(s, e) && Steady(s, job) && !Slip(s, e, job)
    ensures Steady(Next(s, e), job)
  {
    hide Rows, Starts, Entries, OneUnreasoned, Snapshots, Registering, Accounted, Clearing;
    hide LoopNext, RunNext, CliNext, LoopEnabled, RunEnabled, CliEnabled, NextAbove;
    match e
    case Loop(l) => hide Steady, Slip; LoopSteady(s, l, job);
    case Completion(id, r) => hide Steady, Slip; RunSteady(s, id, r, job);
    case Cli(c) => hide Steady, Slip; CliSteady(s, c, job);
    case Crash => hide Steady; LeavesDue(s, Stopped(false), job); JobsSteady(s.(pc := Stopped(false)), Next(s, e), job);
    case Start => hide Steady, Slip; OffDueSteady(s, Next(s, e), job);
    case _ => hide Steady, Slip; JobsSteady(s, Next(s, e), job);
  }

  lemma {:induction false} StaysSteady(ss: seq<State>, es: seq<Step>, i: nat, job: JobId)
    requires Behaviour(ss, es) && i < |ss| && forall k :: 0 <= k < i ==> !Slip(ss[k], es[k], job)
    ensures Steady(ss[i], job)
  {
    hide Inv, Next, Enabled, Slip;
    if i == 0 {
    } else {
      hide Steady;
      StaysSteady(ss, es, i - 1, job);
      Reachable(ss, es, i - 1);
      StepSteady(ss[i - 1], es[i - 1], job);
    }
  }

  /** If the occurrences of a job do not increase, one of the slips came before. */
  lemma RepeatHasCause(ss: seq<State>, es: seq<Step>, i: nat, job: JobId) returns (k: nat)
    requires Behaviour(ss, es) && i < |ss| && !Rising(ss[i].runs, job)
    ensures k < i && Slip(ss[k], es[k], job)
  {
    hide Next, Enabled, Slip, Rising;
    if forall k :: 0 <= k < i ==> !Slip(ss[k], es[k], job) {
      StaysSteady(ss, es, i, job);
      assert false;
    }
    k :| 0 <= k < i && Slip(ss[k], es[k], job);
  }
}
