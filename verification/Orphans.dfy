/**
  What a crash leaves behind: a running row without a goroutine, which nothing recovers, and which blocks its job under
  forbid.
 */
module Orphans {
  import opened Domain
  import opened Protocol
  import opened Safety
  import opened PolicyLimits
  import RunLife
  import Summary
  import Exclusion
  import Stranded
  import StartOrder
  import R = RunsStore
  import J = JobsStore

  /** Running in the table, and neither in the active map nor about to be registered. */
  predicate Orphan(s: State, id: RunId) {
    id in s.runs && s.runs[id].status == Running && id !in s.active && !(At(s.pc, Register) && s.pc.run.id == id)
  }

  /** Every run that is running when the daemon dies becomes one. */
  lemma CrashOrphans(ss: seq<State>, es: seq<Step>, i: nat)
    requires Behaviour(ss, es) && i < |es| && es[i] == Crash
    ensures forall id <- ss[i].runs | ss[i].runs[id].status == Running ::
      Orphan(ss[i + 1], id) && ss[i + 1].runs[id] == ss[i].runs[id]
  {
    assert ss[i + 1] == Next(ss[i], es[i]);
  }

  // ----- nothing changes the row -----

  lemma MovesOffRegister(s: State, e: LoopStep)
    requires LoopEnabled(s, e) && OnlyMoves(e)
    ensures !At(Moved(s, e), Register)
  {
    hide R.IsPage, J.IsDueList, HasActive, Handles;
  }

  lemma ChangesOffRegister(s: State, ok: bool, inserted: bool, next: Option<Second>, r: RunId)
    ensures s.pc.DueNext? && s.pc.due != [] ==> !At(ApplyPolicyNext(s, ok).pc, Register)
    ensures s.pc.DueInsert? ==> !At(InsertDueNext(s, inserted, ok).pc, Register)
    ensures s.pc.DueAdvance? ==> !At(AdvanceDueNext(s, ok, next).pc, Register)
    ensures Canceling(s.pc) ==> !At(CancelHandleNext(s, r).pc, Register)
    ensures s.pc.Handling? ==> !At(TryClaimNext(s, ok).pc, Register) && !At(RegisterNext(s).pc, Register)
  {
    hide R.HasUnfinished, R.PendingCanceled, R.Inserted, R.Claimed, R.Claimable, J.Updated, J.NextRunUpdated, SetReason;
  }

  /** Only MarkRunning, on a pending row, brings the loop to register a run. */
  lemma EntersRegister(s: State, e: LoopStep)
    requires LoopEnabled(s, e) && At(LoopNext(s, e).pc, Register)
    ensures At(s.pc, Mark) && LoopNext(s, e).pc.run == s.pc.run
    ensures s.pc.run.id in s.runs && s.runs[s.pc.run.id].status == Pending
  {
    hide Moved, ApplyPolicyNext, InsertDueNext, AdvanceDueNext, CancelHandleNext, TryClaimNext, RegisterNext, R.Started;
    match e
    case ApplyPolicy(ok) => ChangesOffRegister(s, ok, false, None, 0);
    case InsertDue(inserted, ok) => ChangesOffRegister(s, ok, inserted, None, 0);
    case AdvanceDue(ok, next) => ChangesOffRegister(s, ok, false, next, 0);
    case CancelHandle(r) => ChangesOffRegister(s, false, false, None, r);
    case TryClaim(ok) => ChangesOffRegister(s, ok, false, None, 0);
    case MarkRunning(ok) =>
    case RegisterActive => ChangesOffRegister(s, false, false, None, 0);
    case _ => MovesOffRegister(s, e);
  }

  /** A running row keeps its columns in every statement but MarkFinished. */
  lemma LoopLeavesRow(s: State, e: LoopStep, id: RunId)
    requires RunLife.FreshIds(s) && LoopEnabled(s, e) && id in s.runs && s.runs[id].status == Running
    ensures id in LoopNext(s, e).runs && LoopNext(s, e).runs[id] == s.runs[id]
  {
    if !e.ApplyPolicy? && !e.InsertDue? && !e.TryClaim? && !e.MarkRunning? {
      hide LoopNext, LoopEnabled;
      RunLife.LoopRuns(s, e);
    } else {
      hide Moved, R.HasUnfinished;
    }
  }

  lemma CliLeavesRow(s: State, e: CliStep, id: RunId)
    requires RunLife.FreshIds(s) && CliEnabled(s, e) && id in s.runs && s.runs[id].status == Running
    ensures id in CliNext(s, e).runs ==> CliNext(s, e).runs[id] == s.runs[id]
  {
    hide R.HasUnfinished, J.Updated;
  }

  lemma LoopActive(s: State, e: LoopStep, id: RunId)
    requires LoopEnabled(s, e) && id !in s.active && !(At(s.pc, Register) && s.pc.run.id == id)
    ensures id !in LoopNext(s, e).active
  {
    RunLife.LoopFrame(s, e);
    if e.RegisterActive? { RunLife.RegisterOnly(s); }
    hide LoopNext;
  }

  lemma RunLeavesRow(s: State, r: RunId, e: RunStep, id: RunId)
    requires RunEnabled(s, r, e) && id !in s.active && id in s.runs
    ensures var s' := RunNext(s, r, e); id in s'.runs && s'.runs[id] == s.runs[id] && id !in s'.active && s'.pc == s.pc
  {
  }

  lemma LoopOrphan(s: State, e: LoopStep, id: RunId)
    requires RunLife.FreshIds(s) && LoopEnabled(s, e) && Orphan(s, id)
    ensures Orphan(LoopNext(s, e), id) && LoopNext(s, e).runs[id] == s.runs[id]
  {
    hide LoopNext, LoopEnabled, RunLife.FreshIds;
    LoopLeavesRow(s, e, id);
    LoopActive(s, e, id);
    if At(LoopNext(s, e).pc, Register) { EntersRegister(s, e); }
  }

  lemma StepOrphan(s: State, e: Step, id: RunId)
    requires Inv(s) && Enabled(s, e) && Orphan(s, id)
    ensures var s' := Next(s, e); id in s'.runs ==> Orphan(s', id) && s'.runs[id] == s.runs[id]
  {
    RunLife.InvFresh(s);
    hide Inv, LoopNext, CliNext, RunNext, LoopEnabled, CliEnabled, RunEnabled, RunLife.FreshIds;
    match e
    case Loop(l) => LoopOrphan(s, l, id);
    case Completion(r, c) => RunLeavesRow(s, r, c, id);
    case Cli(c) => CliLeavesRow(s, c, id); RunLife.CliFrame(s, c);
    case _ =>
  }

  /** As long as its job is not deleted, the row stays exactly as it is: it is never finished, and never run again. */
  lemma {:induction false} StaysOrphan(ss: seq<State>, es: seq<Step>, i: nat, j: nat, id: RunId)
    requires Behaviour(ss, es) && i <= j < |ss| && Orphan(ss[i], id) && id in ss[j].runs
    ensures Orphan(ss[j], id) && ss[j].runs[id] == ss[i].runs[id]
  {
    hide Inv, Next, Enabled, Orphan;
    if i == j {
    } else {
      StaysInTable(ss, es, i, j, id);
      StaysOrphan(ss, es, i, j - 1, id);
      Reachable(ss, es, j - 1);
      StepOrphan(ss[j - 1], es[j - 1], id);
    }
  }

  lemma StaysInTable(ss: seq<State>, es: seq<Step>, i: nat, j: nat, id: RunId)
    requires Behaviour(ss, es) && i < j < |ss| && Orphan(ss[i], id) && id in ss[j].runs
    ensures id in ss[j - 1].runs
  {
    hide Inv, Next, Enabled, RunLife.Settled;
    Reachable(ss, es, i);
    RunLife.InvFresh(ss[i]);
    RunLife.StaysSettled(ss, es, i, j - 1);
    RunLife.StaysSettled(ss, es, j - 1, j);
    NeverBack(ss[i], ss[j - 1], ss[j], id);
  }

  lemma NeverBack(a: State, b: State, c: State, id: RunId)
    requires id in a.runs && id in c.runs && RunLife.FreshIds(a) && RunLife.Settled(a, b) && RunLife.Settled(b, c)
    ensures id in b.runs
  {
  }

  // ----- it blocks its job -----

  /** The due pass is not past the check of the job, and its copies of the job's row are under forbid. */
  ghost predicate Blocked(pc: Pc, job: JobId) {
    DueUnder(pc, job, Forbid) && !(pc.DueInsert? && pc.job.id == job)
  }

  lemma PolicyBlocks(s: State, ok: bool, job: JobId)
    requires s.pc.DueNext? && s.pc.due != [] && R.HasUnfinished(s.runs, job) && Blocked(s.pc, job)
    ensures Blocked(ApplyPolicyNext(s, ok).pc, job)
  {
    hide R.HasUnfinished, R.PendingCanceled;
  }

  lemma DueBlocks(s: State, e: LoopStep, job: JobId)
    requires LoopEnabled(s, e) && (e.ListDue? || e.DueDone? || e.AdvanceDue? || e.InsertDue?)
    requires Under(s, job, Forbid) && Blocked(s.pc, job)
    ensures Blocked(LoopNext(s, e).pc, job)
  {
    hide J.Updated, J.NextRunUpdated, R.Inserted;
  }

  lemma LoopBlocks(s: State, e: LoopStep, job: JobId)
    requires LoopEnabled(s, e) && Under(s, job, Forbid) && R.HasUnfinished(s.runs, job) && Blocked(s.pc, job)
    ensures Blocked(LoopNext(s, e).pc, job)
  {
    hide Blocked, ApplyPolicyNext;
    match e
    case ApplyPolicy(ok) => PolicyBlocks(s, ok, job);
    case InsertDue(_, _) => DueBlocks(s, e, job);
    case ListDue(_) => DueBlocks(s, e, job);
    case DueDone => DueBlocks(s, e, job);
    case AdvanceDue(_, _) => DueBlocks(s, e, job);
    case _ => hide LoopNext, LoopEnabled; PassBlocks(s, e, job);
  }

  lemma PassBlocks(s: State, e: LoopStep, job: JobId)
    requires LoopEnabled(s, e) && (Summary.PassStep(e) || Exclusion.HandlingStep(e))
    ensures Blocked(LoopNext(s, e).pc, job)
  {
    hide LoopNext, LoopEnabled;
    Summary.PassStepsLeaveDue(s, e);
  }

  /** A manual run whose check was made elsewhere. */
  predicate Unchecked(e: Step, job: JobId) {
    e.Cli? && e.cli.InsertManual? && e.cli.job == job
  }

  lemma StepBlocks(s: State, e: Step, job: JobId)
    requires Enabled(s, e) && Under(s, job, Forbid) && R.HasUnfinished(s.runs, job) && Blocked(s.pc, job)
      && !Unchecked(e, job)
    ensures Blocked(Next(s, e).pc, job)
    ensures StartOrder.Adds(s, e).Some? ==> StartOrder.Adds(s, e).value.job != job
  {
    hide LoopNext, CliNext, RunNext, LoopEnabled, CliEnabled, RunEnabled, R.HasUnfinished;
    match e
    case Loop(l) => LoopBlocks(s, l, job);
    case Completion(id, r) => StartOrder.RunNextRun(s, id, r);
    case Cli(c) => RunLife.CliFrame(s, c);
    case _ =>
  }

  /** Between i and j the job stays under forbid, and is enqueued only by those who check first. */
  ghost predicate KeptForbid(ss: seq<State>, es: seq<Step>, i: nat, j: nat, job: JobId)
    requires Behaviour(ss, es) && i <= j < |ss|
  {
    forall k :: i <= k < j ==> Under(ss[k], job, Forbid) && !Unchecked(es[k], job)
  }

  lemma {:induction false} StaysBlocked(ss: seq<State>, es: seq<Step>, i: nat, j: nat, id: RunId, job: JobId)
    requires Behaviour(ss, es) && i <= j < |ss| && Orphan(ss[i], id) && ss[i].runs[id].jobId == job && id in ss[j].runs
    requires Blocked(ss[i].pc, job) && KeptForbid(ss, es, i, j, job)
    ensures Blocked(ss[j].pc, job) && R.HasUnfinished(ss[j].runs, job)
    ensures forall k :: i <= k < j && StartOrder.Adds(ss[k], es[k]).Some? ==>
      StartOrder.Adds(ss[k], es[k]).value.job != job
  {
    hide Inv, Next, Enabled, Blocked, StartOrder.Adds;
    StaysOrphan(ss, es, i, j, id);
    if i == j {
    } else {
      StaysInTable(ss, es, i, j, id);
      StaysBlocked(ss, es, i, j - 1, id, job);
      hide Orphan, R.HasUnfinished;
      StepBlocks(ss[j - 1], es[j - 1], job);
    }
  }

  /**
    While the row is there, its job stays under forbid and everyone checks, no run of the job is enqueued any
    more: the scheduler skips every occurrence, and `job run` is refused every time.
   */
  lemma NothingEnqueued(ss: seq<State>, es: seq<Step>, i: nat, j: nat, id: RunId, job: JobId)
    requires Behaviour(ss, es) && i <= j < |ss| && Orphan(ss[i], id) && ss[i].runs[id].jobId == job && id in ss[j].runs
    requires ss[i].pc.Stopped? && KeptForbid(ss, es, i, j, job)
    ensures forall r <- ss[j].runs | ss[j].runs[r].jobId == job :: r in ss[i].runs
  {
    hide Inv, Next, Enabled, Orphan, StartOrder.Adds;
    StaysBlocked(ss, es, i, j, id, job);
    forall r <- ss[j].runs | ss[j].runs[r].jobId == job ensures r in ss[i].runs {
      RunLife.StaysSettled(ss, es, i, j);
      if r !in ss[i].runs { NewIsAdded(ss, es, i, j, r, job); }
    }
  }

  lemma NewIsAdded(ss: seq<State>, es: seq<Step>, i: nat, j: nat, r: RunId, job: JobId)
    requires Behaviour(ss, es) && i <= j < |ss| && r in ss[j].runs && ss[j].runs[r].jobId == job && ss[i].nextRun <= r
    ensures exists k ::
      i <= k < j && StartOrder.Adds(ss[k], es[k]).Some? && StartOrder.Adds(ss[k], es[k]).value.job == job
  {
    hide Inv, Next, Enabled, StartOrder.Adds;
    Reachable(ss, es, j);
    RunLife.InvFresh(ss[j]);
    var m := StartOrder.AddedAt(ss, es, i, j, r);
    StartOrder.SameColumns(ss, es, m + 1, j, r);
  }

  /** The scheduler and `job run`, at any step of that time. */
  lemma ForbidSkips(ss: seq<State>, es: seq<Step>, i: nat, j: nat, id: RunId, job: JobId)
    requires Behaviour(ss, es) && i <= j < |es| && Orphan(ss[i], id) && ss[i].runs[id].jobId == job && id in ss[j].runs
    ensures es[j] == Cli(RunJob(job)) && ss[j].jobs[job].policy == Forbid ==> ss[j + 1] == ss[j]
    ensures es[j] == Loop(ApplyPolicy(true)) && ss[j].pc.due[0].id == job && ss[j].pc.due[0].policy == Forbid ==>
      ss[j + 1].pc == DueAdvance(ss[j].pc.due[0], ss[j].pc.due[1..], ss[j].pc.now) && ss[j + 1].runs == ss[j].runs
  {
    hide Inv;
    StaysOrphan(ss, es, i, j, id);
    assert R.HasUnfinished(ss[j].runs, job);
    assert Enabled(ss[j], es[j]) && ss[j + 1] == Next(ss[j], es[j]);
    hide R.HasUnfinished;
  }
}
