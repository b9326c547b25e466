/** A job that is not enabled is enqueued by nobody but a due pass that had listed it before. */
module Pauses {
  import opened Domain
  import opened Protocol
  import opened Safety
  import opened Occurrences
  import opened OnceRuns
  import RunLife
  import R = RunsStore
  import J = JobsStore

  /** The job exists no more, or is disabled. */
  predicate Disabled(s: State, job: JobId) {
    job < s.nextJob && (job in s.jobs ==> !s.jobs[job].enabled)
  }

  /** No command enables the job. */
  predicate LeavesDisabled(e: Step, job: JobId) {
    e.Cli? && e.cli.WriteJob? && e.cli.row.id == job ==> !e.cli.row.enabled
  }

  ghost predicate NeverEnabled(ss: seq<State>, es: seq<Step>, i: nat, j: nat, job: JobId)
    requires Behaviour(ss, es) && i <= j < |ss|
  {
    Disabled(ss[i], job) && forall k :: i <= k < j ==> LeavesDisabled(es[k], job)
  }

  // ----- one step -----

  lemma LoopDisabled(s: State, e: LoopStep, job: JobId)
    requires LoopEnabled(s, e) && Disabled(s, job)
    ensures Disabled(LoopNext(s, e), job)
  {
    if e.AdvanceDue? {
      hide LoopEnabled;
    } else {
      RunLife.LoopFrame(s, e);
      hide LoopNext, LoopEnabled;
    }
  }

  lemma RunDisabled(s: State, id: RunId, e: RunStep, job: JobId)
    requires RunEnabled(s, id, e) && Disabled(s, job)
    ensures Disabled(RunNext(s, id, e), job)
  {
    hide R.Finished, Final;
  }

  lemma StepDisabled(s: State, e: Step, job: JobId)
    requires Inv(s) && Enabled(s, e) && Disabled(s, job) && LeavesDisabled(e, job)
    ensures Disabled(Next(s, e), job)
  {
    hide Inv, LoopNext, RunNext, LoopEnabled, RunEnabled, R.Inserted, R.PendingCanceled, R.JobRemoved, R.HasUnfinished;
    match e
    case Loop(l) => LoopDisabled(s, l, job);
    case Completion(id, r) => RunDisabled(s, id, r, job);
    case Cli(c) =>
    case _ =>
  }

  lemma {:induction false} StaysDisabled(ss: seq<State>, es: seq<Step>, i: nat, j: nat, job: JobId)
    requires Behaviour(ss, es) && i <= j < |ss| && NeverEnabled(ss, es, i, j, job)
    ensures Disabled(ss[j], job)
  {
    hide Inv, Next, Enabled, Disabled, LeavesDisabled;
    if i == j {
    } else {
      StaysDisabled(ss, es, i, j - 1, job);
      Reachable(ss, es, j - 1);
      StepDisabled(ss[j - 1], es[j - 1], job);
    }
  }

  /** While it is disabled, no due list contains the job. */
  lemma NotListed(ss: seq<State>, es: seq<Step>, i: nat, j: nat, job: JobId, due: seq<Job>)
    requires Behaviour(ss, es) && i <= j < |es| && NeverEnabled(ss, es, i, j, job) && es[j] == Loop(ListDue(Some(due)))
    ensures forall k :: 0 <= k < |due| ==> due[k].id != job
  {
    StaysDisabled(ss, es, i, j, job);
    assert Enabled(ss[j], es[j]);
    hide Next, NeverEnabled;
  }

  // ----- the pass that holds it -----

  lemma MoveHeld(s: State, e: LoopStep, job: JobId)
    requires LoopEnabled(s, e) && OnlyMoves(e) && Disabled(s, job)
    ensures !Held(Moved(s, e), job)
  {
    hide R.IsPage, HasActive, Handles;
  }

  lemma ChangeHeld(s: State, ok: bool, inserted: bool, next: Option<Second>, job: JobId)
    ensures s.pc.DueNext? && s.pc.due != [] && Held(ApplyPolicyNext(s, ok).pc, job) ==> Held(s.pc, job)
    ensures s.pc.DueInsert? && Held(InsertDueNext(s, inserted, ok).pc, job) ==> Held(s.pc, job)
    ensures s.pc.DueAdvance? && Held(AdvanceDueNext(s, ok, next).pc, job) ==> Held(s.pc, job)
  {
    if s.pc.DueNext? && s.pc.due != [] { PolicyHeld(s, ok, job); }
    hide R.HasUnfinished, R.PendingCanceled, R.Inserted, J.Updated, J.NextRunUpdated, ApplyPolicyNext;
  }

  lemma PolicyHeld(s: State, ok: bool, job: JobId)
    requires s.pc.DueNext? && s.pc.due != []
    ensures Held(ApplyPolicyNext(s, ok).pc, job) ==> Held(s.pc, job)
  {
    hide R.HasUnfinished, R.PendingCanceled;
  }

  lemma PassHeld(s: State, ok: bool, id: RunId, job: JobId)
    ensures s.pc.Handling? ==> !Held(TryClaimNext(s, ok).pc, job) && !Held(MarkRunningNext(s, ok).pc, job)
    ensures s.pc.Handling? ==> !Held(RegisterNext(s).pc, job)
    ensures Canceling(s.pc) ==> !Held(CancelHandleNext(s, id).pc, job)
  {
    hide R.Claimable, R.Claimed, R.Started, SetReason;
  }

  /** A pass comes to hold a job only by listing it, which takes an enabled one. */
  lemma LoopHeld(s: State, e: LoopStep, job: JobId)
    requires LoopEnabled(s, e) && Disabled(s, job) && Held(LoopNext(s, e).pc, job)
    ensures Held(s.pc, job)
  {
    hide Held, Moved, Disabled, J.IsDueList, R.IsPage;
    hide ApplyPolicyNext, InsertDueNext, AdvanceDueNext, CancelHandleNext, TryClaimNext, MarkRunningNext, RegisterNext;
    match e
    case ApplyPolicy(ok) => ChangeHeld(s, ok, false, None, job);
    case InsertDue(inserted, ok) => ChangeHeld(s, ok, inserted, None, job);
    case AdvanceDue(ok, next) => ChangeHeld(s, ok, false, next, job);
    case CancelHandle(id) => PassHeld(s, false, id, job);
    case TryClaim(ok) => PassHeld(s, ok, 0, job);
    case MarkRunning(ok) => PassHeld(s, ok, 0, job);
    case RegisterActive => PassHeld(s, false, 0, job);
    case _ => MoveHeld(s, e, job);
  }

  lemma StepHeld(s: State, e: Step, job: JobId)
    requires Enabled(s, e) && Disabled(s, job) && Held(Next(s, e).pc, job)
    ensures Held(s.pc, job)
  {
    hide LoopNext, RunNext, CliNext, LoopEnabled, RunEnabled, CliEnabled, Disabled;
    match e
    case Loop(l) => hide Held; LoopHeld(s, l, job);
    case Completion(id, r) => hide Held; RunPc(s, id, r);
    case Cli(c) => hide Held; RunLife.CliFrame(s, c);
    case _ =>
  }

  lemma RunPc(s: State, id: RunId, e: RunStep)
    requires RunEnabled(s, id, e)
    ensures RunNext(s, id, e).pc == s.pc
  {
  }

  /** A pass that holds a disabled job has held it ever since it was disabled. */
  lemma {:induction false} HeldSince(ss: seq<State>, es: seq<Step>, i: nat, j: nat, m: nat, job: JobId)
    requires Behaviour(ss, es) && i <= m <= j < |ss| && NeverEnabled(ss, es, i, j, job) && Held(ss[j].pc, job)
    ensures Held(ss[m].pc, job)
    decreases j
  {
    hide Inv, Next, Enabled, Disabled, LeavesDisabled, Held;
    if m == j {
    } else {
      StaysDisabled(ss, es, i, j - 1, job);
      StepHeld(ss[j - 1], es[j - 1], job);
      HeldSince(ss, es, i, j - 1, m, job);
    }
  }

  // ----- scheduled rows -----

  /** The step adds a scheduled row of the job. */
  predicate Enqueues(s: State, e: Step, job: JobId) {
    e.Loop? && e.loop.InsertDue? && e.loop.inserted && s.pc.DueInsert? && s.pc.job.id == job
  }

  lemma StepSince(s: State, e: Step, id: RunId, base: RunId, job: JobId)
    requires Inv(s) && Enabled(s, e) && Since(Next(s, e).runs, id, base, job)
    ensures Since(s.runs, id, base, job) || Enqueues(s, e, job)
  {
    hide Inv, LoopNext, RunNext, CliNext, LoopEnabled, RunEnabled, CliEnabled, Fewer;
    if e.Loop? && e.loop.InsertDue? {
      InsertSince(s, e.loop.inserted, e.loop.ok, id, base, job);
    } else {
      match e {
        case Loop(l) => LoopFewer(s, l);
        case Completion(r, c) => RunFewer(s, r, c);
        case Cli(c) => CliFewer(s, c);
        case _ => StatementsAddNone(s.runs, 0, 0, 0, 0, Outcome(Pending, 0, None, None));
      }
      FewerScheduled(s.runs, Next(s, e).runs, job);
    }
  }

  lemma InsertSince(s: State, inserted: bool, ok: bool, id: RunId, base: RunId, job: JobId)
    requires LoopEnabled(s, InsertDue(inserted, ok)) && Since(LoopNext(s, InsertDue(inserted, ok)).runs, id, base, job)
    ensures Since(s.runs, id, base, job) || Enqueues(s, Loop(InsertDue(inserted, ok)), job)
  {
  }

  lemma {:induction false} SinceBy(ss: seq<State>, es: seq<Step>, i: nat, j: nat, id: RunId, job: JobId)
    returns (k: nat)
    requires Behaviour(ss, es) && i <= j < |ss| && Since(ss[j].runs, id, ss[i].nextRun, job)
    ensures i <= k < j && Enqueues(ss[k], es[k], job)
  {
    hide Inv, Next, Enabled, Enqueues;
    Reachable(ss, es, i);
    RunLife.InvFresh(ss[i]);
    if i == j {
      k := i;
    } else {
      Reachable(ss, es, j - 1);
      StepSince(ss[j - 1], es[j - 1], id, ss[i].nextRun, job);
      if Enqueues(ss[j - 1], es[j - 1], job) {
        k := j - 1;
      } else {
        k := SinceBy(ss, es, i, j - 1, id, job);
      }
    }
  }

  /**
    A job that is disabled, as by `job pause`, and not enabled again, gets no scheduled row, but for one by a due pass
    that held it then and has held it ever since.
   */
  lemma PausedGetsNone(ss: seq<State>, es: seq<Step>, i: nat, j: nat, id: RunId, job: JobId) returns (k: nat)
    requires Behaviour(ss, es) && i <= j < |ss| && NeverEnabled(ss, es, i, j, job)
    requires Since(ss[j].runs, id, ss[i].nextRun, job)
    ensures i <= k < j && Enqueues(ss[k], es[k], job)
    ensures forall m :: i <= m <= k ==> Held(ss[m].pc, job)
  {
    hide Inv, Next, Enabled, Disabled, LeavesDisabled, Held;
    k := SinceBy(ss, es, i, j, id, job);
    assert Held(ss[k].pc, job) by { EnqueuesHeld(ss[k], es[k], job); }
    forall m | i <= m <= k ensures Held(ss[m].pc, job) { HeldSince(ss, es, i, k, m, job); }
  }

  lemma EnqueuesHeld(s: State, e: Step, job: JobId)
    requires Enqueues(s, e, job)
    ensures Held(s.pc, job)
  {
  }
}
