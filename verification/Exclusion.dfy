/** A job that is never under replace: one run at a time, and a summary that keeps up. */
module Exclusion {
  import opened Domain
  import opened Protocol
  import opened Safety
  import RunLife
  import R = RunsStore
  import J = JobsStore

  predicate NotReplace(s: State, job: JobId) {
    job in s.jobs ==> s.jobs[job].policy != Replace
  }

  /** No state of the behaviour, up to and including index n, has the job under replace. */
  ghost predicate NeverReplace(ss: seq<State>, job: JobId, n: nat) {
    forall k :: 0 <= k <= n && k < |ss| ==> NotReplace(ss[k], job)
  }

  predicate Alone(active: map<RunId, Active>, job: JobId) {
    forall a <- active, b <- active | active[a].job == job && active[b].job == job :: a == b
  }

  predicate Idle(active: map<RunId, Active>, job: JobId) {
    forall a <- active :: active[a].job != job
  }

  /** While the loop handles a run of the job past its check, the job has no active run. */
  predicate Handled(pc: Pc, active: map<RunId, Active>, job: JobId) {
    pc.Handling? && pc.job.id == job ==>
      && pc.job.policy != Replace
      && (pc.stage == Prepare || ((pc.stage == Claim || pc.stage == Mark || pc.stage == Register) && Idle(active, job)))
  }

  predicate HandlingStep(e: LoopStep) {
    || e.LoadJob? || e.PrepareStart? || e.CollectHandles? || e.CancelHandle? || e.HandlesDone?
    || e.TryClaim? || e.MarkRunning?
  }

  lemma OthersLeave(s: State, e: LoopStep)
    requires LoopEnabled(s, e) && !HandlingStep(e)
    ensures !LoopNext(s, e).pc.Handling?
  {
    hide R.IsPage, J.IsDueList, R.Inserted, R.PendingCanceled, R.HasUnfinished, J.Updated, J.NextRunUpdated;
    if OnlyMoves(e) {
      assert !Moved(s, e).Handling?;
    } else {
      hide Moved;
    }
  }

  /** How the loop comes to be handling a run, and moves on with it. */
  predicate GoesOn(s: State, e: LoopStep, pc': Pc)
    requires pc'.Handling?
  {
    if s.pc.Pass? then
      e.LoadJob? && s.pc.rest != [] && s.pc.rest[0].jobId in s.jobs
      && pc' == Handling(Prepare, s.jobs[s.pc.rest[0].jobId], s.pc.rest[0], s.pc.rest[1..])
    else
      s.pc.Handling? && pc' == s.pc.(stage := pc'.stage)
      && match s.pc.stage
         case Prepare =>
           if HasActive(s, s.pc.job.id) then pc'.stage == Collect && s.pc.job.policy == Replace else pc'.stage == Claim
         case Collect => pc'.stage.Replacing?
         case Replacing(_) => pc'.stage.Replacing? || pc'.stage == Claim
         case Claim => pc'.stage == Mark && e == TryClaim(true) && R.Claimable(s.runs, s.pc.run.id)
         case Mark => pc'.stage == Register
         case Register => false
  }

  lemma MovesGoOn(s: State, e: LoopStep)
    requires LoopEnabled(s, e) && OnlyMoves(e) && Moved(s, e).Handling?
    ensures GoesOn(s, e, Moved(s, e))
  {
    hide R.IsPage, J.IsDueList, Handles;
  }

  lemma ChangesGoOn(s: State, ok: bool, id: RunId)
    ensures Canceling(s.pc) && CancelHandleNext(s, id).pc.Handling? ==>
      GoesOn(s, CancelHandle(id), CancelHandleNext(s, id).pc)
    ensures At(s.pc, Claim) && TryClaimNext(s, ok).pc.Handling? ==> GoesOn(s, TryClaim(ok), TryClaimNext(s, ok).pc)
    ensures At(s.pc, Mark) && MarkRunningNext(s, ok).pc.Handling? ==>
      GoesOn(s, MarkRunning(ok), MarkRunningNext(s, ok).pc)
  {
    hide R.Claimed, R.Started, R.Claimable, SetReason, HasActive;
  }

  lemma HandlingMoves(s: State, e: LoopStep)
    requires LoopEnabled(s, e) && LoopNext(s, e).pc.Handling?
    ensures GoesOn(s, e, LoopNext(s, e).pc)
  {
    if !HandlingStep(e) {
      hide LoopNext, LoopEnabled;
      OthersLeave(s, e);
    } else {
      hide Moved, CancelHandleNext, TryClaimNext, MarkRunningNext, GoesOn;
      match e
      case CancelHandle(id) => ChangesGoOn(s, false, id);
      case TryClaim(ok) => ChangesGoOn(s, ok, 0);
      case MarkRunning(ok) => ChangesGoOn(s, ok, 0);
      case _ => MovesGoOn(s, e);
    }
  }

  lemma RegisterExcludes(s: State, job: JobId)
    requires At(s.pc, Register) && s.pc.job.id == s.pc.run.jobId
    requires Alone(s.active, job) && Handled(s.pc, s.active, job)
    ensures Alone(RegisterNext(s).active, job)
  {
  }

  lemma LoopExcludes(s: State, e: LoopStep, job: JobId)
    requires J.Keyed(s.jobs) && Snapshots(s.pc, s.runs, s.nextRun) && LoopEnabled(s, e) && NotReplace(s, job)
    requires Alone(s.active, job) && Handled(s.pc, s.active, job)
    ensures var s' := LoopNext(s, e); Alone(s'.active, job) && Handled(s'.pc, s'.active, job)
  {
    if e.RegisterActive? {
      RegisterExcludes(s, job);
    } else {
      RunLife.LoopFrame(s, e);
      if LoopNext(s, e).pc.Handling? { HandlingMoves(s, e); }
      hide LoopNext, LoopEnabled, Snapshots, Alone;
    }
  }

  lemma RunExcludes(s: State, id: RunId, e: RunStep, job: JobId)
    requires RunEnabled(s, id, e) && Alone(s.active, job) && Handled(s.pc, s.active, job)
    ensures var s' := RunNext(s, id, e); s'.pc == s.pc && Alone(s'.active, job) && Handled(s'.pc, s'.active, job)
  {
  }

  lemma StepExcludes(s: State, e: Step, job: JobId)
    requires Inv(s) && Enabled(s, e) && NotReplace(s, job)
    requires Alone(s.active, job) && Handled(s.pc, s.active, job)
    ensures var s' := Next(s, e); Alone(s'.active, job) && Handled(s'.pc, s'.active, job)
  {
    hide Rows, Starts, Entries, OneUnreasoned, Accounted, Clearing, Registering,
      LoopNext, CliNext, RunNext, LoopEnabled, CliEnabled, RunEnabled;
    match e
    case Loop(l) => hide Alone, Handled; LoopExcludes(s, l, job);
    case Cli(c) => RunLife.CliFrame(s, c);
    case Completion(id, r) => RunExcludes(s, id, r, job);
    case _ =>
  }

  lemma {:induction false} Excludes(ss: seq<State>, es: seq<Step>, i: nat, job: JobId)
    requires Behaviour(ss, es) && i < |ss| && NeverReplace(ss, job, i)
    ensures Alone(ss[i].active, job) && Handled(ss[i].pc, ss[i].active, job)
  {
    hide Inv, Next, Enabled;
    if i == 0 {
    } else {
      Excludes(ss, es, i - 1, job);
      Reachable(ss, es, i - 1);
      StepExcludes(ss[i - 1], es[i - 1], job);
    }
  }

  // ----- the next run waits for the whole of the previous one -----

  /** Step q put the goroutine of `id` into the phase it still has at i. */
  lemma {:induction false} Entered(ss: seq<State>, es: seq<Step>, i: nat, id: RunId) returns (q: nat)
    requires Behaviour(ss, es) && i < |ss| && id in ss[i].active
    ensures q < i && id in ss[q + 1].active && ss[q + 1].active[id] == ss[i].active[id]
    ensures || (es[q] == Loop(RegisterActive) && ss[q].pc.run.id == id && ss[i].active[id].phase == Executing)
            || (es[q].Completion? && es[q].id == id && id in ss[q].active)
  {
    hide Next, Enabled;
    ActiveBack(ss[i - 1], es[i - 1], id);
    if id in ss[i - 1].active && ss[i - 1].active[id] == ss[i].active[id] {
      q := Entered(ss, es, i - 1, id);
    } else {
      q := i - 1;
    }
  }

  lemma ActiveBack(s: State, e: Step, id: RunId)
    requires Enabled(s, e) && id in Next(s, e).active
    ensures || (id in s.active && s.active[id] == Next(s, e).active[id])
            || (e == Loop(RegisterActive) && s.pc.Handling? && s.pc.run.id == id
              && Next(s, e).active[id].phase == Executing)
            || (e.Completion? && e.id == id && id in s.active)
  {
    hide LoopNext, CliNext, RunNext, LoopEnabled, CliEnabled, RunEnabled;
    match e
    case Loop(l) => if !l.RegisterActive? { RunLife.LoopFrame(s, l); } else { RunLife.RegisterOnly(s); }
    case Cli(c) => RunLife.CliFrame(s, c);
    case Completion(r, c) => RunFrame(s, r, c);
    case _ =>
  }

  /** An entry leaves the map only by its own Unregister, or when the process dies. */
  lemma {:induction false} StillActive(ss: seq<State>, es: seq<Step>, i: nat, j: nat, id: RunId)
    requires Behaviour(ss, es) && i <= j < |ss| && id in ss[i].active
    requires forall k :: i <= k < j ==> es[k] != Crash && es[k] != Completion(id, Unregister)
    ensures id in ss[j].active && ss[j].active[id].job == ss[i].active[id].job
    decreases j
  {
    hide Next, Enabled, Inv;
    if i == j {
    } else {
      StillActive(ss, es, i, j - 1, id);
      Reachable(ss, es, j - 1);
      ActiveForth(ss[j - 1], es[j - 1], id);
    }
  }

  lemma NotRegistering(s: State, id: RunId)
    requires Inv(s) && id in s.active
    ensures At(s.pc, Register) ==> s.pc.run.id != id
  {
    hide Rows, Starts, OneUnreasoned, Snapshots, Accounted, Clearing;
  }

  lemma RunFrame(s: State, id: RunId, e: RunStep)
    requires RunEnabled(s, id, e)
    ensures var s' := RunNext(s, id, e);
      && (forall x <- s'.active ::
        x in s.active && s'.active[x].job == s.active[x].job && (x != id ==> s'.active[x] == s.active[x]))
      && (forall x <- s.active :: x in s'.active || (x == id && e.Unregister?))
  {
  }

  lemma ActiveForth(s: State, e: Step, id: RunId)
    requires Inv(s) && Enabled(s, e) && id in s.active && e != Crash && e != Completion(id, Unregister)
    ensures id in Next(s, e).active && Next(s, e).active[id].job == s.active[id].job
  {
    hide Inv, LoopNext, CliNext, RunNext, LoopEnabled, CliEnabled, RunEnabled;
    NotRegistering(s, id);
    match e
    case Loop(l) => if !l.RegisterActive? { RunLife.LoopFrame(s, l); } else { RunLife.RegisterOnly(s); }
    case Cli(c) => RunLife.CliFrame(s, c);
    case Completion(r, c) => RunFrame(s, r, c);
    case _ =>
  }

  /**
    The steps a goroutine has taken when it unregisters: MarkFinished, and if that stored the outcome, summary and
    hook.
   */
  lemma Completed(ss: seq<State>, es: seq<Step>, i: nat, id: RunId)
    returns (persisted: nat, summarised: nat, notified: nat)
    requires Behaviour(ss, es) && i < |ss| && id in ss[i].active && ss[i].active[id].phase.Done?
    ensures persisted < i && es[persisted].Completion? && es[persisted].id == id && es[persisted].run.Persist?
    ensures ss[i].active[id].phase.stored ==>
              && persisted < summarised < notified < i
              && es[summarised].Completion? && es[summarised].id == id && es[summarised].run.Summarise?
              && es[notified] == Completion(id, Notify)
  {
    hide Next, Enabled;
    var last := Entered(ss, es, i, id);
    PhaseStep(ss[last], es[last], id);
    if ss[i].active[id].phase.stored {
      notified := last;
      summarised := Entered(ss, es, notified, id);
      PhaseStep(ss[summarised], es[summarised], id);
      persisted := Entered(ss, es, summarised, id);
      PhaseStep(ss[persisted], es[persisted], id);
    } else {
      persisted, summarised, notified := last, 0, 0;
    }
  }

  /** Which step leads into a phase, and from which phase. */
  lemma PhaseStep(s: State, e: Step, id: RunId)
    requires Enabled(s, e) && e.Completion? && e.id == id && id in s.active && id in Next(s, e).active
    ensures match Next(s, e).active[id].phase
            case Done(true) => e.run.Notify? && s.active[id].phase.Summarised?
            case Summarised(_) => e.run.Summarise? && s.active[id].phase.Persisted?
            case Persisted(_) => e.run.Persist?
            case Done(false) => e.run.Persist?
            case _ => true
  {
  }

  /** A job never under replace has at most one active run. */
  lemma AtMostOneActive(ss: seq<State>, es: seq<Step>, i: nat, job: JobId, a: RunId, b: RunId)
    requires Behaviour(ss, es) && i < |ss| && NeverReplace(ss, job, i)
    requires a in ss[i].active && b in ss[i].active && ss[i].active[a].job == job && ss[i].active[b].job == job
    ensures a == b
  {
    Excludes(ss, es, i, job);
  }

  lemma Registration(ss: seq<State>, es: seq<Step>, m: nat, a: RunId)
    requires Behaviour(ss, es) && m < |es| && RunLife.StartsRun(ss, es, m, a)
    ensures At(ss[m].pc, Register) && ss[m].pc.job.id == ss[m].pc.run.jobId
    ensures a in ss[m + 1].active && ss[m + 1].active[a].job == ss[m].pc.run.jobId
  {
    Reachable(ss, es, m);
    RunLife.RegisterOnly(ss[m]);
    hide Rows, Starts, Entries, OneUnreasoned, Accounted, Clearing, Registering;
  }

  lemma Unregistration(ss: seq<State>, es: seq<Step>, k: nat, a: RunId)
    requires Behaviour(ss, es) && k < |es| && es[k] == Completion(a, Unregister)
    ensures a in ss[k].active && ss[k].active[a].phase.Done?
  {
    assert Enabled(ss[k], es[k]);
  }

  /**
    Between two registrations of runs of such a job, unless the process died, the earlier run went
    through MarkFinished, the summary update and the hook, and then unregistered. (A failed
    MarkFinished skips the summary and the hook.)
   */
  lemma NextRunWaits(ss: seq<State>, es: seq<Step>, m: nat, n: nat, job: JobId, a: RunId, b: RunId)
      returns (persisted: nat, summarised: nat, notified: nat, unregistered: nat)
    requires Behaviour(ss, es) && m < n < |es| && NeverReplace(ss, job, n)
    requires RunLife.StartsRun(ss, es, m, a) && RunLife.StartsRun(ss, es, n, b)
    requires ss[m].pc.run.jobId == job && ss[n].pc.run.jobId == job
    requires forall k :: m < k < n ==> es[k] != Crash
    ensures persisted < unregistered < n && m < unregistered
    ensures es[persisted].Completion? && es[persisted].id == a && es[persisted].run.Persist?
    ensures es[unregistered] == Completion(a, Unregister)
    ensures a in ss[unregistered].active && (ss[unregistered].active[a].phase == Done(true) ==>
              && persisted < summarised < notified < unregistered
              && es[summarised].Completion? && es[summarised].id == a && es[summarised].run.Summarise?
              && es[notified] == Completion(a, Notify))
  {
    hide Inv, Next, Enabled;
    Registration(ss, es, m, a);
    Registration(ss, es, n, b);
    Excludes(ss, es, n, job);
    if forall k :: m < k < n ==> es[k] != Completion(a, Unregister) {
      StillActive(ss, es, m + 1, n, a);
      assert false;
    }
    unregistered :| m < unregistered < n && es[unregistered] == Completion(a, Unregister);
    Unregistration(ss, es, unregistered, a);
    persisted, summarised, notified := Completed(ss, es, unregistered, a);
  }
}
