/** The life of one run and of one daemon, over whole behaviours. */
module RunLife {
  import opened Domain
  import opened Protocol
  import opened Safety
  import R = RunsStore
  import J = JobsStore

  ghost predicate RowsSettled(runs: R.Table, runs': R.Table, next: RunId, next': RunId) {
    && next <= next'
    && forall id <- runs' ::
         if id in runs then runs[id].status.Terminal() ==> runs'[id] == runs[id] else next <= id
  }

  ghost predicate ReasonsSettled(reasons: Reasons, reasons': Reasons) {
    forall id <- reasons :: id in reasons' && (reasons[id] != NoReason ==> reasons'[id] == reasons[id])
  }

  /**
    What is settled stays: a terminal row is never rewritten, a removed row never returns, and the
    first reason set on an activeRun object is the one it keeps.
   */
  ghost predicate Settled(s: State, s': State) {
    RowsSettled(s.runs, s'.runs, s.nextRun, s'.nextRun) && ReasonsSettled(s.reasons, s'.reasons)
  }

  ghost predicate FreshIds(s: State) {
    forall id <- s.runs :: id < s.nextRun
  }

  lemma InvFresh(s: State)
    requires Inv(s)
    ensures FreshIds(s)
  {
  }

  lemma PolicySettles(s: State, ok: bool)
    requires s.pc.DueNext? && s.pc.due != [] && FreshIds(s)
    ensures Settled(s, ApplyPolicyNext(s, ok))
  {
  }

  lemma LoopSettles(s: State, e: LoopStep)
    requires Registering(s.pc, s.runs, s.reasons, s.marked) && FreshIds(s) && LoopEnabled(s, e)
    ensures Settled(s, LoopNext(s, e))
  {
    hide Moved, R.IsPage, J.IsDueList;
    if e.ApplyPolicy? { PolicySettles(s, e.ok); }
  }

  /** MarkFinished checks no status, yet it only ever overwrites a running row. */
  lemma RunSettles(s: State, id: RunId, e: RunStep)
    requires Entries(s.active, s.runs, s.reasons, s.marked, s.lost) && RunEnabled(s, id, e)
    ensures Settled(s, RunNext(s, id, e))
    ensures e.Persist? && id in s.runs ==> s.runs[id].status == Running
  {
  }

  lemma CliSettles(s: State, e: CliStep)
    requires FreshIds(s) && CliEnabled(s, e)
    ensures Settled(s, CliNext(s, e))
  {
  }

  lemma StepSettles(s: State, e: Step)
    requires Inv(s) && Enabled(s, e)
    ensures Settled(s, Next(s, e))
  {
    hide Rows, Starts, OneUnreasoned, Snapshots, Accounted, Clearing;
    match e
    case Loop(l) => LoopSettles(s, l);
    case Completion(id, r) => RunSettles(s, id, r);
    case Cli(c) => CliSettles(s, c);
    case _ =>
  }

  lemma SettledRefl(s: State)
    ensures Settled(s, s)
  {
  }

  lemma SettledTrans(a: State, b: State, c: State)
    requires Settled(a, b) && Settled(b, c) && FreshIds(a)
    ensures Settled(a, c)
  {
    forall id | id in c.runs
      ensures if id in a.runs then a.runs[id].status.Terminal() ==> c.runs[id] == a.runs[id] else a.nextRun <= id
    {
      if id in a.runs { assert id in b.runs; }
    }
  }

  lemma {:induction false} StaysSettled(ss: seq<State>, es: seq<Step>, i: nat, j: nat)
    requires Behaviour(ss, es) && i <= j < |ss|
    ensures Settled(ss[i], ss[j])
    decreases j
  {
    hide Inv, FreshIds, Next, Enabled, RowsSettled, ReasonsSettled;
    if i == j {
      SettledRefl(ss[i]);
    } else {
      StaysSettled(ss, es, i, j - 1);
      Reachable(ss, es, i);
      Reachable(ss, es, j - 1);
      InvFresh(ss[i]);
      StepSettles(ss[j - 1], es[j - 1]);
      SettledTrans(ss[i], ss[j - 1], ss[j]);
    }
  }

  // ----- a run is started at most once -----

  ghost predicate StartsRun(ss: seq<State>, es: seq<Step>, i: nat, id: RunId)
    requires Behaviour(ss, es) && i < |es|
  {
    es[i] == Loop(RegisterActive) && ss[i].pc.run.id == id
  }

  /** No two registrations, by any incarnations of the loop, are for the same run. */
  lemma StartedAtMostOnce(ss: seq<State>, es: seq<Step>, i: nat, j: nat, id: RunId)
    requires Behaviour(ss, es) && i < j < |es|
    requires StartsRun(ss, es, i, id)
    ensures !StartsRun(ss, es, j, id)
  {
    Reachable(ss, es, j);
    StaysSettled(ss, es, i + 1, j);
    assert id in ss[i + 1].reasons;
  }

  /**
    Once succeeded, failed or canceled, a row keeps every column until its job is deleted, and its id is not used
    again.
   */
  lemma TerminalForever(ss: seq<State>, es: seq<Step>, i: nat, j: nat, id: RunId)
    requires Behaviour(ss, es) && i <= j < |ss|
    requires id in ss[i].runs && ss[i].runs[id].status.Terminal()
    ensures id in ss[j].runs ==> ss[j].runs[id] == ss[i].runs[id]
    ensures forall k | j <= k < |ss| :: id !in ss[j].runs ==> id !in ss[k].runs
  {
    hide Inv, Next, Enabled;
    StaysSettled(ss, es, i, j);
    Reachable(ss, es, i);
    InvFresh(ss[i]);
    forall k | j <= k < |ss| && id !in ss[j].runs ensures id !in ss[k].runs {
      StaysSettled(ss, es, j, k);
    }
  }

  // ----- the origin of a terminal row -----

  /** The outcome a phase carries, once the reason has been read. */
  predicate Carries(phase: Phase, o: Outcome) {
    (phase.Decided? || phase.Persisted? || phase.Summarised?) && phase.final == o
  }

  /** Step k is the completion goroutine reading the reason, and o is what it made of the executor's result. */
  ghost predicate DecidedAt(ss: seq<State>, es: seq<Step>, k: nat, id: RunId, o: Outcome)
    requires Behaviour(ss, es)
  {
    && k < |es| && es[k] == Completion(id, Decide) && id in ss[k].reasons && id in ss[k].active
    && ss[k].active[id].phase.Executed?
    && o == Final(ss[k].active[id].phase.result, ss[k].reasons[id])
  }

  /** What no step of the loop touches, and what only registration and the advance do. */
  predicate Framed(s: State, s': State, active: bool, jobs: bool) {
    && s'.lastFinished == s.lastFinished && s'.nextJob == s.nextJob
    && (active || s'.active == s.active) && (jobs || s'.jobs == s.jobs)
  }

  lemma DueFrame(s: State, ok: bool, inserted: bool, next: Option<Second>)
    ensures s.pc.DueNext? && s.pc.due != [] ==> Framed(s, ApplyPolicyNext(s, ok), false, false)
    ensures s.pc.DueInsert? ==> Framed(s, InsertDueNext(s, inserted, ok), false, false)
    ensures s.pc.DueAdvance? ==> Framed(s, AdvanceDueNext(s, ok, next), false, true)
  {
    hide R.HasUnfinished, R.PendingCanceled, R.Inserted, J.Updated, J.NextRunUpdated;
  }

  lemma PassFrame(s: State, ok: bool, id: RunId)
    ensures Canceling(s.pc) ==> Framed(s, CancelHandleNext(s, id), false, false)
    ensures s.pc.Handling? ==>
      && Framed(s, TryClaimNext(s, ok), false, false)
      && Framed(s, MarkRunningNext(s, ok), false, false)
      && Framed(s, RegisterNext(s), true, false)
  {
  }

  lemma LoopFrame(s: State, e: LoopStep)
    requires LoopEnabled(s, e)
    ensures Framed(s, LoopNext(s, e), e.RegisterActive?, e.AdvanceDue?)
  {
    hide Moved, ApplyPolicyNext, InsertDueNext, AdvanceDueNext, CancelHandleNext, TryClaimNext, MarkRunningNext;
    hide RegisterNext;
    match e
    case ApplyPolicy(ok) => DueFrame(s, ok, false, None);
    case InsertDue(inserted, ok) => DueFrame(s, ok, inserted, None);
    case AdvanceDue(ok, next) => DueFrame(s, ok, false, next);
    case CancelHandle(id) => PassFrame(s, false, id);
    case TryClaim(ok) => PassFrame(s, ok, 0);
    case MarkRunning(ok) => PassFrame(s, ok, 0);
    case RegisterActive => PassFrame(s, false, 0);
    case _ =>
  }

  lemma LoopRuns(s: State, e: LoopStep)
    requires LoopEnabled(s, e) && !e.ApplyPolicy? && !e.InsertDue? && !e.TryClaim? && !e.MarkRunning?
    ensures LoopNext(s, e).runs == s.runs
  {
    hide Moved;
  }

  lemma CliFrame(s: State, e: CliStep)
    requires CliEnabled(s, e)
    ensures var s' := CliNext(s, e);
      s' == s.(jobs := s'.jobs, nextJob := s'.nextJob, runs := s'.runs, nextRun := s'.nextRun)
  {
  }

  lemma RegisterOnly(s: State)
    requires LoopEnabled(s, RegisterActive)
    ensures At(s.pc, Register) && LoopNext(s, RegisterActive) == RegisterNext(s)
  {
  }

  lemma RunPhaseBack(s: State, x: RunId, e: RunStep, id: RunId, o: Outcome)
    requires RunEnabled(s, x, e) && id in RunNext(s, x, e).active && Carries(RunNext(s, x, e).active[id].phase, o)
    ensures id in s.active
    ensures || Carries(s.active[id].phase, o)
            || (x == id && e == Decide && o == Final(s.active[id].phase.result, s.reasons[id]))
  {
  }

  lemma PhaseBack(s: State, e: Step, id: RunId, o: Outcome)
    requires Enabled(s, e) && id in Next(s, e).active && Carries(Next(s, e).active[id].phase, o)
    ensures || (id in s.active && Carries(s.active[id].phase, o))
            || (e == Completion(id, Decide) && RunEnabled(s, id, Decide)
              && o == Final(s.active[id].phase.result, s.reasons[id]))
  {
    hide LoopNext, CliNext, RunNext, CliEnabled, LoopEnabled;
    match e
    case Loop(l) => if l.RegisterActive? { RegisterOnly(s); } else { LoopFrame(s, l); }
    case Cli(c) => CliFrame(s, c);
    case Completion(x, c) => RunPhaseBack(s, x, c, id, o);
    case _ =>
  }

  lemma {:induction false} DecidedBefore(ss: seq<State>, es: seq<Step>, i: nat, id: RunId, o: Outcome) returns (k: nat)
    requires Behaviour(ss, es) && i < |ss|
    requires id in ss[i].active && Carries(ss[i].active[id].phase, o)
    ensures k < i && DecidedAt(ss, es, k, id, o)
  {
    hide Next, Enabled;
    PhaseBack(ss[i - 1], es[i - 1], id, o);
    if id in ss[i - 1].active && Carries(ss[i - 1].active[id].phase, o) {
      k := DecidedBefore(ss, es, i - 1, id, o);
    } else {
      k := i - 1;
    }
  }

  predicate Ended(s: State, id: RunId) {
    id in s.runs && s.runs[id].status.Terminal() && s.runs[id].startedAt.Some?
  }

  lemma LoopRowBack(s: State, e: LoopStep, id: RunId)
    requires Rows(s.runs, s.reasons) && LoopEnabled(s, e) && Ended(LoopNext(s, e), id)
    ensures Ended(s, id) && s.runs[id] == LoopNext(s, e).runs[id]
  {
    if e.ApplyPolicy? {
      hide ApplyPolicyNext, Rows, Ended;
      PolicyRowBack(s, e.ok, id);
    } else if e.InsertDue? || e.TryClaim? || e.MarkRunning? {
      hide InsertDueNext, TryClaimNext, MarkRunningNext, Rows, Ended;
      ChangeRowBack(s, e, id);
    } else {
      hide LoopNext, LoopEnabled, Rows;
      LoopRuns(s, e);
    }
  }

  lemma PolicyRowBack(s: State, ok: bool, id: RunId)
    requires Rows(s.runs, s.reasons) && s.pc.DueNext? && s.pc.due != [] && Ended(ApplyPolicyNext(s, ok), id)
    ensures Ended(s, id) && s.runs[id] == ApplyPolicyNext(s, ok).runs[id]
  {
    hide Rows, Ended, R.PendingCanceled, R.HasUnfinished;
    StatementsRowBack(s, s.pc.due[0].id, s.pc.now, id);
    var runs := ApplyPolicyNext(s, ok).runs;
    SameRuns(ApplyPolicyNext(s, ok), s.(runs := runs), id);
  }

  lemma SameRuns(s: State, s': State, id: RunId)
    requires s.runs == s'.runs
    ensures Ended(s, id) <==> Ended(s', id)
  {
  }

  /** A statement on one row leaves a started row that has ended as it is, and ends none. */
  lemma ChangeRowBack(s: State, e: LoopStep, id: RunId)
    requires Rows(s.runs, s.reasons) && LoopEnabled(s, e) && (e.InsertDue? || e.TryClaim? || e.MarkRunning?)
    requires Ended(LoopNext(s, e), id)
    ensures Ended(s, id) && s.runs[id] == LoopNext(s, e).runs[id]
  {
    hide Rows, Reasoned;
  }

  lemma CliRowBack(s: State, e: CliStep, id: RunId)
    requires Rows(s.runs, s.reasons) && CliEnabled(s, e) && Ended(CliNext(s, e), id)
    ensures Ended(s, id) && s.runs[id] == CliNext(s, e).runs[id]
  {
    if e.RunJob? {
      RunJobRowBack(s, e.job, id);
    } else {
      hide J.Updated, R.HasUnfinished, Reasoned;
      assert id in s.runs ==> RowShape(s.runs[id], s.reasons);
      hide Rows;
    }
  }

  lemma StatementsRowBack(s: State, job: JobId, at: Second, id: RunId)
    requires Rows(s.runs, s.reasons)
    ensures var canceled := s.(runs := R.PendingCanceled(s.runs, job, at));
      Ended(canceled, id) ==> Ended(s, id) && s.runs[id] == canceled.runs[id]
    ensures Ended(ManualInserted(s, job, at), id) ==> Ended(s, id) && s.runs[id] == ManualInserted(s, job, at).runs[id]
  {
    hide Reasoned;
    assert id in s.runs ==> RowShape(s.runs[id], s.reasons);
    hide Rows;
  }

  lemma RunJobRowBack(s: State, job: JobId, id: RunId)
    requires Rows(s.runs, s.reasons) && CliEnabled(s, RunJob(job)) && Ended(CliNext(s, RunJob(job)), id)
    ensures Ended(s, id) && s.runs[id] == CliNext(s, RunJob(job)).runs[id]
  {
    hide R.HasUnfinished, R.PendingCanceled, ManualInserted, Ended, Rows;
    StatementsRowBack(s, job, s.clock, id);
    var canceled := s.(runs := R.PendingCanceled(s.runs, job, s.clock));
    if s.jobs[job].policy == Replace { ManualAddsNone(canceled, job, s.clock, id); }
  }

  lemma ManualAddsNone(s: State, job: JobId, at: Second, id: RunId)
    requires Ended(ManualInserted(s, job, at), id)
    ensures Ended(s, id) && s.runs[id] == ManualInserted(s, job, at).runs[id]
  {
  }

  lemma RowBack(s: State, e: Step, id: RunId)
    requires Inv(s) && Enabled(s, e) && Ended(Next(s, e), id)
    ensures if Ended(s, id) then s.runs[id] == Next(s, e).runs[id]
            else e == Completion(id, Persist(true)) && RunEnabled(s, id, Persist(true))
                 && Holds(Next(s, e).runs[id], s.active[id].phase.final)
  {
    hide Rows, Starts, OneUnreasoned, Snapshots, Accounted, Clearing, Registering;
    match e
    case Loop(l) => LoopRowBack(s, l, id);
    case Cli(c) => CliRowBack(s, c, id);
    case Completion(r, c) => RunSettles(s, r, c);
    case _ =>
  }

  /** A started row that is terminal holds exactly the outcome its goroutine decided on. */
  lemma {:induction false} EndedBy(ss: seq<State>, es: seq<Step>, i: nat, id: RunId) returns (k: nat, o: Outcome)
    requires Behaviour(ss, es) && i < |ss| && Ended(ss[i], id)
    ensures k < i && DecidedAt(ss, es, k, id, o) && Holds(ss[i].runs[id], o)
  {
    hide Next, Enabled, Inv;
    Reachable(ss, es, i - 1);
    RowBack(ss[i - 1], es[i - 1], id);
    if Ended(ss[i - 1], id) {
      k, o := EndedBy(ss, es, i - 1, id);
    } else {
      o := ss[i - 1].active[id].phase.final;
      k := DecidedBefore(ss, es, i - 1, id, o);
    }
  }

  /** A step that runs CancelPendingByJob for the job. */
  predicate CancelsPending(s: State, e: Step, job: JobId) {
    match e
    case Loop(ApplyPolicy(ok)) => s.pc.DueNext? && s.pc.due != [] && ok && s.pc.due[0].policy == Replace
      && s.pc.due[0].id == job
    case Cli(CancelPending(j, _)) => j == job
    case Cli(RunJob(j)) => j == job && job in s.jobs && s.jobs[job].policy == Replace
    case _ => false
  }

  /** A row canceled without having been started. */
  predicate Dropped(s: State, id: RunId) {
    id in s.runs && s.runs[id].status == Canceled && s.runs[id].startedAt == None
  }

  /** The step took the row from pending to canceled. */
  ghost predicate Drops(s: State, e: Step, s': State, id: RunId) {
    && id in s.runs && id in s'.runs && s.runs[id].status == Pending && CancelsPending(s, e, s.runs[id].jobId)
    && exists at :: s'.runs[id] == R.CanceledRow(s.runs[id], at)
  }

  lemma CanceledFrom(runs: R.Table, job: JobId, at: Second, id: RunId)
    requires id in R.PendingCanceled(runs, job, at)
    ensures id in runs
    ensures var r := R.PendingCanceled(runs, job, at)[id];
      r == runs[id] || (runs[id].status == Pending && runs[id].jobId == job && r == R.CanceledRow(runs[id], at))
  {
  }

  lemma PolicyDrops(s: State, ok: bool, id: RunId)
    requires LoopEnabled(s, ApplyPolicy(ok)) && Dropped(ApplyPolicyNext(s, ok), id)
    ensures (Dropped(s, id) && s.runs[id] == ApplyPolicyNext(s, ok).runs[id])
      || Drops(s, Loop(ApplyPolicy(ok)), ApplyPolicyNext(s, ok), id)
  {
    hide R.PendingCanceled, R.HasUnfinished;
    if s.pc.due[0].policy == Replace && ok { CanceledFrom(s.runs, s.pc.due[0].id, s.pc.now, id); }
  }

  lemma LoopDrops(s: State, e: LoopStep, id: RunId)
    requires Rows(s.runs, s.reasons) && LoopEnabled(s, e) && Dropped(LoopNext(s, e), id)
    ensures (Dropped(s, id) && s.runs[id] == LoopNext(s, e).runs[id]) || Drops(s, Loop(e), LoopNext(s, e), id)
  {
    hide Moved, ApplyPolicyNext, R.PendingCanceled, R.HasUnfinished, J.Updated, J.NextRunUpdated, Drops;
    if e.ApplyPolicy? {
      PolicyDrops(s, e.ok, id);
    } else {
      assert id in s.runs ==> RowShape(s.runs[id], s.reasons);
      hide Rows;
      if !e.InsertDue? && !e.TryClaim? && !e.MarkRunning? {
        LoopRuns(s, e);
        hide LoopNext;
      }
    }
  }

  lemma CliDrops(s: State, e: CliStep, id: RunId)
    requires CliEnabled(s, e) && Dropped(CliNext(s, e), id)
    ensures (Dropped(s, id) && s.runs[id] == CliNext(s, e).runs[id]) || Drops(s, Cli(e), CliNext(s, e), id)
  {
    hide R.PendingCanceled, R.HasUnfinished, J.Updated;
    match e
    case CancelPending(job, at) => CanceledFrom(s.runs, job, at, id);
    case RunJob(job) => if s.jobs[job].policy == Replace && id != s.nextRun { CanceledFrom(s.runs, job, s.clock, id); }
    case _ =>
  }

  lemma StepDrops(s: State, e: Step, id: RunId)
    requires Inv(s) && Enabled(s, e) && Dropped(Next(s, e), id)
    ensures (Dropped(s, id) && s.runs[id] == Next(s, e).runs[id]) || Drops(s, e, Next(s, e), id)
  {
    hide Starts, OneUnreasoned, Snapshots, Accounted, Clearing, Registering, Drops, Rows, Entries, Ids;
    hide LoopNext, RunNext, CliNext, LoopEnabled, RunEnabled, CliEnabled, Dropped;
    match e
    case Loop(l) => LoopDrops(s, l, id);
    case Cli(c) => CliDrops(s, c, id);
    case Completion(r, c) => RunDrops(s, r, c, id);
    case _ => SameDropped(s, Next(s, e), id);
  }

  lemma RunDrops(s: State, r: RunId, e: RunStep, id: RunId)
    requires Rows(s.runs, s.reasons) && Entries(s.active, s.runs, s.reasons, s.marked, s.lost)
    requires RunEnabled(s, r, e) && Dropped(RunNext(s, r, e), id)
    ensures Dropped(s, id) && s.runs[id] == RunNext(s, r, e).runs[id]
  {
    assert r in s.runs ==> RowShape(s.runs[r], s.reasons);
    hide Rows, Reasoned;
  }

  lemma SameDropped(s: State, s': State, id: RunId)
    requires s'.runs == s.runs && Dropped(s', id)
    ensures Dropped(s, id)
  {
  }

  /** It was pending until one step of a cancellation of its job's pending runs hit it. */
  lemma {:induction false} DroppedBy(ss: seq<State>, es: seq<Step>, i: nat, id: RunId) returns (k: nat)
    requires Behaviour(ss, es) && i < |ss| && Dropped(ss[i], id)
    ensures k < i && Drops(ss[k], es[k], ss[k + 1], id) && ss[k + 1].runs[id] == ss[i].runs[id]
  {
    hide Next, Enabled, Inv, Drops;
    Reachable(ss, es, i - 1);
    StepDrops(ss[i - 1], es[i - 1], id);
    if Drops(ss[i - 1], es[i - 1], ss[i], id) {
      k := i - 1;
    } else {
      k := DroppedBy(ss, es, i - 1, id);
    }
  }

  /**
    A canceled row has one of two origins, and started_at tells which. Without it one step k, a
    cancellation of the job's pending runs, took the row from pending to what it is now; the run was
    never registered, and the row carries no message. With it, a reason had been set at the step k where the
    goroutine decided, and the message names that reason, which is also the one the run still has now.
   */
  lemma CanceledOrigin(ss: seq<State>, es: seq<Step>, i: nat, id: RunId)
    requires Behaviour(ss, es) && i < |ss| && id in ss[i].runs && ss[i].runs[id].status == Canceled
    ensures ss[i].runs[id].startedAt == None ==>
              && ss[i].runs[id].errorMessage == None && id !in ss[i].reasons
              && exists k: nat :: k < i && Drops(ss[k], es[k], ss[k + 1], id) && ss[k + 1].runs[id] == ss[i].runs[id]
    ensures ss[i].runs[id].startedAt.Some? ==>
              exists k: nat, o :: k < i && DecidedAt(ss, es, k, id, o) && ss[k].reasons[id] != NoReason
                && ss[i].runs[id].errorMessage == Some(ReasonMessage(ss[k].reasons[id]))
                && id in ss[i].reasons && ss[i].reasons[id] == ss[k].reasons[id]
  {
    hide Next, Enabled, Inv, Drops;
    Reachable(ss, es, i);
    CanceledShape(ss[i], id);
    if ss[i].runs[id].startedAt == None {
      var k := DroppedBy(ss, es, i, id);
    } else {
      var k, o := EndedBy(ss, es, i, id);
      StaysSettled(ss, es, k, i);
      Reachable(ss, es, k);
      ExecutedShape(ss[k], id);
    }
  }

  lemma CanceledShape(s: State, id: RunId)
    requires Inv(s) && id in s.runs && s.runs[id].status == Canceled
    ensures s.runs[id].startedAt == None ==> s.runs[id].errorMessage == None && id !in s.reasons
  {
  }

  lemma ExecutedShape(s: State, id: RunId)
    requires Inv(s) && id in s.active && s.active[id].phase.Executed?
    ensures s.active[id].phase.result.status == Succeeded || s.active[id].phase.result.status == Failed
  {
  }

  /**
    A succeeded or failed row: no reason had been set when its goroutine decided, and the row is the executor's result.
   */
  lemma UncanceledOrigin(ss: seq<State>, es: seq<Step>, i: nat, id: RunId)
    requires Behaviour(ss, es) && i < |ss| && id in ss[i].runs
    requires ss[i].runs[id].status == Succeeded || ss[i].runs[id].status == Failed
    ensures exists k: nat, o :: k < i && DecidedAt(ss, es, k, id, o) && ss[k].reasons[id] == NoReason
                && o == ss[k].active[id].phase.result && Holds(ss[i].runs[id], o)
  {
    hide Next, Enabled, Inv;
    Reachable(ss, es, i);
    EndedShape(ss[i], id);
    var k, o := EndedBy(ss, es, i, id);
  }

  lemma EndedShape(s: State, id: RunId)
    requires Inv(s) && id in s.runs && (s.runs[id].status == Succeeded || s.runs[id].status == Failed)
    ensures s.runs[id].startedAt.Some?
  {
  }

  // ----- the map and the table -----

  /**
    One activity per job: two active runs of a job never both lack a cancel reason, whatever its policy and however it
    changes.
   */
  lemma OneUncanceledRunPerJob(ss: seq<State>, es: seq<Step>, i: nat, a: RunId, b: RunId)
    requires Behaviour(ss, es) && i < |ss|
    requires a in ss[i].active && b in ss[i].active && a != b && ss[i].active[a].job == ss[i].active[b].job
    ensures a in ss[i].reasons && b in ss[i].reasons
    ensures ss[i].reasons[a] != NoReason || ss[i].reasons[b] != NoReason
  {
    Reachable(ss, es, i);
  }

  /**
    The map and the table agree. Forwards: the row of an active run, if the job was not deleted, is
    running until its outcome is stored and terminal afterwards. Backwards: a running row that this
    incarnation marked is active, or between MarkRunning and registration, or its MarkFinished failed.
   */
  lemma MapAgreesWithTable(ss: seq<State>, es: seq<Step>, i: nat, id: RunId)
    requires Behaviour(ss, es) && i < |ss|
    ensures var s := ss[i]; id in s.active && id in s.runs ==>
              if s.active[id].phase.Persisted? || s.active[id].phase.Summarised? || s.active[id].phase == Done(true)
              then s.runs[id].status.Terminal() else s.runs[id].status == Running
    ensures var s := ss[i]; id in s.marked && id in s.runs && s.runs[id].status == Running && s.pc != Stopped(false) ==>
              id in s.active || id in s.lost || (At(s.pc, Register) && s.pc.run.id == id)
    ensures ss[i].waitGroup >= |ss[i].active|
  {
    Reachable(ss, es, i);
    hide Rows, Starts, OneUnreasoned, Snapshots, Clearing, Registering;
  }

  /**
    When Run has returned, nothing is active and every run it marked is terminal, deleted, or lost to a failed
    MarkFinished.
   */
  lemma ReturnedMeansDrained(ss: seq<State>, es: seq<Step>, i: nat)
    requires Behaviour(ss, es) && i < |ss| && ss[i].pc == Stopped(true)
    ensures ss[i].active == map[] && ss[i].waitGroup == 0
    ensures forall id <- ss[i].marked :: id in ss[i].runs ==> ss[i].runs[id].status.Terminal() || id in ss[i].lost
  {
    Reachable(ss, es, i);
    hide Rows, Starts, OneUnreasoned, Snapshots, Clearing, Registering;
  }
}
