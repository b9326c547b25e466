/** Exactly when the runs of a job start in (queued_at, id) order, whatever its policy. */
module QueueOrder {
  import opened Domain
  import opened Protocol
  import opened Safety
  import opened Order
  import RunLife
  import R = RunsStore
  import J = JobsStore

  /** The job's started runs are in order; they and a claimed run in hand precede every claimable row of the job. */
  ghost predicate InOrder(s: State, job: JobId) {
    Ordered(s.starts, s.runs, job) && InHand(s.pc, s.starts, s.runs, job)
  }

  /** No run of the job that was started, or is claimed and in hand, was queued later. */
  predicate BehindStarted(s: State, at: Second, job: JobId) {
    && (forall i :: 0 <= i < |s.starts| && s.starts[i].jobId == job ==> s.starts[i].queuedAt <= at)
    && (Taken(s.pc) && s.pc.run.jobId == job ==> s.pc.run.queuedAt <= at)
  }

  /** No claimable row of the job comes before the run in hand. */
  ghost predicate Foremost(s: State, job: JobId)
    requires s.pc.Handling?
  {
    forall id <- s.runs | R.Claimable(s.runs, id) && s.runs[id].jobId == job && id != s.pc.run.id ::
      R.Before(s.pc.run, s.runs[id])
  }

  /** What keeps the order: a claim takes the foremost row, and an insert goes behind what has started. */
  ghost predicate Guard(s: State, e: Step, job: JobId) {
    match e
    case Loop(TryClaim(ok)) =>
      s.pc.Handling? && (ok && R.Claimable(s.runs, s.pc.run.id) && s.pc.run.jobId == job ==> Foremost(s, job))
    case Loop(InsertDue(inserted, _)) => s.pc.DueInsert?
      && (inserted && s.pc.job.id == job ==> BehindStarted(s, s.pc.now, job))
    case Cli(InsertManual(j, at)) => j == job ==> BehindStarted(s, at, job)
    case Cli(RunJob(j)) =>
      j == job && job in s.jobs && !(s.jobs[job].policy == Forbid && R.HasUnfinished(s.runs, job)) ==>
        BehindStarted(s, s.clock, job)
    case _ => true
  }

  /** What the order needs of the general invariant: rows read earlier and started runs have older ids. */
  ghost predicate Known(s: State) {
    && R.Keyed(s.runs) && Snapshots(s.pc, s.runs, s.nextRun)
    && (forall id <- s.runs :: id < s.nextRun)
    && (forall i :: 0 <= i < |s.starts| ==> s.starts[i].id < s.nextRun)
  }

  lemma InvKnows(s: State)
    requires Inv(s)
    ensures Known(s)
  {
    hide Rows, Entries, OneUnreasoned, Registering, Accounted, Clearing;
  }

  lemma InKnown(s: State)
    requires Known(s)
    ensures R.Keyed(s.runs) && Snapshots(s.pc, s.runs, s.nextRun)
  {
  }

  // ----- one step -----

  lemma NarrowInOrder(s: State, runs: R.Table, job: JobId)
    requires InOrder(s, job) && Narrows(s.runs, runs)
    ensures InOrder(s.(runs := runs), job)
  {
  }

  lemma InsertInOrderIff(s: State, to: JobId, scheduledFor: Option<Second>, at: Second, job: JobId)
    requires InOrder(s, job) && Known(s)
    ensures InOrder(s.(runs := R.Inserted(s.runs, s.nextRun, to, scheduledFor, at), nextRun := s.nextRun + 1), job)
            <==> (to == job ==> BehindStarted(s, at, job))
  {
    var runs' := R.Inserted(s.runs, s.nextRun, to, scheduledFor, at);
    assert R.Claimable(runs', s.nextRun) && runs'[s.nextRun].jobId == to && runs'[s.nextRun].queuedAt == at;
    assert forall id :: R.Claimable(runs', id) && id != s.nextRun ==>
      R.Claimable(s.runs, id) && runs'[id] == s.runs[id];
    if to == job && InOrder(s.(runs := runs', nextRun := s.nextRun + 1), job) {
      forall i | 0 <= i < |s.starts| && s.starts[i].jobId == job ensures s.starts[i].queuedAt <= at {
        assert First(s.starts[i], runs', job);
        assert R.Before(s.starts[i], runs'[s.nextRun]);
      }
    }
  }

  /** A move that does not bring a run in hand. */
  lemma MoveInOrder(s: State, pc: Pc, job: JobId)
    requires InOrder(s, job) && !Taken(pc)
    ensures InOrder(s.(pc := pc), job)
  {
  }

  lemma ClaimInOrderIff(s: State, ok: bool, job: JobId)
    requires InOrder(s, job) && Known(s) && At(s.pc, Claim)
    ensures InOrder(TryClaimNext(s, ok), job) <==> Guard(s, Loop(TryClaim(ok)), job)
  {
    hide Ordered, First, Foremost, InHand, R.Claimed, R.Claimable, Narrows, Known;
    var s' := TryClaimNext(s, ok);
    if ok && R.Claimable(s.runs, s.pc.run.id) {
      InKnown(s);
      ClaimNarrows(s.runs, s.pc.run.id, s.runner, s.clock);
      NarrowInOrder(s, s'.runs, job);
      if s.pc.run.jobId == job {
        ClaimAfterStarts(s, job);
        FirstIffForemost(s, job);
      }
      MarkInHand(s.pc, s.starts, s'.runs, job);
    } else {
      MoveInOrder(s, s'.pc, job);
    }
  }

  lemma MarkInHand(pc: Pc, starts: seq<Run>, runs: R.Table, job: JobId)
    requires At(pc, Claim)
    ensures pc.run.jobId != job ==> InHand(pc.(stage := Mark), starts, runs, job)
    ensures (forall i :: 0 <= i < |starts| && starts[i].jobId == job ==> R.Before(starts[i], pc.run)) ==>
      pc.run.jobId == job ==> (InHand(pc.(stage := Mark), starts, runs, job) <==> First(pc.run, runs, job))
  {
    hide First, R.Before;
  }

  /** Once it is claimed, the run in hand precedes the rows left exactly when it was the foremost. */
  lemma FirstIffForemost(s: State, job: JobId)
    requires Known(s) && At(s.pc, Claim) && s.pc.run.jobId == job && R.Claimable(s.runs, s.pc.run.id)
    ensures First(s.pc.run, R.Claimed(s.runs, s.pc.run.id, s.runner), job) <==> Foremost(s, job)
  {
    var run := s.pc.run;
    var runs' := R.Claimed(s.runs, run.id, s.runner);
    assert forall id :: R.Claimable(runs', id) <==> R.Claimable(s.runs, id) && id != run.id;
    assert forall id :: R.Claimable(runs', id) ==> runs'[id] == s.runs[id];
    hide R.Claimable, R.Claimed, R.Before;
  }

  lemma RegisterInOrder(s: State, job: JobId)
    requires InOrder(s, job) && At(s.pc, Register)
    ensures InOrder(RegisterNext(s), job)
  {
  }

  lemma MarkInOrder(s: State, ok: bool, job: JobId)
    requires InOrder(s, job) && Known(s) && At(s.pc, Mark)
    ensures InOrder(MarkRunningNext(s, ok), job)
  {
    var s' := MarkRunningNext(s, ok);
    assert Narrows(s.runs, s'.runs);
    NarrowInOrder(s, s'.runs, job);
  }

  lemma PolicyInOrder(s: State, ok: bool, job: JobId)
    requires InOrder(s, job) && s.pc.DueNext? && s.pc.due != []
    ensures InOrder(ApplyPolicyNext(s, ok), job)
  {
    hide R.PendingCanceled, R.HasUnfinished, Narrows, InOrder;
    var s' := ApplyPolicyNext(s, ok);
    CancelNarrows(s.runs, s.pc.due[0].id, s.pc.now);
    NarrowInOrder(s, s'.runs, job);
    MoveInOrder(s.(runs := s'.runs), s'.pc, job);
  }

  lemma InsertDueInOrderIff(s: State, inserted: bool, ok: bool, job: JobId)
    requires InOrder(s, job) && Known(s) && s.pc.DueInsert?
    ensures InOrder(InsertDueNext(s, inserted, ok), job) <==> Guard(s, Loop(InsertDue(inserted, ok)), job)
  {
    var s' := InsertDueNext(s, inserted, ok);
    if inserted { InsertInOrderIff(s, s.pc.job.id, s.pc.job.nextRunAt, s.pc.now, job); }
  }

  lemma OtherInOrder(s: State, e: LoopStep, job: JobId)
    requires InOrder(s, job) && LoopEnabled(s, e)
    requires OnlyMoves(e) || e.AdvanceDue? || e.CancelHandle?
    ensures InOrder(LoopNext(s, e), job)
  {
    hide R.IsPage, J.IsDueList, J.Updated, J.NextRunUpdated, HasActive, Handles, SetReason, Ordered, InHand;
    MoveInOrder(s, LoopNext(s, e).pc, job);
  }

  lemma LoopInOrderIff(s: State, e: LoopStep, job: JobId)
    requires InOrder(s, job) && Known(s) && LoopEnabled(s, e)
    ensures InOrder(LoopNext(s, e), job) <==> Guard(s, Loop(e), job)
  {
    hide InOrder, Known, Foremost, BehindStarted;
    hide Moved, ApplyPolicyNext, InsertDueNext, AdvanceDueNext, CancelHandleNext, TryClaimNext, MarkRunningNext;
    hide RegisterNext;
    match e
    case TryClaim(ok) => ClaimInOrderIff(s, ok, job);
    case MarkRunning(ok) => MarkInOrder(s, ok, job);
    case RegisterActive => RegisterInOrder(s, job);
    case ApplyPolicy(ok) => PolicyInOrder(s, ok, job);
    case InsertDue(inserted, ok) => InsertDueInOrderIff(s, inserted, ok, job);
    case _ => OtherInOrder(s, e, job);
  }

  lemma RunInOrder(s: State, id: RunId, e: RunStep, job: JobId)
    requires InOrder(s, job) && Known(s) && RunEnabled(s, id, e)
    requires s.active[id].phase.Decided? ==> s.active[id].phase.final.status.Terminal()
    ensures InOrder(RunNext(s, id, e), job)
  {
    hide Ordered, InHand;
    var s' := RunNext(s, id, e);
    assert Narrows(s.runs, s'.runs);
    NarrowInOrder(s, s'.runs, job);
  }

  lemma CanceledKnown(s: State, j: JobId, at: Second, job: JobId)
    requires InOrder(s, job) && Known(s)
    ensures var canceled := s.(runs := R.PendingCanceled(s.runs, j, at));
      InOrder(canceled, job) && Known(canceled)
  {
    CancelNarrows(s.runs, j, at);
    NarrowInOrder(s, R.PendingCanceled(s.runs, j, at), job);
    hide InOrder, Narrows;
  }

  lemma RunJobInOrderIff(s: State, j: JobId, job: JobId)
    requires InOrder(s, job) && Known(s) && j in s.jobs
    ensures InOrder(CliNext(s, RunJob(j)), job) <==> Guard(s, Cli(RunJob(j)), job)
  {
    hide InOrder, R.PendingCanceled, R.Inserted, R.HasUnfinished, Known;
    var canceled := s.(runs := R.PendingCanceled(s.runs, j, s.clock));
    CanceledKnown(s, j, s.clock, job);
    InsertInOrderIff(s, j, None, s.clock, job);
    InsertInOrderIff(canceled, j, None, s.clock, job);
    assert BehindStarted(canceled, s.clock, job) == BehindStarted(s, s.clock, job);
    hide BehindStarted;
  }

  lemma CliInOrderIff(s: State, e: CliStep, job: JobId)
    requires InOrder(s, job) && Known(s) && CliEnabled(s, e)
    ensures InOrder(CliNext(s, e), job) <==> Guard(s, Cli(e), job)
  {
    match e
    case RunJob(j) => hide InOrder, CliNext; RunJobInOrderIff(s, j, job);
    case InsertManual(j, at) => hide InOrder; InsertInOrderIff(s, j, None, at, job);
    case AddJob(_) =>
    case WriteJob(_) =>
    case _ =>
      assert Narrows(s.runs, CliNext(s, e).runs);
      NarrowInOrder(s, CliNext(s, e).runs, job);
  }

  /** A step keeps the order exactly when its guard holds. */
  lemma StepIff(s: State, e: Step, job: JobId)
    requires Inv(s) && Enabled(s, e) && InOrder(s, job)
    ensures InOrder(Next(s, e), job) <==> Guard(s, e, job)
  {
    InvKnows(s);
    DecidedTerminal(s);
    hide Inv, LoopNext, CliNext, RunNext, LoopEnabled, CliEnabled, RunEnabled, Known;
    match e
    case Loop(l) => hide InOrder, Guard; LoopInOrderIff(s, l, job);
    case Completion(id, r) => hide InOrder; RunInOrder(s, id, r, job);
    case Cli(c) => hide InOrder, Guard; CliInOrderIff(s, c, job);
    case Start => hide InOrder; MoveInOrder(s, Waiting, job);
    case Crash => hide InOrder; MoveInOrder(s, Stopped(false), job);
    case _ =>
  }

  lemma DecidedTerminal(s: State)
    requires Inv(s)
    ensures forall a <- s.active :: s.active[a].phase.Decided? ==> s.active[a].phase.final.status.Terminal()
  {
    hide Ids, Rows, Starts, OneUnreasoned, Snapshots, Registering, Accounted, Clearing;
  }

  // ----- whole histories -----

  /** The order has held in every state so far exactly when every step so far met its guard. */
  lemma {:induction false} OrderKeptIff(ss: seq<State>, es: seq<Step>, i: nat, job: JobId)
    requires Behaviour(ss, es) && i < |ss|
    ensures (forall k :: 0 <= k <= i ==> InOrder(ss[k], job)) <==> (forall k :: 0 <= k < i ==> Guard(ss[k], es[k], job))
  {
    hide Inv, Next, Enabled, Guard;
    if i == 0 {
    } else {
      hide InOrder;
      OrderKeptIff(ss, es, i - 1, job);
      Reachable(ss, es, i - 1);
      if forall k :: 0 <= k < i ==> Guard(ss[k], es[k], job) {
        StepIff(ss[i - 1], es[i - 1], job);
      }
      if forall k :: 0 <= k <= i ==> InOrder(ss[k], job) {
        assert InOrder(ss[i - 1], job) && InOrder(ss[i], job);
        StepIff(ss[i - 1], es[i - 1], job);
      }
    }
  }

  /** Then earlier started is earlier queued, for any policy, any claim limits, and across restarts. */
  lemma GuardedStartsInOrder(ss: seq<State>, es: seq<Step>, i: nat, job: JobId, a: nat, b: nat)
    requires Behaviour(ss, es) && i < |ss| && forall k :: 0 <= k < i ==> Guard(ss[k], es[k], job)
    requires a < b < |ss[i].starts| && ss[i].starts[a].jobId == job && ss[i].starts[b].jobId == job
    ensures R.Before(ss[i].starts[a], ss[i].starts[b])
  {
    hide Guard, Next, Enabled;
    OrderKeptIff(ss, es, i, job);
  }

  // ----- the guard of a claim, within a pass -----

  /** A run enqueued meanwhile is not queued before a listed one. */
  predicate BehindPage(page: seq<Run>, s: State, e: Step, job: JobId) {
    match e
    case Cli(InsertManual(j, at)) => j == job ==> forall i :: 0 <= i < |page| && page[i].jobId == job ==>
      page[i].queuedAt <= at
    case Cli(RunJob(j)) => j == job ==> forall i :: 0 <= i < |page| && page[i].jobId == job ==>
      page[i].queuedAt <= s.clock
    case _ => true
  }

  /** The whole page, not only what is left of it, still covers the job's queue. */
  ghost predicate PageCovers(page: seq<Run>, s: State, job: JobId) {
    && Sorted(page) && Covers(page, s.runs, job)
    && (forall i :: 0 <= i < |page| ==> Snapshot(page[i], s.runs, s.nextRun))
  }

  /** Where the pass is in its page. */
  predicate Position(page: seq<Run>, pc: Pc, c: nat) {
    c <= |page| && Ahead(pc) == page[c..]
  }

  lemma ListedCovers(s: State, limit: nat, page: seq<Run>, job: JobId)
    requires Known(s) && R.IsPage(s.runs, limit, page)
    ensures PageCovers(page, s, job)
  {
    forall id, i | R.Claimable(s.runs, id) && s.runs[id].jobId == job && !Lists(page, id) && 0 <= i < |page|
      && page[i].jobId == job
      ensures R.Before(page[i], s.runs[id])
    {
      assert forall k :: 0 <= k < |page| ==> page[k].id != id;
    }
  }

  lemma NarrowCovers(page: seq<Run>, s: State, runs: R.Table, job: JobId)
    requires PageCovers(page, s, job) && Narrows(s.runs, runs)
    ensures PageCovers(page, s.(runs := runs), job)
  {
  }

  lemma InsertCovers(page: seq<Run>, s: State, to: JobId, scheduledFor: Option<Second>, at: Second, job: JobId)
    requires PageCovers(page, s, job)
    requires to == job ==> forall i :: 0 <= i < |page| && page[i].jobId == job ==> page[i].queuedAt <= at
    ensures PageCovers(page, s.(runs := R.Inserted(s.runs, s.nextRun, to, scheduledFor, at), nextRun := s.nextRun + 1),
      job)
  {
  }

  lemma ClaimNarrows(runs: R.Table, id: RunId, runner: nat, at: Second)
    requires R.Keyed(runs)
    ensures Narrows(runs, runs) && Narrows(runs, R.Claimed(runs, id, runner)) && Narrows(runs, R.Started(runs, id, at))
  {
  }

  lemma LoopCovers(page: seq<Run>, s: State, e: LoopStep, job: JobId)
    requires Known(s) && LoopEnabled(s, e) && InPass(s.pc) && PageCovers(page, s, job)
    ensures PageCovers(page, LoopNext(s, e), job)
  {
    hide PageCovers, Moved, Narrows, R.Claimed, R.Started;
    var s' := LoopNext(s, e);
    NextRunKept(s, e);
    if e.TryClaim? || e.MarkRunning? {
      ClaimNarrows(s.runs, s.pc.run.id, s.runner, s.clock);
      NarrowCovers(page, s, s'.runs, job);
      SameCover(page, s.(runs := s'.runs), s', job);
    } else {
      RunLife.LoopRuns(s, e);
      SameCover(page, s, s', job);
    }
  }

  lemma NextRunKept(s: State, e: LoopStep)
    requires LoopEnabled(s, e) && InPass(s.pc)
    ensures LoopNext(s, e).nextRun == s.nextRun
  {
    hide Moved;
  }

  lemma CliCovers(page: seq<Run>, s: State, e: CliStep, job: JobId)
    requires Known(s) && CliEnabled(s, e) && PageCovers(page, s, job) && BehindPage(page, s, Cli(e), job)
    ensures PageCovers(page, CliNext(s, e), job)
  {
    match e
    case RunJob(j) =>
      var canceled := s.(runs := R.PendingCanceled(s.runs, j, s.clock));
      CancelNarrows(s.runs, j, s.clock);
      NarrowCovers(page, s, canceled.runs, job);
      InsertCovers(page, s, j, None, s.clock, job);
      InsertCovers(page, canceled, j, None, s.clock, job);
      hide PageCovers;
    case InsertManual(j, at) => hide PageCovers; InsertCovers(page, s, j, None, at, job);
    case DeleteJob(j) => hide PageCovers; RemovalNarrows(s.runs, j); RowsCover(page, s, CliNext(s, e), job);
    case CancelPending(j, at) => hide PageCovers; CancelNarrows(s.runs, j, at); RowsCover(page, s, CliNext(s, e), job);
    case _ => hide PageCovers; SameCover(page, s, CliNext(s, e), job);
  }

  lemma RemovalNarrows(runs: R.Table, j: JobId)
    requires R.Keyed(runs)
    ensures Narrows(runs, R.JobRemoved(runs, j))
  {
  }

  lemma RowsCover(page: seq<Run>, s: State, s': State, job: JobId)
    requires PageCovers(page, s, job) && Narrows(s.runs, s'.runs) && s'.nextRun == s.nextRun
    ensures PageCovers(page, s', job)
  {
    hide PageCovers, Narrows;
    NarrowCovers(page, s, s'.runs, job);
    SameCover(page, s.(runs := s'.runs), s', job);
  }

  lemma RunCovers(page: seq<Run>, s: State, id: RunId, e: RunStep, job: JobId)
    requires Known(s) && RunEnabled(s, id, e) && PageCovers(page, s, job)
    requires s.active[id].phase.Decided? ==> s.active[id].phase.final.status.Terminal()
    ensures PageCovers(page, RunNext(s, id, e), job)
  {
    hide PageCovers;
    var s' := RunNext(s, id, e);
    assert Narrows(s.runs, s'.runs);
    NarrowCovers(page, s, s'.runs, job);
    SameCover(page, s.(runs := s'.runs), s', job);
  }

  lemma SameCover(page: seq<Run>, s: State, s': State, job: JobId)
    requires PageCovers(page, s, job) && s'.runs == s.runs && s'.nextRun == s.nextRun
    ensures PageCovers(page, s', job)
  {
  }

  lemma StepCovers(page: seq<Run>, s: State, e: Step, job: JobId)
    requires Inv(s) && Enabled(s, e) && InPass(s.pc) && PageCovers(page, s, job) && BehindPage(page, s, e, job)
    ensures PageCovers(page, Next(s, e), job)
  {
    InvKnows(s);
    DecidedTerminal(s);
    hide Inv, LoopNext, CliNext, RunNext, LoopEnabled, CliEnabled, RunEnabled, Known, PageCovers, BehindPage;
    match e
    case Loop(l) => LoopCovers(page, s, l, job);
    case Completion(id, r) => RunCovers(page, s, id, r, job);
    case Cli(c) => CliCovers(page, s, c, job);
    case _ => SameCover(page, s, Next(s, e), job);
  }

  /** A step inside a pass stays where it is in the page, or goes one row on. */
  lemma StepPosition(page: seq<Run>, s: State, e: Step, c: nat)
    requires Enabled(s, e) && InPass(s.pc) && InPass(Next(s, e).pc) && Position(page, s.pc, c)
    ensures Position(page, Next(s, e).pc, c) || Position(page, Next(s, e).pc, c + 1)
  {
    if e.Loop? {
      LoopPosition(page, s, e.loop, c);
    } else {
      hide LoopNext;
      if e.Cli? {
        hide CliNext;
        RunLife.CliFrame(s, e.cli);
      }
    }
  }

  lemma LoopPosition(page: seq<Run>, s: State, e: LoopStep, c: nat)
    requires LoopEnabled(s, e) && InPass(s.pc) && InPass(LoopNext(s, e).pc) && Position(page, s.pc, c)
    ensures Position(page, LoopNext(s, e).pc, c) || Position(page, LoopNext(s, e).pc, c + 1)
  {
    if OnlyMoves(e) {
      MovePosition(page, s, e, c);
    } else {
      hide Moved, Position, TryClaimNext, MarkRunningNext, RegisterNext, CancelHandleNext;
      match e
      case TryClaim(ok) => ChangePosition(page, s, ok, 0, c);
      case MarkRunning(ok) => ChangePosition(page, s, ok, 0, c);
      case RegisterActive => ChangePosition(page, s, false, 0, c);
      case CancelHandle(id) => ChangePosition(page, s, false, id, c);
    }
  }

  lemma MovePosition(page: seq<Run>, s: State, e: LoopStep, c: nat)
    requires LoopEnabled(s, e) && OnlyMoves(e) && InPass(s.pc) && InPass(Moved(s, e)) && Position(page, s.pc, c)
    ensures Position(page, Moved(s, e), c) || Position(page, Moved(s, e), c + 1)
  {
    hide R.IsPage, J.IsDueList, HasActive, Handles;
    NextPosition(page, s.pc, c);
  }

  lemma ChangePosition(page: seq<Run>, s: State, ok: bool, id: RunId, c: nat)
    requires InPass(s.pc) && Position(page, s.pc, c)
    ensures At(s.pc, Claim) ==> Position(page, TryClaimNext(s, ok).pc, c + 1)
    ensures At(s.pc, Mark) ==> Position(page, MarkRunningNext(s, ok).pc, c)
    ensures At(s.pc, Register) ==> Position(page, RegisterNext(s).pc, c)
    ensures Canceling(s.pc) ==> Position(page, CancelHandleNext(s, id).pc, c)
  {
    hide R.Claimed, R.Started, R.Claimable, SetReason;
    NextPosition(page, s.pc, c);
  }

  lemma NextPosition(page: seq<Run>, pc: Pc, c: nat)
    requires InPass(pc) && Position(page, pc, c)
    ensures pc.Pass? && pc.rest != [] ==> [pc.rest[0]] + pc.rest[1..] == page[c..]
    ensures pc.Handling? && !Taken(pc) ==> c < |page| && pc.rest == page[c + 1..]
    ensures c < |page| ==> page[c..][1..] == page[c + 1..]
  {
    if pc.Handling? && !Taken(pc) { assert ([pc.run] + pc.rest)[1..] == pc.rest; }
  }

  /** Step m lists the page, and up to n the loop stays in that pass. */
  ghost predicate InPassOf(ss: seq<State>, es: seq<Step>, m: nat, n: nat, page: seq<Run>)
    requires Behaviour(ss, es)
  {
    && m < n < |ss| && es[m].Loop? && es[m].loop.ListPending? && es[m].loop.page == Some(page)
    && forall k :: m < k <= n ==> InPass(ss[k].pc)
  }

  lemma {:induction false} PassCovers(ss: seq<State>, es: seq<Step>, m: nat, n: nat, page: seq<Run>, job: JobId)
    returns (c: nat)
    requires Behaviour(ss, es) && InPassOf(ss, es, m, n, page)
    requires forall k :: m < k < n ==> BehindPage(page, ss[k], es[k], job)
    ensures PageCovers(page, ss[n], job) && Position(page, ss[n].pc, c)
  {
    hide Inv, Next, Enabled, BehindPage, PageCovers, Position, InPass;
    if n == m + 1 {
      c := PassBegins(ss, es, m, page, job);
    } else {
      c := PassCovers(ss, es, m, n - 1, page, job);
      Reachable(ss, es, n - 1);
      StepCovers(page, ss[n - 1], es[n - 1], job);
      assert Enabled(ss[n - 1], es[n - 1]) && ss[n - 1 + 1] == Next(ss[n - 1], es[n - 1]);
      StepPosition(page, ss[n - 1], es[n - 1], c);
      if !Position(page, ss[n].pc, c) { c := c + 1; }
    }
  }

  lemma PassBegins(ss: seq<State>, es: seq<Step>, m: nat, page: seq<Run>, job: JobId) returns (c: nat)
    requires Behaviour(ss, es) && m < |es| && es[m].Loop? && es[m].loop.ListPending? && es[m].loop.page == Some(page)
    ensures PageCovers(page, ss[m + 1], job) && Position(page, ss[m + 1].pc, c)
  {
    hide Inv, Moved;
    Reachable(ss, es, m);
    InvKnows(ss[m]);
    assert Enabled(ss[m], es[m]) && ss[m + 1] == LoopNext(ss[m], es[m].loop);
    PassMoves(ss[m], es[m].loop);
    hide Known, PageCovers, R.IsPage;
    ListedCovers(ss[m], es[m].loop.limit, page, job);
    SameCover(page, ss[m], ss[m + 1], job);
    c := 0;
  }

  lemma PassMoves(s: State, e: LoopStep)
    requires LoopEnabled(s, e) && e.ListPending? && e.page.Some?
    ensures LoopNext(s, e) == s.(pc := Pass(e.page.value))
  {
  }

  /**
    In a pass, a claim keeps the order if and only if no earlier row of the page is a still claimable one
    of the same job.
   */
  lemma ClaimKeepsOrderIff(ss: seq<State>, es: seq<Step>, m: nat, n: nat, page: seq<Run>, job: JobId) returns (c: nat)
    requires Behaviour(ss, es) && InPassOf(ss, es, m, n, page) && n < |es|
    requires forall k :: m < k < n ==> BehindPage(page, ss[k], es[k], job)
    requires es[n] == Loop(TryClaim(true)) && R.Claimable(ss[n].runs, ss[n].pc.run.id) && ss[n].pc.run.jobId == job
    requires InOrder(ss[n], job)
    ensures c < |page| && ss[n].pc.run == page[c]
    ensures InOrder(ss[n + 1], job) <==>
      forall j :: 0 <= j < c && page[j].jobId == job ==> !R.Claimable(ss[n].runs, page[j].id)
  {
    c := PassCovers(ss, es, m, n, page, job);
    Reachable(ss, es, n);
    hide InOrder, Inv;
    StepIff(ss[n], es[n], job);
    assert At(ss[n].pc, Claim) by { assert Enabled(ss[n], es[n]); }
    hide Next, Enabled;
    assert ss[n].pc.run == page[c..][0];
    InvKnows(ss[n]);
    ForemostIff(page, ss[n], c, job);
  }

  lemma ForemostIff(page: seq<Run>, s: State, c: nat, job: JobId)
    requires Known(s) && PageCovers(page, s, job) && At(s.pc, Claim) && c < |page| && s.pc.run == page[c]
      && page[c].jobId == job
    ensures Foremost(s, job) <==> forall j :: 0 <= j < c && page[j].jobId == job ==> !R.Claimable(s.runs, page[j].id)
  {
    if Foremost(s, job) {
      forall j | 0 <= j < c && page[j].jobId == job ensures !R.Claimable(s.runs, page[j].id) {
        assert R.Before(page[j], page[c]);
      }
    }
    if forall j :: 0 <= j < c && page[j].jobId == job ==> !R.Claimable(s.runs, page[j].id) {
      forall id <- s.runs | R.Claimable(s.runs, id) && s.runs[id].jobId == job && id != s.pc.run.id
        ensures R.Before(s.pc.run, s.runs[id])
      {
        if Lists(page, id) {
          var j :| 0 <= j < |page| && page[j].id == id;
          assert j > c ==> R.Before(page[c], page[j]);
        }
      }
    }
  }

  // ----- the guard of an insert -----

  /** A manual run keeps the order if and only if no started run of its job, or one in hand, was queued later. */
  lemma ManualKeepsOrderIff(ss: seq<State>, es: seq<Step>, i: nat, job: JobId, at: Second)
    requires Behaviour(ss, es) && i < |es| && es[i] == Cli(InsertManual(job, at)) && InOrder(ss[i], job)
    ensures InOrder(ss[i + 1], job) <==> BehindStarted(ss[i], at, job)
  {
    hide InOrder, Inv, Next, Enabled, BehindStarted;
    Reachable(ss, es, i);
    StepIff(ss[i], es[i], job);
  }
}
