/** What forbid and replace promise about the queue, when the policy check and its insert are one step. */
module PolicyLimits {
  import opened Domain
  import opened Protocol
  import opened Safety
  import RunLife
  import opened Summary
  import Exclusion
  import R = RunsStore

  predicate Under(s: State, job: JobId, policy: Policy) {
    job in s.jobs ==> s.jobs[job].policy == policy
  }

  /** Nobody else enqueues a run of the job without the check, or between the loop's check and its insert. */
  predicate Atomic(s: State, e: Step, job: JobId) {
    match e
    case Cli(InsertManual(to, _)) => to != job
    case Cli(RunJob(to)) => to == job ==> !(s.pc.DueInsert? && s.pc.job.id == job)
    case _ => true
  }

  /** The due pass's copies of the job carry the same policy. */
  ghost predicate DueUnder(pc: Pc, job: JobId, policy: Policy) {
    && (pc.DueNext? || pc.DueInsert? || pc.DueAdvance? ==>
          forall i :: 0 <= i < |pc.due| ==> pc.due[i].id == job ==> pc.due[i].policy == policy)
    && (pc.DueInsert? ==> pc.job.id == job ==> pc.job.policy == policy)
  }

  ghost predicate OneUnfinished(runs: R.Table, job: JobId) {
    forall a <- runs, b <- runs | runs[a].jobId == job && runs[b].jobId == job
                                  && runs[a].status.Unfinished() && runs[b].status.Unfinished() :: a == b
  }

  /** A pending row of the job is its last row. */
  ghost predicate PendingLast(runs: R.Table, job: JobId) {
    forall a <- runs, b <- runs | runs[a].jobId == job && runs[b].jobId == job && runs[a].status == Pending :: b <= a
  }

  ghost predicate NonePending(runs: R.Table, job: JobId) {
    forall a <- runs | runs[a].jobId == job :: runs[a].status != Pending
  }

  /** The table's part of the promise, and what the loop has established before its insert. */
  ghost predicate Promise(pc: Pc, runs: R.Table, job: JobId, policy: Policy) {
    && DueUnder(pc, job, policy)
    && (policy == Forbid ==>
      OneUnfinished(runs, job) && (pc.DueInsert? && pc.job.id == job ==> !R.HasUnfinished(runs, job)))
    && (policy == Replace ==> PendingLast(runs, job) && (pc.DueInsert? && pc.job.id == job ==> NonePending(runs, job)))
  }

  // ----- tables -----

  /** Statements that create no unfinished row and make none pending. */
  ghost predicate Settles(runs: R.Table, runs': R.Table, job: JobId) {
    forall id <- runs' ::
      && id in runs && runs'[id].jobId == runs[id].jobId
      && (runs[id].jobId == job ==> (runs'[id].status.Unfinished() ==> runs[id].status.Unfinished())
                                    && (runs'[id].status == Pending ==> runs[id].status == Pending))
  }

  lemma SettlesKeeps(pc: Pc, runs: R.Table, runs': R.Table, job: JobId, policy: Policy)
    requires Promise(pc, runs, job, policy) && Settles(runs, runs', job)
    ensures Promise(pc, runs', job, policy)
  {
  }

  lemma InsertKeepsPromise(s: State, to: JobId, scheduledFor: Option<Second>, at: Second, job: JobId, policy: Policy)
    requires Promise(s.pc, s.runs, job, policy) && RunLife.FreshIds(s)
    requires to == job ==> !(s.pc.DueInsert? && s.pc.job.id == job)
    requires to == job && policy == Forbid ==> !R.HasUnfinished(s.runs, job)
    requires to == job && policy == Replace ==> NonePending(s.runs, job)
    ensures Promise(s.pc, R.Inserted(s.runs, s.nextRun, to, scheduledFor, at), job, policy)
  {
  }

  lemma CancelNonePending(runs: R.Table, job: JobId, at: Second)
    ensures NonePending(R.PendingCanceled(runs, job, at), job)
  {
  }

  lemma CancelSettles(runs: R.Table, j: JobId, at: Second, job: JobId)
    ensures Settles(runs, R.PendingCanceled(runs, j, at), job) && Settles(runs, runs, job)
  {
  }

  // ----- steps -----

  /** A move of the loop that is not onto the job's own insert. */
  lemma MovePromise(s: State, pc: Pc, job: JobId, policy: Policy)
    requires Promise(s.pc, s.runs, job, policy) && DueUnder(pc, job, policy)
    requires !(pc.DueInsert? && pc.job.id == job)
    ensures Promise(pc, s.runs, job, policy)
  {
  }

  lemma PolicyPromise(s: State, ok: bool, job: JobId, policy: Policy)
    requires s.pc.DueNext? && s.pc.due != [] && Promise(s.pc, s.runs, job, policy) && policy != Queue
    ensures var s' := ApplyPolicyNext(s, ok); Promise(s'.pc, s'.runs, job, policy)
  {
    hide OneUnfinished, PendingLast, NonePending, Settles;
    var s' := ApplyPolicyNext(s, ok);
    var head := s.pc.due[0].id;
    CancelSettles(s.runs, head, s.pc.now, job);
    CancelNonePending(s.runs, head, s.pc.now);
    SettlesKeeps(s.pc, s.runs, s'.runs, job, policy);
  }

  lemma InsertDuePromise(s: State, inserted: bool, ok: bool, job: JobId, policy: Policy)
    requires s.pc.DueInsert? && Promise(s.pc, s.runs, job, policy) && RunLife.FreshIds(s)
    ensures var s' := InsertDueNext(s, inserted, ok); Promise(s'.pc, s'.runs, job, policy)
  {
    var s' := InsertDueNext(s, inserted, ok);
    var s1 := s.(pc := s'.pc);
    MovePromise(s, s'.pc, job, policy);
    InsertKeepsPromise(s1, s.pc.job.id, s.pc.job.nextRunAt, s.pc.now, job, policy);
    hide OneUnfinished, PendingLast, NonePending;
  }

  lemma RowPromise(s: State, runs: R.Table, pc: Pc, job: JobId, policy: Policy)
    requires Promise(s.pc, s.runs, job, policy) && Settles(s.runs, runs, job) && !pc.DueNext? && !pc.DueInsert?
      && !pc.DueAdvance?
    ensures Promise(pc, runs, job, policy)
  {
  }

  lemma ListDuePromise(s: State, e: LoopStep, job: JobId, policy: Policy)
    requires LoopEnabled(s, e) && (e.ListDue? || e.DueDone? || e.AdvanceDue?) && Under(s, job, policy)
    requires Promise(s.pc, s.runs, job, policy)
    ensures var s' := LoopNext(s, e); Promise(s'.pc, s'.runs, job, policy)
  {
    var s' := LoopNext(s, e);
    MovePromise(s, s'.pc, job, policy);
  }

  lemma ClaimSettles(runs: R.Table, id: RunId, runner: nat, at: Second, job: JobId)
    ensures Settles(runs, R.Claimed(runs, id, runner), job) && Settles(runs, R.Started(runs, id, at), job)
  {
  }

  lemma ClaimRuns(s: State, e: LoopStep)
    requires LoopEnabled(s, e) && (e.TryClaim? || e.MarkRunning?)
    ensures s.pc.Handling?
    ensures var runs := LoopNext(s, e).runs;
      runs == s.runs || runs == R.Claimed(s.runs, s.pc.run.id, s.runner)
        || runs == R.Started(s.runs, s.pc.run.id, s.clock)
  {
    hide R.Claimed, R.Started;
  }

  lemma PassPromise(s: State, e: LoopStep, job: JobId, policy: Policy)
    requires LoopEnabled(s, e) && (PassStep(e) || Exclusion.HandlingStep(e))
    requires Promise(s.pc, s.runs, job, policy)
    ensures var s' := LoopNext(s, e); Promise(s'.pc, s'.runs, job, policy)
  {
    hide Promise, Settles, LoopNext, LoopEnabled, R.Claimed, R.Started;
    var s' := LoopNext(s, e);
    PassStepsLeaveDue(s, e);
    if e.TryClaim? || e.MarkRunning? {
      ClaimRuns(s, e);
      ClaimSettles(s.runs, s.pc.run.id, s.runner, s.clock, job);
    } else {
      RunLife.LoopRuns(s, e);
    }
    CancelSettles(s.runs, 0, 0, job);
    RowPromise(s, s'.runs, s'.pc, job, policy);
  }

  lemma LoopPromise(s: State, e: LoopStep, job: JobId, policy: Policy)
    requires LoopEnabled(s, e) && Under(s, job, policy) && policy != Queue && RunLife.FreshIds(s)
    requires Promise(s.pc, s.runs, job, policy)
    ensures var s' := LoopNext(s, e); Promise(s'.pc, s'.runs, job, policy)
  {
    hide Promise;
    match e
    case ApplyPolicy(ok) => PolicyPromise(s, ok, job, policy);
    case InsertDue(inserted, ok) => InsertDuePromise(s, inserted, ok, job, policy);
    case ListDue(_) => ListDuePromise(s, e, job, policy);
    case DueDone => ListDuePromise(s, e, job, policy);
    case AdvanceDue(_, _) => ListDuePromise(s, e, job, policy);
    case _ => PassPromise(s, e, job, policy);
  }

  lemma RunPromise(s: State, id: RunId, e: RunStep, job: JobId, policy: Policy)
    requires RunEnabled(s, id, e) && Promise(s.pc, s.runs, job, policy)
    requires s.active[id].phase.Decided? ==> s.active[id].phase.final.status.Terminal()
    ensures var s' := RunNext(s, id, e); Promise(s'.pc, s'.runs, job, policy)
  {
    SettlesKeeps(s.pc, s.runs, RunNext(s, id, e).runs, job, policy);
    hide Promise;
  }

  lemma RunJobPromise(s: State, j: JobId, job: JobId, policy: Policy)
    requires j in s.jobs && Under(s, job, policy) && Atomic(s, Cli(RunJob(j)), job) && RunLife.FreshIds(s)
    requires Promise(s.pc, s.runs, job, policy) && policy != Queue
    ensures var s' := CliNext(s, RunJob(j)); Promise(s'.pc, s'.runs, job, policy)
  {
    hide OneUnfinished, PendingLast, NonePending, Settles;
    var canceled := R.PendingCanceled(s.runs, j, s.clock);
    CancelSettles(s.runs, j, s.clock, job);
    CancelNonePending(s.runs, j, s.clock);
    SettlesKeeps(s.pc, s.runs, canceled, job, policy);
    match s.jobs[j].policy
    case Forbid => if !R.HasUnfinished(s.runs, j) { InsertKeepsPromise(s, j, None, s.clock, job, policy); }
    case Queue => InsertKeepsPromise(s, j, None, s.clock, job, policy);
    case Replace => InsertKeepsPromise(s.(runs := canceled), j, None, s.clock, job, policy);
  }

  lemma CliPromise(s: State, e: CliStep, job: JobId, policy: Policy)
    requires CliEnabled(s, e) && Under(s, job, policy) && Atomic(s, Cli(e), job) && RunLife.FreshIds(s)
    requires Promise(s.pc, s.runs, job, policy) && policy != Queue
    ensures var s' := CliNext(s, e); Promise(s'.pc, s'.runs, job, policy)
  {
    hide Promise;
    match e
    case RunJob(j) => RunJobPromise(s, j, job, policy);
    case InsertManual(j, at) => InsertKeepsPromise(s, j, None, at, job, policy);
    case AddJob(_) =>
    case WriteJob(_) =>
    case _ => SettlesKeeps(s.pc, s.runs, CliNext(s, e).runs, job, policy);
  }

  lemma TerminalFinals(s: State)
    requires Inv(s)
    ensures RunLife.FreshIds(s)
    ensures forall id <- s.active :: s.active[id].phase.Decided? ==> s.active[id].phase.final.status.Terminal()
  {
    hide Rows, Starts, OneUnreasoned, Snapshots, Accounted, Clearing, Registering;
  }

  lemma StepPromise(s: State, e: Step, job: JobId, policy: Policy)
    requires Inv(s) && Enabled(s, e) && Under(s, job, policy) && Atomic(s, e, job) && policy != Queue
    requires Promise(s.pc, s.runs, job, policy)
    ensures var s' := Next(s, e); Promise(s'.pc, s'.runs, job, policy)
  {
    hide Inv, LoopNext, CliNext, RunNext, LoopEnabled, CliEnabled, Atomic;
    TerminalFinals(s);
    match e
    case Loop(l) => hide Promise; LoopPromise(s, l, job, policy);
    case Completion(id, r) => hide Promise; RunPromise(s, id, r, job, policy);
    case Cli(c) => hide Promise; RunLife.CliFrame(s, c); CliPromise(s, c, job, policy);
    case _ =>
  }

  /** The job has one policy throughout, and every enqueue for it is atomic with its check. */
  ghost predicate Governed(ss: seq<State>, es: seq<Step>, job: JobId, policy: Policy, n: nat)
    requires Behaviour(ss, es)
  {
    && (forall k :: 0 <= k <= n && k < |ss| ==> Under(ss[k], job, policy))
    && (forall k :: 0 <= k < n && k < |es| ==> Atomic(ss[k], es[k], job))
  }

  lemma {:induction false} KeepsPromise(ss: seq<State>, es: seq<Step>, i: nat, job: JobId, policy: Policy)
    requires Behaviour(ss, es) && i < |ss| && Governed(ss, es, job, policy, i) && policy != Queue
    ensures Promise(ss[i].pc, ss[i].runs, job, policy)
  {
    hide Inv, Next, Enabled, Atomic;
    if i == 0 {
    } else {
      KeepsPromise(ss, es, i - 1, job, policy);
      Reachable(ss, es, i - 1);
      hide Promise;
      StepPromise(ss[i - 1], es[i - 1], job, policy);
    }
  }

  /** A forbid job never has two unfinished rows. */
  lemma ForbidKeepsOneUnfinished(ss: seq<State>, es: seq<Step>, i: nat, job: JobId)
    requires Behaviour(ss, es) && i < |ss| && Governed(ss, es, job, Forbid, i)
    ensures OneUnfinished(ss[i].runs, job)
  {
    KeepsPromise(ss, es, i, job, Forbid);
  }

  /** A replace job's pending row is its row of highest id, so it never has two. */
  lemma ReplaceKeepsLastPending(ss: seq<State>, es: seq<Step>, i: nat, job: JobId)
    requires Behaviour(ss, es) && i < |ss| && Governed(ss, es, job, Replace, i)
    ensures PendingLast(ss[i].runs, job)
  {
    KeepsPromise(ss, es, i, job, Replace);
  }

  // ----- exactly when an insert keeps the limit -----

  /** A forbid job's insert keeps the limit exactly when what its check found still holds at the insert. */
  lemma ForbidInsertIff(s: State, job: JobId, scheduledFor: Option<Second>, at: Second)
    requires Ids(s.jobs, s.runs, s.nextJob, s.nextRun) && OneUnfinished(s.runs, job)
    ensures OneUnfinished(R.Inserted(s.runs, s.nextRun, job, scheduledFor, at), job) <==> !R.HasUnfinished(s.runs, job)
  {
    var runs' := R.Inserted(s.runs, s.nextRun, job, scheduledFor, at);
    if R.HasUnfinished(s.runs, job) {
      var id :| id in s.runs && s.runs[id].jobId == job && s.runs[id].status.Unfinished();
      assert runs'[id] == s.runs[id] && runs'[s.nextRun].status == Pending;
    }
  }

  /** A replace job's insert leaves it as the only pending row exactly when the cancellation before it still holds. */
  lemma ReplaceInsertIff(s: State, job: JobId, scheduledFor: Option<Second>, at: Second)
    requires Ids(s.jobs, s.runs, s.nextJob, s.nextRun)
    ensures PendingLast(R.Inserted(s.runs, s.nextRun, job, scheduledFor, at), job) <==> NonePending(s.runs, job)
  {
    var runs' := R.Inserted(s.runs, s.nextRun, job, scheduledFor, at);
    assert runs'[s.nextRun].jobId == job && runs'[s.nextRun].status == Pending;
    if !NonePending(s.runs, job) {
      var id :| id in s.runs && s.runs[id].jobId == job && s.runs[id].status == Pending;
      assert runs'[id] == s.runs[id];
    }
  }
}
