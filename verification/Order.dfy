/** A job never under replace starts its runs in (queued_at, id) order. */
module Order {
  import opened Domain
  import opened Protocol
  import opened Safety
  import opened Exclusion
  import R = RunsStore
  import J = JobsStore

  predicate InPass(pc: Pc) { pc.Pass? || pc.Handling? }

  predicate InDue(pc: Pc) { pc.DueList? || pc.DueNext? || pc.DueInsert? || pc.DueAdvance? }

  /** The run in hand has been claimed and is about to start. */
  predicate Taken(pc: Pc) { pc.Handling? && (pc.stage == Mark || pc.stage == Register) }

  /** The rows the pass has still to claim, the one in hand included until it is claimed. */
  function Ahead(pc: Pc): seq<Run> {
    if pc.Pass? || Taken(pc) then pc.rest
    else if pc.Handling? then [pc.run] + pc.rest
    else []
  }

  predicate Lists(list: seq<Run>, id: RunId) {
    exists i :: 0 <= i < |list| && list[i].id == id
  }

  ghost predicate Sorted(list: seq<Run>) {
    forall i, j :: 0 <= i < j < |list| ==> R.Before(list[i], list[j])
  }

  /** The job's claimable rows outside the list come after the job's rows in it. */
  ghost predicate Covers(list: seq<Run>, runs: R.Table, job: JobId) {
    forall id, i | R.Claimable(runs, id) && runs[id].jobId == job && !Lists(list, id) && 0 <= i < |list|
      && list[i].jobId == job ::
      R.Before(list[i], runs[id])
  }

  /** A run of the job precedes all its claimable rows. */
  ghost predicate First(run: Run, runs: R.Table, job: JobId) {
    forall id | R.Claimable(runs, id) && runs[id].jobId == job :: R.Before(run, runs[id])
  }

  /** The job's starts are in order, and precede its claimable rows. */
  ghost predicate Ordered(starts: seq<Run>, runs: R.Table, job: JobId) {
    && (forall i, j :: 0 <= i < j < |starts| && starts[i].jobId == job && starts[j].jobId == job ==>
      R.Before(starts[i], starts[j]))
    && (forall i :: 0 <= i < |starts| && starts[i].jobId == job ==> First(starts[i], runs, job))
  }

  /** A claimed run in hand stands between the starts and the claimable rows. */
  ghost predicate InHand(pc: Pc, starts: seq<Run>, runs: R.Table, job: JobId) {
    Taken(pc) && pc.run.jobId == job ==>
      && (forall i :: 0 <= i < |starts| && starts[i].jobId == job ==> R.Before(starts[i], pc.run))
      && First(pc.run, runs, job)
  }

  predicate Queued(r: Run, at: Second, next: RunId) {
    r.queuedAt <= at && r.id < next
  }

  /** The time by which every started run was queued: the due pass's own now, or the clock. */
  function Horizon(pc: Pc, clock: Second): Second {
    if InDue(pc) then pc.now else clock
  }

  ghost predicate Timely(pc: Pc, starts: seq<Run>, runs: R.Table, clock: Second, next: RunId, job: JobId) {
    && Horizon(pc, clock) <= clock
    && (forall id <- runs :: runs[id].jobId == job ==> Queued(runs[id], clock, next))
    && (forall i :: 0 <= i < |starts| && starts[i].jobId == job ==> Queued(starts[i], Horizon(pc, clock), next))
    && (forall i :: 0 <= i < |Ahead(pc)| && Ahead(pc)[i].jobId == job ==> Queued(Ahead(pc)[i], clock, next))
    && (pc.Handling? && pc.run.jobId == job ==> Queued(pc.run, clock, next))
  }

  /** In a pass, either the job is busy and nothing of it will start, or the list covers its queue. */
  ghost predicate Covered(pc: Pc, active: map<RunId, Active>, runs: R.Table, job: JobId) {
    Sorted(Ahead(pc)) && (InPass(pc) && Idle(active, job) ==> Covers(Ahead(pc), runs, job))
  }

  ghost predicate Fifo(s: State, job: JobId) {
    && Ordered(s.starts, s.runs, job)
    && InHand(s.pc, s.starts, s.runs, job)
    && Timely(s.pc, s.starts, s.runs, s.clock, s.nextRun, job)
    && Covered(s.pc, s.active, s.runs, job)
  }

  /** A row queued then is behind the job's started runs, and behind those the pass has still to claim. */
  predicate Follows(s: State, at: Second, job: JobId) {
    && at <= s.clock
    && (forall i :: 0 <= i < |s.starts| && s.starts[i].jobId == job ==> s.starts[i].queuedAt <= at)
    && (forall i :: 0 <= i < |Ahead(s.pc)| && Ahead(s.pc)[i].jobId == job ==> Ahead(s.pc)[i].queuedAt <= at)
    && (s.pc.Handling? && s.pc.run.jobId == job ==> s.pc.run.queuedAt <= at)
  }

  // ----- changes of the table -----

  /** No row becomes claimable, and none changes its job or queue time. */
  ghost predicate Narrows(runs: R.Table, runs': R.Table) {
    forall id <- runs' ::
      && id in runs && runs'[id].jobId == runs[id].jobId && runs'[id].queuedAt == runs[id].queuedAt
        && runs'[id].id == runs[id].id
      && (R.Claimable(runs', id) ==> runs'[id] == runs[id])
  }

  lemma NarrowKeeps(s: State, runs: R.Table, job: JobId)
    requires Fifo(s, job) && Narrows(s.runs, runs)
    ensures Fifo(s.(runs := runs), job)
  {
  }

  lemma InsertKeeps(s: State, to: JobId, scheduledFor: Option<Second>, at: Second, job: JobId)
    requires Fifo(s, job) && (to == job ==> Follows(s, at, job))
    ensures Fifo(s.(runs := R.Inserted(s.runs, s.nextRun, to, scheduledFor, at), nextRun := s.nextRun + 1), job)
  {
  }

  // ----- the loop -----

  /** The steps the order does not depend on: loading and claiming this job's rows do not fail, time does not go
      back, no run of the job unregisters inside a pending pass, and a manual run, whose time is read before its
      insert, is not queued before one that has started or is listed. */
  ghost predicate Orderly(s: State, e: Step, job: JobId) {
    match e
    case Clock(to) => s.clock <= to
    case Loop(LoadJob(ok)) => s.pc.Pass? && s.pc.rest != [] && s.pc.rest[0].jobId == job ==> ok
    case Loop(TryClaim(ok)) => s.pc.Handling? && s.pc.run.jobId == job ==> ok
    case Completion(id, Unregister) => InPass(s.pc) && id in s.active ==> s.active[id].job != job
    case Cli(InsertManual(j, at)) => j == job ==> Follows(s, at, job)
    case _ => true
  }

  /** What Fifo needs of the general invariant. */
  ghost predicate Ground(s: State, job: JobId) {
    && Ids(s.jobs, s.runs, s.nextJob, s.nextRun)
    && Snapshots(s.pc, s.runs, s.nextRun)
    && Handled(s.pc, s.active, job)
    && (forall a <- s.active :: s.active[a].phase.Decided? ==> s.active[a].phase.final.status.Terminal())
  }

  lemma PageFifo(s: State, limit: nat, page: seq<Run>, job: JobId)
    requires Fifo(s, job) && R.Keyed(s.runs) && !InDue(s.pc) && R.IsPage(s.runs, limit, page)
    ensures Fifo(s.(pc := Pass(page)), job)
  {
    forall id, i | R.Claimable(s.runs, id) && s.runs[id].jobId == job && !Lists(page, id) && 0 <= i < |page|
      && page[i].jobId == job
      ensures R.Before(page[i], s.runs[id])
    {
      assert forall k :: 0 <= k < |page| ==> page[k].id != id;
    }
  }

  lemma TailCovers(run: Run, rest: seq<Run>, runs: R.Table, runs': R.Table, job: JobId)
    requires Sorted([run] + rest)
    requires forall id :: R.Claimable(runs', id) ==> R.Claimable(runs, id) && runs'[id] == runs[id]
    ensures Sorted(rest)
    ensures Covers([run] + rest, runs, job) && (run.jobId == job ==> !R.Claimable(runs', run.id)) && R.Keyed(runs')
            && (R.Claimable(runs', run.id) ==> runs'[run.id].jobId == run.jobId)
            ==> Covers(rest, runs', job)
  {
    var list := [run] + rest;
    assert forall i :: 0 <= i < |rest| ==> rest[i] == list[i + 1];
    assert forall id :: Lists(list, id) ==> run.id == id || Lists(rest, id);
  }

  /** The list loses its head, which is of another job or no longer claimable. */
  lemma DropFifo(s: State, run: Run, rest: seq<Run>, job: JobId)
    requires Fifo(s, job) && R.Keyed(s.runs) && Snapshot(run, s.runs, s.nextRun) && InPass(s.pc)
      && Ahead(s.pc) == [run] + rest
    requires run.jobId == job && Idle(s.active, job) ==> !R.Claimable(s.runs, run.id)
    ensures Fifo(s.(pc := Pass(rest)), job)
  {
    hide Covers, Sorted, Ordered, First;
    TailCovers(run, rest, s.runs, s.runs, job);
    var list := [run] + rest;
    assert forall i :: 0 <= i < |rest| ==> rest[i] == list[i + 1];
  }

  /** A claim takes the first of the job's claimable rows. */
  lemma ClaimFirst(s: State, job: JobId)
    requires Sorted(Ahead(s.pc)) && Covers(Ahead(s.pc), s.runs, job) && R.Keyed(s.runs)
      && Snapshots(s.pc, s.runs, s.nextRun)
    requires At(s.pc, Claim) && s.pc.run.jobId == job
    ensures First(s.pc.run, R.Claimed(s.runs, s.pc.run.id, s.runner), job)
  {
    var run, rest := s.pc.run, s.pc.rest;
    var list := [run] + rest;
    forall id | R.Claimable(R.Claimed(s.runs, run.id, s.runner), id) && s.runs[id].jobId == job
      ensures R.Before(run, s.runs[id])
    {
      if Lists(rest, id) {
        var i :| 0 <= i < |rest| && rest[i].id == id;
        assert R.Before(list[0], list[i + 1]);
      } else {
        assert R.Before(list[0], s.runs[id]);
      }
    }
  }

  lemma ClaimAfterStarts(s: State, job: JobId)
    requires Ordered(s.starts, s.runs, job) && R.Keyed(s.runs) && Snapshots(s.pc, s.runs, s.nextRun)
    requires At(s.pc, Claim) && s.pc.run.jobId == job && R.Claimable(s.runs, s.pc.run.id)
    ensures forall i :: 0 <= i < |s.starts| && s.starts[i].jobId == job ==> R.Before(s.starts[i], s.pc.run)
  {
    assert forall i :: 0 <= i < |s.starts| && s.starts[i].jobId == job ==> R.Before(s.starts[i], s.runs[s.pc.run.id]);
  }

  lemma ClaimCovers(s: State, job: JobId)
    requires Covered(s.pc, s.active, s.runs, job) && At(s.pc, Claim) && R.Claimable(s.runs, s.pc.run.id)
      && R.Keyed(s.runs)
    requires Snapshots(s.pc, s.runs, s.nextRun)
    ensures var s' := TryClaimNext(s, true); Covered(s'.pc, s'.active, s'.runs, job)
  {
    hide Covers, Sorted;
    TailCovers(s.pc.run, s.pc.rest, s.runs, TryClaimNext(s, true).runs, job);
  }

  lemma ClaimFifo(s: State, job: JobId)
    requires Fifo(s, job) && Ground(s, job) && At(s.pc, Claim) && R.Claimable(s.runs, s.pc.run.id)
    ensures Fifo(TryClaimNext(s, true), job)
  {
    var s' := TryClaimNext(s, true);
    assert forall i :: 0 <= i < |s.pc.rest| ==> s.pc.rest[i] == ([s.pc.run] + s.pc.rest)[i + 1];
    NarrowKeeps(s, s'.runs, job);
    ClaimCovers(s, job);
    if s.pc.run.jobId == job {
      ClaimFirst(s, job);
      ClaimAfterStarts(s, job);
    }
    hide Covers, Sorted, First, Ids, Snapshots;
  }

  lemma RegisterFifo(s: State, job: JobId)
    requires Fifo(s, job) && Ground(s, job) && At(s.pc, Register) && s.pc.run.id !in s.active
    ensures Fifo(RegisterNext(s), job)
  {
    var s' := RegisterNext(s);
    assert s.pc.run.id in s'.active;
    assert forall a <- s.active :: a in s'.active && s'.active[a] == s.active[a];
  }

  /** A move that neither takes a run in hand nor changes the list, unless it leaves the pass. */
  lemma MoveFifo(s: State, pc: Pc, job: JobId)
    requires Fifo(s, job)
    requires InPass(pc) ==> InPass(s.pc) && Ahead(pc) == Ahead(s.pc) && (Taken(pc) ==> Taken(s.pc))
    requires pc.Handling? ==> (s.pc.Handling? && pc.run == s.pc.run) || (s.pc.Pass? && pc.run in s.pc.rest)
    requires InDue(pc) ==> Horizon(s.pc, s.clock) <= pc.now <= s.clock
    ensures Fifo(s.(pc := pc), job)
  {
  }

  lemma LoadFifo(s: State, ok: bool, job: JobId)
    requires Fifo(s, job) && Ground(s, job) && LoopEnabled(s, LoadJob(ok)) && Orderly(s, Loop(LoadJob(ok)), job)
    ensures Fifo(LoopNext(s, LoadJob(ok)), job)
  {
    var run, rest := s.pc.rest[0], s.pc.rest[1..];
    assert [run] + rest == s.pc.rest;
    if ok && run.jobId in s.jobs {
      MoveFifo(s, Handling(Prepare, s.jobs[run.jobId], run, rest), job);
    } else {
      DropFifo(s, run, rest, job);
    }
    hide Ordered, InHand, Timely, Covered;
  }

  lemma PrepareFifo(s: State, job: JobId)
    requires Fifo(s, job) && Ground(s, job) && At(s.pc, Prepare)
    ensures Fifo(LoopNext(s, PrepareStart), job)
  {
    if HasActive(s, s.pc.job.id) && s.pc.job.policy != Replace {
      DropFifo(s, s.pc.run, s.pc.rest, job);
    } else {
      MoveFifo(s, LoopNext(s, PrepareStart).pc, job);
    }
    hide Ordered, InHand, Timely, Covered;
  }

  lemma TryClaimFifo(s: State, ok: bool, job: JobId)
    requires Fifo(s, job) && Ground(s, job) && At(s.pc, Claim) && Orderly(s, Loop(TryClaim(ok)), job)
    ensures Fifo(TryClaimNext(s, ok), job)
  {
    if ok && R.Claimable(s.runs, s.pc.run.id) {
      ClaimFifo(s, job);
    } else {
      DropFifo(s, s.pc.run, s.pc.rest, job);
    }
  }

  lemma MarkFifo(s: State, ok: bool, job: JobId)
    requires Fifo(s, job) && R.Keyed(s.runs) && At(s.pc, Mark)
    ensures Fifo(MarkRunningNext(s, ok), job)
  {
    var s' := MarkRunningNext(s, ok);
    NarrowKeeps(s, s'.runs, job);
    MoveFifo(s.(runs := s'.runs), s'.pc, job);
    hide Ordered, InHand, Timely, Covered;
  }

  lemma CancelNarrows(runs: R.Table, j: JobId, at: Second)
    ensures Narrows(runs, R.PendingCanceled(runs, j, at)) && Narrows(runs, runs)
  {
  }

  lemma DueNow(s: State, job: JobId)
    requires Fifo(s, job)
    ensures Horizon(s.pc, s.clock) <= s.clock && Follows(s, s.clock, job)
    ensures InDue(s.pc) ==> Follows(s, s.pc.now, job)
  {
  }

  lemma PolicyFifo(s: State, ok: bool, job: JobId)
    requires Fifo(s, job) && R.Keyed(s.runs) && s.pc.DueNext? && s.pc.due != []
    ensures Fifo(ApplyPolicyNext(s, ok), job)
  {
    hide Ordered, InHand, Timely, Covered, R.PendingCanceled, R.HasUnfinished, Narrows;
    var s' := ApplyPolicyNext(s, ok);
    CancelNarrows(s.runs, s.pc.due[0].id, s.pc.now);
    NarrowKeeps(s, s'.runs, job);
    DueNow(s, job);
    MoveFifo(s.(runs := s'.runs), s'.pc, job);
  }

  lemma InsertDueFifo(s: State, inserted: bool, ok: bool, job: JobId)
    requires Fifo(s, job) && s.pc.DueInsert?
    ensures Fifo(InsertDueNext(s, inserted, ok), job)
  {
    var s' := InsertDueNext(s, inserted, ok);
    DueNow(s, job);
    if inserted { InsertKeeps(s, s.pc.job.id, s.pc.job.nextRunAt, s.pc.now, job); }
    MoveFifo(s.(runs := s'.runs, nextRun := s'.nextRun), s'.pc, job);
    hide Ordered, InHand, Covered;
  }

  lemma OtherFifo(s: State, e: LoopStep, job: JobId)
    requires Fifo(s, job) && LoopEnabled(s, e)
    requires || e.Tick? || e.ListDue? || e.DueDone? || e.AdvanceDue? || e.PassDone? || e.CollectHandles?
             || e.CancelHandle? || e.HandlesDone? || e.BeginStop? || e.Return? || (e.ListPending? && e.page == None)
    ensures Fifo(LoopNext(s, e), job)
  {
    hide J.IsDueList, J.Updated, J.NextRunUpdated, Ordered, InHand, Covered;
    MoveFifo(s, LoopNext(s, e).pc, job);
  }

  lemma LoopFifo(s: State, e: LoopStep, job: JobId)
    requires Fifo(s, job) && Ground(s, job) && LoopEnabled(s, e) && Orderly(s, Loop(e), job)
    requires At(s.pc, Register) ==> s.pc.run.id !in s.active
    ensures Fifo(LoopNext(s, e), job)
  {
    hide Fifo;
    match e
    case LoadJob(ok) => LoadFifo(s, ok, job);
    case PrepareStart => PrepareFifo(s, job);
    case TryClaim(ok) => TryClaimFifo(s, ok, job);
    case MarkRunning(ok) => MarkFifo(s, ok, job);
    case RegisterActive => RegisterFifo(s, job);
    case ApplyPolicy(ok) => PolicyFifo(s, ok, job);
    case InsertDue(inserted, ok) => InsertDueFifo(s, inserted, ok, job);
    case ListPending(limit, page) => if page.Some? { PageFifo(s, limit, page.value, job); }
      else { OtherFifo(s, e, job); }
    case _ => OtherFifo(s, e, job);
  }

  // ----- the other actors -----

  /** A change of the map that does not make the job idle. */
  lemma ActiveFifo(s: State, active: map<RunId, Active>, job: JobId)
    requires Fifo(s, job) && (InPass(s.pc) && Idle(active, job) ==> Idle(s.active, job))
    ensures Fifo(s.(active := active), job)
  {
  }

  lemma RunFifo(s: State, id: RunId, e: RunStep, job: JobId)
    requires Fifo(s, job) && Ground(s, job) && RunEnabled(s, id, e) && Orderly(s, Completion(id, e), job)
    ensures Fifo(RunNext(s, id, e), job)
  {
    hide Ordered, InHand, Timely, Covered;
    var s' := RunNext(s, id, e);
    RunFrame(s, id, e);
    if !Idle(s.active, job) {
      var a :| a in s.active && s.active[a].job == job;
      assert e.Unregister? || (a in s'.active && s'.active[a].job == job);
    }
    NarrowKeeps(s, s'.runs, job);
    ActiveFifo(s.(runs := s'.runs), s'.active, job);
  }

  lemma CliNarrows(s: State, e: CliStep, job: JobId)
    requires Fifo(s, job) && CliEnabled(s, e) && R.Keyed(s.runs) && (e.DeleteJob? || e.CancelPending?)
    ensures Fifo(CliNext(s, e), job)
  {
    NarrowKeeps(s, CliNext(s, e).runs, job);
    hide Ordered, InHand, Timely, Covered;
  }

  lemma RunJobFifo(s: State, j: JobId, job: JobId)
    requires Fifo(s, job) && R.Keyed(s.runs) && j in s.jobs
    ensures Fifo(CliNext(s, RunJob(j)), job)
  {
    hide Ordered, InHand, Timely, Covered;
    var canceled := R.PendingCanceled(s.runs, j, s.clock);
    DueNow(s, job);
    CancelNarrows(s.runs, j, s.clock);
    NarrowKeeps(s, canceled, job);
    InsertKeeps(s, j, None, s.clock, job);
    DueNow(s.(runs := canceled), job);
    InsertKeeps(s.(runs := canceled), j, None, s.clock, job);
  }

  lemma CliFifo(s: State, e: CliStep, job: JobId)
    requires Fifo(s, job) && R.Keyed(s.runs) && CliEnabled(s, e) && Orderly(s, Cli(e), job)
    ensures Fifo(CliNext(s, e), job)
  {
    hide Ordered, InHand, Covered;
    match e
    case RunJob(j) => RunJobFifo(s, j, job);
    case InsertManual(j, at) => InsertKeeps(s, j, None, at, job);
    case AddJob(_) =>
    case WriteJob(_) =>
    case _ => CliNarrows(s, e, job);
  }

  lemma ClockFifo(s: State, to: Second, job: JobId)
    requires Fifo(s, job) && s.clock <= to
    ensures Fifo(s.(clock := to), job)
  {
  }

  lemma Grounded(s: State, job: JobId)
    requires Inv(s) && Handled(s.pc, s.active, job)
    ensures Ground(s, job) && (At(s.pc, Register) ==> s.pc.run.id !in s.active)
  {
    hide Rows, Starts, OneUnreasoned, Accounted, Clearing;
  }

  lemma StepFifo(s: State, e: Step, job: JobId)
    requires Inv(s) && Enabled(s, e) && Handled(s.pc, s.active, job) && Orderly(s, e, job) && Fifo(s, job)
    ensures Fifo(Next(s, e), job)
  {
    hide Inv, LoopNext, CliNext, RunNext, LoopEnabled, CliEnabled, RunEnabled, Handled, Snapshots;
    Grounded(s, job);
    match e
    case Loop(l) => hide Fifo; LoopFifo(s, l, job);
    case Completion(id, r) => hide Fifo; RunFifo(s, id, r, job);
    case Cli(c) => hide Fifo; CliFifo(s, c, job);
    case Clock(to) => hide Fifo; ClockFifo(s, to, job);
    case Start => hide Ordered; MoveFifo(s, Waiting, job);
    case Crash => hide Ordered; MoveFifo(s, Stopped(false), job);
    case WgDone =>
  }

  lemma {:induction false} StaysFifo(ss: seq<State>, es: seq<Step>, i: nat, job: JobId)
    requires Behaviour(ss, es) && i < |ss| && NeverReplace(ss, job, i)
    requires forall k :: 0 <= k < i ==> Orderly(ss[k], es[k], job)
    ensures Fifo(ss[i], job)
  {
    hide Inv, Next, Enabled, Orderly;
    if i == 0 {
    } else {
      StaysFifo(ss, es, i - 1, job);
      Reachable(ss, es, i - 1);
      Excludes(ss, es, i - 1, job);
      hide Fifo;
      StepFifo(ss[i - 1], es[i - 1], job);
    }
  }

  /** Over the whole history, for any claim limits, and across restarts: earlier started is earlier queued. */
  lemma StartsInQueueOrder(ss: seq<State>, es: seq<Step>, i: nat, job: JobId, a: nat, b: nat)
    requires Behaviour(ss, es) && i < |ss| && NeverReplace(ss, job, i)
    requires forall k :: 0 <= k < i ==> Orderly(ss[k], es[k], job)
    requires a < b < |ss[i].starts| && ss[i].starts[a].jobId == job && ss[i].starts[b].jobId == job
    ensures R.Before(ss[i].starts[a], ss[i].starts[b])
  {
    StaysFifo(ss, es, i, job);
  }
}
