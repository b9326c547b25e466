/** What every reachable state of the run protocol satisfies. */
module Safety {
  import opened Domain
  import opened Protocol
  import R = RunsStore
  import J = JobsStore

  type Reasons = map<RunId, Reason>

  /** Ids are never reused, and a row's job exists (the delete cascades). */
  ghost predicate Ids(jobs: J.Table, runs: R.Table, nextJob: JobId, nextRun: RunId) {
    && R.Keyed(runs) && J.Keyed(jobs)
    && (forall id <- runs :: id < nextRun && runs[id].jobId in jobs)
    && (forall job <- jobs :: job < nextJob)
  }

  predicate Reasoned(id: RunId, message: Option<string>, reasons: Reasons) {
    id in reasons && reasons[id] != NoReason && message == Some(ReasonMessage(reasons[id]))
  }

  /** Which columns each status allows, and where a canceled row comes from. */
  predicate RowShape(r: Run, reasons: Reasons) {
    match r.status
    case Pending =>
      r.startedAt == None && r.finishedAt == None && r.exitCode == None && r.errorMessage == None && r.id !in reasons
    case Running => r.startedAt.Some? && r.finishedAt == None
    case Canceled =>
      && r.finishedAt.Some? && r.runner == None
      && (if r.startedAt == None then r.exitCode == None && r.errorMessage == None && r.id !in reasons
          else Reasoned(r.id, r.errorMessage, reasons))
    case _ => r.startedAt.Some? && r.finishedAt.Some? && r.runner == None && r.id in reasons
  }

  ghost predicate Rows(runs: R.Table, reasons: Reasons) {
    forall id <- runs :: RowShape(runs[id], reasons)
  }

  /** `starts` lists each registered run once, and an activeRun object exists for each. */
  ghost predicate Starts(starts: seq<Run>, reasons: Reasons, nextRun: RunId) {
    && (forall id <- reasons :: id < nextRun)
    && (forall i :: 0 <= i < |starts| ==> starts[i].id in reasons)
    && (forall i, j :: 0 <= i < j < |starts| ==> starts[i].id != starts[j].id)
  }

  /** The outcome a goroutine carries: terminal, and canceled only for the reason that was set. */
  predicate Carried(id: RunId, o: Outcome, reasons: Reasons) {
    o.status.Terminal() && (o.status == Canceled ==> Reasoned(id, o.message, reasons))
  }

  predicate Holds(r: Run, o: Outcome) {
    r.status == o.status && r.finishedAt == Some(o.finishedAt) && r.exitCode == o.exitCode
      && r.errorMessage == o.message
  }

  /** The row of an active run, phase by phase: running until MarkFinished, the outcome afterwards. */
  predicate RowInPhase(r: Run, phase: Phase, lost: bool) {
    match phase
    case Executing => r.status == Running
    case Executed(o) => r.status == Running
    case Decided(o) => r.status == Running
    case Persisted(o) => Holds(r, o)
    case Summarised(o) => Holds(r, o)
    case Done(stored) => if stored then r.status.Terminal() else r.status == Running && lost
  }

  predicate PhaseShape(id: RunId, phase: Phase, reasons: Reasons) {
    match phase
    case Executing => true
    case Executed(o) => o.status == Succeeded || o.status == Failed
    case Decided(o) => Carried(id, o, reasons)
    case Persisted(o) => Carried(id, o, reasons)
    case Summarised(o) => Carried(id, o, reasons)
    case Done(stored) => true
  }

  ghost predicate Entries(active: map<RunId, Active>, runs: R.Table, reasons: Reasons, marked: set<RunId>,
      lost: set<RunId>) {
    forall id <- active ::
      && id in reasons && id in marked && PhaseShape(id, active[id].phase, reasons)
      && (id in runs ==> runs[id].jobId == active[id].job && RowInPhase(runs[id], active[id].phase, id in lost))
  }

  /** At most one active run of a job has no reason. */
  ghost predicate OneUnreasoned(active: map<RunId, Active>, reasons: Reasons) {
    forall a <- active, b <- active | a != b && active[a].job == active[b].job ::
      a in reasons && b in reasons && (reasons[a] != NoReason || reasons[b] != NoReason)
  }

  /** A row read earlier still has the same job and queue time, if it is still there. */
  predicate Snapshot(x: Run, runs: R.Table, nextRun: RunId) {
    x.id < nextRun && (x.id in runs ==> runs[x.id].jobId == x.jobId && runs[x.id].queuedAt == x.queuedAt)
  }

  ghost predicate Snapshots(pc: Pc, runs: R.Table, nextRun: RunId) {
    && (pc.Pass? || pc.Handling? ==> forall i :: 0 <= i < |pc.rest| ==> Snapshot(pc.rest[i], runs, nextRun))
    && (pc.Handling? ==> Snapshot(pc.run, runs, nextRun) && pc.job.id == pc.run.jobId)
  }

  /** Between MarkRunning and registration the row is running and the run unknown to the map. */
  ghost predicate Registering(pc: Pc, runs: R.Table, reasons: Reasons, marked: set<RunId>) {
    At(pc, Register) ==>
      && pc.run.id !in reasons && pc.run.id in marked
      && (pc.run.id in runs ==> runs[pc.run.id].status == Running)
  }

  /** Every row this loop set running has left pending for good, and is accounted for until it is finished. */
  ghost predicate Accounted(pc: Pc, runs: R.Table, nextRun: RunId, active: map<RunId, Active>, marked: set<RunId>,
      lost: set<RunId>) {
    forall id <- marked ::
      && id < nextRun
      && (id in runs ==> runs[id].status != Pending)
      && (id in runs && runs[id].status == Running ==>
            id in active || id in lost || pc == Stopped(false) || (At(pc, Register) && pc.run.id == id))
  }

  /** No active run of the job is left without a reason, apart from those still to be told. */
  ghost predicate Cleared(active: map<RunId, Active>, reasons: Reasons, job: JobId, except: set<RunId>) {
    forall id <- active | active[id].job == job && id !in except :: id in reasons && reasons[id] != NoReason
  }

  ghost predicate Clearing(pc: Pc, active: map<RunId, Active>, reasons: Reasons) {
    pc.Handling? ==>
      match pc.stage
      case Prepare => true
      case Collect => true
      case Replacing(handles) => Cleared(active, reasons, pc.job.id, handles)
      case _ => Cleared(active, reasons, pc.job.id, {})
  }

  ghost predicate Inv(s: State) {
    && Ids(s.jobs, s.runs, s.nextJob, s.nextRun)
    && Rows(s.runs, s.reasons)
    && Starts(s.starts, s.reasons, s.nextRun)
    && Entries(s.active, s.runs, s.reasons, s.marked, s.lost)
    && OneUnreasoned(s.active, s.reasons)
    && s.waitGroup == |s.active| + s.leaving
    && (s.pc.Stopped? ==> s.active == map[] && s.leaving == 0)
    && Snapshots(s.pc, s.runs, s.nextRun)
    && Registering(s.pc, s.runs, s.reasons, s.marked)
    && Accounted(s.pc, s.runs, s.nextRun, s.active, s.marked, s.lost)
    && Clearing(s.pc, s.active, s.reasons)
  }

  // ----- statements that touch pending rows only -----

  /** Rows that are not pending stay as they are or disappear; new rows are pending and take fresh ids. */
  ghost predicate Quiet(runs: R.Table, runs': R.Table, next: RunId, next': RunId) {
    && next <= next'
    && forall id <- runs' ::
         if id in runs then
           || runs'[id] == runs[id]
           || (runs[id].status == Pending && runs'[id].status != Running
               && runs'[id].jobId == runs[id].jobId && runs'[id].queuedAt == runs[id].queuedAt)
         else next <= id < next' && runs'[id].status == Pending
  }

  lemma QuietEntries(s: State, runs: R.Table, next: RunId)
    requires Entries(s.active, s.runs, s.reasons, s.marked, s.lost) && Starts(s.starts, s.reasons, s.nextRun)
    requires Quiet(s.runs, runs, s.nextRun, next)
    ensures Entries(s.active, runs, s.reasons, s.marked, s.lost)
  {
  }

  lemma QuietLoop(s: State, runs: R.Table, next: RunId)
    requires Snapshots(s.pc, s.runs, s.nextRun) && Registering(s.pc, s.runs, s.reasons, s.marked)
    requires Accounted(s.pc, s.runs, s.nextRun, s.active, s.marked, s.lost)
    requires Quiet(s.runs, runs, s.nextRun, next)
    ensures Snapshots(s.pc, runs, next) && Registering(s.pc, runs, s.reasons, s.marked)
    ensures Accounted(s.pc, runs, next, s.active, s.marked, s.lost)
  {
  }

  lemma QuietKeeps(s: State, jobs: J.Table, runs: R.Table, next: RunId)
    requires Inv(s) && Quiet(s.runs, runs, s.nextRun, next)
    requires Ids(jobs, runs, s.nextJob, next) && Rows(runs, s.reasons)
    ensures Inv(s.(jobs := jobs, runs := runs, nextRun := next))
  {
    hide Rows, Entries, OneUnreasoned, Snapshots, Registering, Accounted, Clearing, Ids;
    QuietEntries(s, runs, next);
    QuietLoop(s, runs, next);
  }

  lemma CancelKeeps(s: State, job: JobId, at: Second)
    requires Inv(s)
    ensures Inv(s.(runs := R.PendingCanceled(s.runs, job, at)))
  {
    hide Starts, Entries, OneUnreasoned, Snapshots, Registering, Accounted, Clearing;
    QuietKeeps(s, s.jobs, R.PendingCanceled(s.runs, job, at), s.nextRun);
  }

  lemma InsertKeeps(s: State, job: JobId, scheduledFor: Option<Second>, at: Second)
    requires Inv(s) && job in s.jobs
    ensures Inv(s.(runs := R.Inserted(s.runs, s.nextRun, job, scheduledFor, at), nextRun := s.nextRun + 1))
  {
    hide Entries, OneUnreasoned, Snapshots, Registering, Accounted, Clearing;
    QuietKeeps(s, s.jobs, R.Inserted(s.runs, s.nextRun, job, scheduledFor, at), s.nextRun + 1);
  }

  lemma RemoveJobKeeps(s: State, job: JobId)
    requires Inv(s)
    ensures Inv(s.(jobs := s.jobs - {job}, runs := R.JobRemoved(s.runs, job)))
  {
    hide Starts, Entries, OneUnreasoned, Snapshots, Registering, Accounted, Clearing;
    QuietKeeps(s, s.jobs - {job}, R.JobRemoved(s.runs, job), s.nextRun);
  }

  lemma ClaimKeeps(s: State, ok: bool)
    requires Inv(s) && At(s.pc, Claim)
    ensures Inv(TryClaimNext(s, ok))
  {
    hide Starts, Entries, OneUnreasoned, Accounted;
    var s' := TryClaimNext(s, ok);
    QuietKeeps(s, s.jobs, s'.runs, s.nextRun);
    LoopMoves(s.(runs := s'.runs), s'.pc);
  }

  lemma JobsKeep(s: State, jobs: J.Table, nextJob: JobId)
    requires Inv(s) && Ids(jobs, s.runs, nextJob, s.nextRun)
    ensures Inv(s.(jobs := jobs, nextJob := nextJob))
  {
    hide Rows, Starts, Entries, OneUnreasoned, Snapshots, Registering, Accounted, Clearing;
  }

  // ----- the loop -----

  /** A step that only moves the loop on. */
  lemma LoopMoves(s: State, pc: Pc)
    requires Inv(s) && !s.pc.Stopped? && !pc.Stopped?
    requires At(s.pc, Register) || At(pc, Register) ==> s.pc == pc
    requires Snapshots(pc, s.runs, s.nextRun) && Clearing(pc, s.active, s.reasons)
    ensures Inv(s.(pc := pc))
  {
    hide Rows, Starts, Entries, OneUnreasoned, Snapshots, Clearing, Ids;
  }

  lemma MarkRows(runs: R.Table, reasons: Reasons, id: RunId, at: Second)
    requires R.Keyed(runs) && Rows(runs, reasons)
    ensures Rows(R.Started(runs, id, at), reasons)
  {
  }

  lemma MarkEntries(s: State, id: RunId, at: Second)
    requires R.Keyed(s.runs) && Rows(s.runs, s.reasons) && Entries(s.active, s.runs, s.reasons, s.marked, s.lost)
    ensures Entries(s.active, R.Started(s.runs, id, at), s.reasons, s.marked + {id}, s.lost)
  {
  }

  lemma MarkLoop(s: State, ok: bool)
    requires R.Keyed(s.runs) && Rows(s.runs, s.reasons) && At(s.pc, Mark)
    requires Snapshots(s.pc, s.runs, s.nextRun) && Accounted(s.pc, s.runs, s.nextRun, s.active, s.marked, s.lost)
    ensures var s' := MarkRunningNext(s, ok);
      && Snapshots(s'.pc, s'.runs, s.nextRun) && Registering(s'.pc, s'.runs, s.reasons, s'.marked)
      && Accounted(s'.pc, s'.runs, s.nextRun, s.active, s'.marked, s.lost)
  {
  }

  lemma MarkKeeps(s: State, ok: bool)
    requires Inv(s) && At(s.pc, Mark)
    ensures Inv(MarkRunningNext(s, ok))
  {
    MarkRows(s.runs, s.reasons, s.pc.run.id, s.clock);
    MarkEntries(s, s.pc.run.id, s.clock);
    MarkLoop(s, ok);
    hide Rows, Starts, Entries, OneUnreasoned, Registering, Accounted, Snapshots;
  }

  lemma RegisterRows(runs: R.Table, reasons: Reasons, id: RunId)
    requires R.Keyed(runs) && Rows(runs, reasons)
    requires id !in reasons && (id in runs ==> runs[id].status == Running)
    ensures Rows(runs, reasons[id := NoReason])
  {
  }

  lemma RegisterEntries(s: State)
    requires Entries(s.active, s.runs, s.reasons, s.marked, s.lost)
    requires At(s.pc, Register) && Registering(s.pc, s.runs, s.reasons, s.marked) && Snapshots(s.pc, s.runs, s.nextRun)
    ensures s.pc.run.id !in s.active
    ensures var s' := RegisterNext(s); Entries(s'.active, s'.runs, s'.reasons, s'.marked, s'.lost)
  {
    assert forall id <- s.active :: id in s.reasons;
  }

  lemma RegisterExclusive(s: State)
    requires Entries(s.active, s.runs, s.reasons, s.marked, s.lost)
    requires At(s.pc, Register) && s.pc.run.id !in s.reasons && s.pc.job.id == s.pc.run.jobId
    requires OneUnreasoned(s.active, s.reasons) && Clearing(s.pc, s.active, s.reasons)
    ensures var s' := RegisterNext(s); OneUnreasoned(s'.active, s'.reasons)
  {
  }

  lemma RegisterKeeps(s: State)
    requires Inv(s) && At(s.pc, Register)
    ensures Inv(RegisterNext(s))
  {
    hide Rows, Entries, OneUnreasoned;
    RegisterRows(s.runs, s.reasons, s.pc.run.id);
    RegisterEntries(s);
    RegisterExclusive(s);
  }

  lemma ReasonRows(runs: R.Table, reasons: Reasons, id: RunId, r: Reason)
    requires Rows(runs, reasons) && r != NoReason
    ensures Rows(runs, SetReason(reasons, id, r))
  {
  }

  lemma ReasonEntries(s: State, id: RunId, r: Reason)
    requires Entries(s.active, s.runs, s.reasons, s.marked, s.lost) && r != NoReason
    ensures Entries(s.active, s.runs, SetReason(s.reasons, id, r), s.marked, s.lost)
  {
  }

  lemma ReasonExclusive(s: State, id: RunId)
    requires Entries(s.active, s.runs, s.reasons, s.marked, s.lost)
    requires OneUnreasoned(s.active, s.reasons) && Clearing(s.pc, s.active, s.reasons) && Canceling(s.pc)
    ensures var s' := CancelHandleNext(s, id);
      OneUnreasoned(s'.active, s'.reasons) && Clearing(s'.pc, s'.active, s'.reasons)
  {
  }

  lemma CancelHandleKeeps(s: State, id: RunId)
    requires Inv(s) && Canceling(s.pc)
    ensures Inv(CancelHandleNext(s, id))
  {
    hide Rows, Entries, OneUnreasoned, Clearing, Ids;
    var r := if s.pc.Stopping? then Shutdown else Replacement;
    ReasonRows(s.runs, s.reasons, id, r);
    ReasonEntries(s, id, r);
    ReasonExclusive(s, id);
  }

  lemma ApplyPolicyKeeps(s: State, ok: bool)
    requires Inv(s) && s.pc.DueNext? && s.pc.due != []
    ensures Inv(ApplyPolicyNext(s, ok))
  {
    hide Rows, Starts, Entries, OneUnreasoned, Registering, Accounted, Ids;
    var s' := ApplyPolicyNext(s, ok);
    CancelKeeps(s, s.pc.due[0].id, s.pc.now);
    LoopMoves(s.(runs := s'.runs), s'.pc);
  }

  lemma InsertDueKeeps(s: State, inserted: bool, ok: bool)
    requires Inv(s) && LoopEnabled(s, InsertDue(inserted, ok))
    ensures Inv(InsertDueNext(s, inserted, ok))
  {
    hide Rows, Starts, Entries, OneUnreasoned, Registering, Accounted, Ids;
    var s' := InsertDueNext(s, inserted, ok);
    if inserted { InsertKeeps(s, s.pc.job.id, s.pc.job.nextRunAt, s.pc.now); }
    LoopMoves(s.(runs := s'.runs, nextRun := s'.nextRun), s'.pc);
  }

  lemma AdvanceDueKeeps(s: State, ok: bool, next: Option<Second>)
    requires Inv(s) && s.pc.DueAdvance?
    ensures Inv(AdvanceDueNext(s, ok, next))
  {
    hide Rows, Starts, Entries, OneUnreasoned, Registering, Accounted;
    var s' := AdvanceDueNext(s, ok, next);
    JobsKeep(s, s'.jobs, s.nextJob);
    LoopMoves(s.(jobs := s'.jobs), s'.pc);
  }

  lemma PassKeeps(s: State, e: LoopStep)
    requires Inv(s) && LoopEnabled(s, e)
    requires e.ListPending? || e.PassDone? || e.LoadJob? || e.PrepareStart? || e.CollectHandles? || e.HandlesDone?
    ensures Inv(LoopNext(s, e))
  {
    hide Rows, Starts, Entries, OneUnreasoned, Registering, Accounted;
    LoopMoves(s, LoopNext(s, e).pc);
  }

  lemma ReturnKeeps(s: State)
    requires Inv(s) && s.pc.Draining? && s.waitGroup == 0
    ensures Inv(s.(pc := Stopped(true)))
  {
    hide Rows, Starts, Entries, OneUnreasoned, Ids;
  }

  lemma LoopKeeps(s: State, e: LoopStep)
    requires Inv(s) && LoopEnabled(s, e)
    ensures Inv(LoopNext(s, e))
  {
    hide Rows, Starts, Entries, OneUnreasoned, Registering, Ids;
    match e
    case ApplyPolicy(ok) => ApplyPolicyKeeps(s, ok);
    case InsertDue(inserted, ok) => InsertDueKeeps(s, inserted, ok);
    case AdvanceDue(ok, next) => AdvanceDueKeeps(s, ok, next);
    case CancelHandle(id) => CancelHandleKeeps(s, id);
    case TryClaim(ok) => ClaimKeeps(s, ok);
    case MarkRunning(ok) => MarkKeeps(s, ok);
    case RegisterActive => RegisterKeeps(s);
    case Return => ReturnKeeps(s);
    case Tick => LoopMoves(s, LoopNext(s, e).pc);
    case ListDue(_) => LoopMoves(s, LoopNext(s, e).pc);
    case DueDone => LoopMoves(s, LoopNext(s, e).pc);
    case BeginStop => LoopMoves(s, LoopNext(s, e).pc);
    case _ => PassKeeps(s, e);
  }

  // ----- the completion goroutine -----

  lemma FinishedRows(runs: R.Table, reasons: Reasons, id: RunId, o: Outcome)
    requires R.Keyed(runs) && Rows(runs, reasons) && id in runs && runs[id].status == Running
    requires id in reasons && Carried(id, o, reasons)
    ensures Rows(R.Finished(runs, id, o), reasons)
  {
  }

  /** A change of one goroutine's phase, together with the row it owns. */
  lemma PhaseEntries(s: State, id: RunId, runs: R.Table, phase: Phase, lost: set<RunId>)
    requires Entries(s.active, s.runs, s.reasons, s.marked, s.lost) && s.lost <= lost
    requires id in s.active && PhaseShape(id, phase, s.reasons)
    requires forall x <- runs :: x in s.runs && runs[x].jobId == s.runs[x].jobId && (x == id || runs[x] == s.runs[x])
    requires id in runs ==> RowInPhase(runs[id], phase, id in lost)
    ensures Entries(InPhase(s, id, phase), runs, s.reasons, s.marked, lost)
  {
  }

  lemma PhaseExclusive(s: State, id: RunId, phase: Phase)
    requires OneUnreasoned(s.active, s.reasons) && Clearing(s.pc, s.active, s.reasons) && id in s.active
    ensures OneUnreasoned(InPhase(s, id, phase), s.reasons) && Clearing(s.pc, InPhase(s, id, phase), s.reasons)
  {
  }

  lemma PhaseKeeps(s: State, id: RunId, phase: Phase)
    requires Inv(s) && id in s.active && PhaseShape(id, phase, s.reasons)
    requires id in s.runs ==> RowInPhase(s.runs[id], phase, id in s.lost)
    ensures Inv(s.(active := InPhase(s, id, phase)))
  {
    hide Rows, Starts, Ids, Snapshots, Registering, Entries, OneUnreasoned, Clearing;
    PhaseEntries(s, id, s.runs, phase, s.lost);
    PhaseExclusive(s, id, phase);
  }

  lemma DecidedEntry(s: State, id: RunId)
    requires Entries(s.active, s.runs, s.reasons, s.marked, s.lost) && id in s.active && s.active[id].phase.Decided?
    ensures id in s.reasons && Carried(id, s.active[id].phase.final, s.reasons)
    ensures id in s.runs ==> s.runs[id].status == Running
  {
  }

  lemma PersistLoop(s: State, id: RunId, ok: bool)
    requires Registering(s.pc, s.runs, s.reasons, s.marked)
      && Accounted(s.pc, s.runs, s.nextRun, s.active, s.marked, s.lost)
    requires Snapshots(s.pc, s.runs, s.nextRun)
    requires id in s.active && s.active[id].phase.Decided? && id in s.reasons
      && s.active[id].phase.final.status.Terminal()
    ensures var s' := PersistNext(s, id, ok);
      && Registering(s.pc, s'.runs, s.reasons, s.marked)
        && Accounted(s.pc, s'.runs, s.nextRun, s'.active, s.marked, s'.lost)
      && Snapshots(s.pc, s'.runs, s.nextRun)
  {
  }

  lemma PersistKeeps(s: State, id: RunId, ok: bool)
    requires Inv(s) && id in s.active && s.active[id].phase.Decided?
    ensures Inv(PersistNext(s, id, ok))
  {
    hide Rows, Entries, Starts, OneUnreasoned, Clearing, Registering, Accounted, Snapshots;
    var final := s.active[id].phase.final;
    DecidedEntry(s, id);
    if ok && id in s.runs {
      FinishedRows(s.runs, s.reasons, id, final);
      PhaseEntries(s, id, R.Finished(s.runs, id, final), Persisted(final), s.lost);
      PhaseExclusive(s, id, Persisted(final));
    } else {
      PhaseEntries(s, id, s.runs, Done(false), PersistNext(s, id, ok).lost);
      PhaseExclusive(s, id, Done(false));
    }
    PersistLoop(s, id, ok);
  }

  lemma UnregisterExclusive(s: State, id: RunId)
    requires OneUnreasoned(s.active, s.reasons) && Clearing(s.pc, s.active, s.reasons)
    ensures OneUnreasoned(s.active - {id}, s.reasons) && Clearing(s.pc, s.active - {id}, s.reasons)
  {
  }

  lemma UnregisterKeeps(s: State, id: RunId)
    requires Inv(s) && id in s.active && s.active[id].phase.Done?
    ensures Inv(s.(active := s.active - {id}, leaving := s.leaving + 1))
  {
    hide Rows, Starts, Ids, Snapshots, Registering, OneUnreasoned, Clearing;
    UnregisterExclusive(s, id);
  }

  lemma SummariseKeeps(s: State, id: RunId, ok: bool)
    requires Inv(s) && RunEnabled(s, id, Summarise(ok))
    ensures Inv(RunNext(s, id, Summarise(ok)))
  {
    hide Rows, Starts, OneUnreasoned, Snapshots, Registering, Accounted, Clearing;
    var final := s.active[id].phase.final;
    PhaseKeeps(s, id, Summarised(final));
    var s' := s.(active := InPhase(s, id, Summarised(final)));
    JobsKeep(s', J.SummaryUpdated(s.jobs, s.active[id].job, final.finishedAt, final.status), s.nextJob);
  }

  lemma RunKeeps(s: State, id: RunId, e: RunStep)
    requires Inv(s) && RunEnabled(s, id, e)
    ensures Inv(RunNext(s, id, e))
  {
    hide Rows, Starts, OneUnreasoned, Snapshots, Registering, Accounted, Clearing, Ids;
    match e
    case Execute(result) => PhaseKeeps(s, id, Executed(result));
    case Decide => PhaseKeeps(s, id, Decided(Final(s.active[id].phase.result, s.reasons[id])));
    case Persist(ok) => PersistKeeps(s, id, ok);
    case Summarise(ok) => SummariseKeeps(s, id, ok);
    case Notify => PhaseKeeps(s, id, Done(true));
    case Unregister => UnregisterKeeps(s, id);
  }

  // ----- the command line, and the whole system -----

  lemma CliKeeps(s: State, e: CliStep)
    requires Inv(s) && CliEnabled(s, e)
    ensures Inv(CliNext(s, e))
  {
    hide Rows, Starts, Entries, OneUnreasoned, Snapshots, Registering, Accounted, Clearing;
    match e
    case AddJob(row) => JobsKeep(s, s.jobs[row.id := row], s.nextJob + 1);
    case WriteJob(row) => JobsKeep(s, J.Updated(s.jobs, row), s.nextJob);
    case DeleteJob(job) => RemoveJobKeeps(s, job);
    case CancelPending(job, at) => CancelKeeps(s, job, at);
    case InsertManual(job, at) => InsertKeeps(s, job, None, at);
    case RunJob(job) => RunJobKeeps(s, job);
  }

  lemma RunJobKeeps(s: State, job: JobId)
    requires Inv(s) && job in s.jobs
    ensures Inv(CliNext(s, RunJob(job)))
  {
    hide Inv, R.HasUnfinished, R.PendingCanceled, R.Inserted;
    CancelKeeps(s, job, s.clock);
    InsertKeeps(s, job, None, s.clock);
    InsertKeeps(s.(runs := R.PendingCanceled(s.runs, job, s.clock)), job, None, s.clock);
  }

  lemma CrashKeeps(s: State)
    requires Inv(s)
    ensures Inv(Next(s, Crash))
  {
    hide Rows, Starts, Ids;
  }

  lemma StepKeeps(s: State, e: Step)
    requires Inv(s) && Enabled(s, e)
    ensures Inv(Next(s, e))
  {
    hide Rows, Starts, OneUnreasoned, Ids;
    match e
    case Loop(l) => LoopKeeps(s, l);
    case Completion(id, r) => RunKeeps(s, id, r);
    case Cli(c) => CliKeeps(s, c);
    case Crash => CrashKeeps(s);
    case _ =>
  }

  /** Every state of every behaviour satisfies the invariant. */
  lemma {:induction false} Reachable(ss: seq<State>, es: seq<Step>, i: nat)
    requires Behaviour(ss, es) && i < |ss|
    ensures Inv(ss[i])
  {
    if i == 0 {
    } else {
      Reachable(ss, es, i - 1);
      StepKeeps(ss[i - 1], es[i - 1]);
    }
  }
}
