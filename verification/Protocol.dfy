/**
  The run protocol as a step system. A step is one SQL statement or one critical section of
  one actor: the loop goroutine, the completion goroutine of a run, a command line process, or
  the daemon process itself starting or dying. Each step carries what the model does not
  compute: whether the store call succeeded, the executor's result, a time.
 */
module Protocol {
  import opened Domain
  import R = RunsStore
  import J = JobsStore

  datatype Reason = NoReason | Replacement | Shutdown

  /** Where a completion goroutine is. */
  datatype Phase =
    | Executing
    | Executed(result: Outcome)
    | Decided(final: Outcome)        // the reason has been read, MarkFinished is next
    | Persisted(final: Outcome)      // MarkFinished committed
    | Summarised(final: Outcome)     // the job's last-run columns were offered the outcome
    | Done(stored: bool)             // hook delivered, or the early return after a failed MarkFinished

  datatype Active = Active(job: JobId, phase: Phase)

  /** What the loop does next with the pending run it is handling. */
  datatype Stage =
    | Prepare
    | Collect
    | Replacing(handles: set<RunId>)
    | Claim
    | Mark
    | Register

  /** Where the loop goroutine is; a pass keeps the rows its listing returned. */
  datatype Pc =
    | Stopped(graceful: bool)
    | Waiting
    | DueList(now: Second)
    | DueNext(due: seq<Job>, now: Second)
    | DueInsert(job: Job, due: seq<Job>, now: Second)
    | DueAdvance(job: Job, due: seq<Job>, now: Second)
    | PendingList
    | Pass(rest: seq<Run>)
    | Handling(stage: Stage, job: Job, run: Run, rest: seq<Run>)
    | Stopping(handles: set<RunId>)
    | Draining

  /**
    `reasons` is the Reason field of every activeRun object ever registered: an object outlives
    its entry in the map while the loop still holds it in a list of handles. The last five fields
    are history, written but never read by the steps.
   */
  datatype State = State(
    jobs: J.Table,
    runs: R.Table,
    nextJob: JobId,
    nextRun: RunId,
    active: map<RunId, Active>,
    leaving: nat,                    // goroutines that left the map and have not called wg.Done
    waitGroup: int,
    clock: Second,
    pc: Pc,
    runner: nat,                     // identifies the current incarnation of the loop
    reasons: map<RunId, Reason>,
    starts: seq<Run>,                // every run registered for execution, in order
    marked: set<RunId>,              // set running by the current incarnation
    lost: set<RunId>,                // MarkFinished failed although the row was there
    lastFinished: map<JobId, Outcome>
  )

  const FRESH := State(map[], map[], 1, 1, map[], 0, 0, 0, Stopped(true), 0, map[], [], {}, {}, map[])

  datatype LoopStep =
    | Tick
    | ListDue(due: Option<seq<Job>>)
    | DueDone
    | ApplyPolicy(ok: bool)
    | InsertDue(inserted: bool, ok: bool)
    | AdvanceDue(ok: bool, next: Option<Second>)
    | ListPending(limit: nat, page: Option<seq<Run>>)
    | PassDone
    | LoadJob(ok: bool)
    | PrepareStart
    | CollectHandles
    | CancelHandle(id: RunId)
    | HandlesDone
    | TryClaim(ok: bool)
    | MarkRunning(ok: bool)
    | RegisterActive
    | BeginStop
    | Return

  datatype RunStep =
    | Execute(result: Outcome)
    | Decide
    | Persist(ok: bool)
    | Summarise(ok: bool)
    | Notify
    | Unregister

  datatype CliStep =
    | AddJob(row: Job)
    | WriteJob(row: Job)             // the write half of update, pause and resume
    | DeleteJob(job: JobId)
    | CancelPending(job: JobId, at: Second)
    | InsertManual(job: JobId, at: Second)
    | RunJob(job: JobId)             // `job run` with its policy check and insert in one step

  datatype Step =
    | Loop(loop: LoopStep)
    | Completion(id: RunId, run: RunStep)
    | WgDone
    | Cli(cli: CliStep)
    | Clock(to: Second)
    | Start
    | Crash

  // ----- the loop goroutine -----

  predicate At(pc: Pc, stage: Stage) {
    pc.Handling? && pc.stage == stage
  }

  predicate Canceling(pc: Pc) {
    pc.Stopping? || (pc.Handling? && pc.stage.Replacing?)
  }

  /** The activeRun objects a canceling loop still has to set a reason on. */
  function Targets(pc: Pc): set<RunId>
    requires Canceling(pc)
  {
    if pc.Stopping? then pc.handles else pc.stage.handles
  }

  function WithoutTarget(pc: Pc, id: RunId): Pc
    requires Canceling(pc)
  {
    if pc.Stopping? then Stopping(pc.handles - {id}) else pc.(stage := Replacing(pc.stage.handles - {id}))
  }

  predicate HasActive(s: State, job: JobId) {
    exists id <- s.active :: s.active[id].job == job
  }

  function Handles(s: State, job: JobId): set<RunId> {
    set id <- s.active | s.active[id].job == job
  }

  /** setReason: the first reason wins. */
  function SetReason(reasons: map<RunId, Reason>, id: RunId, r: Reason): map<RunId, Reason> {
    if id in reasons && reasons[id] == NoReason then reasons[id := r] else reasons
  }

  predicate LoopEnabled(s: State, e: LoopStep) {
    match e
    case Tick => s.pc.Waiting?
    case ListDue(due) => s.pc.DueList? && (due.Some? ==> J.IsDueList(s.jobs, s.pc.now, due.value))
    case DueDone => s.pc.DueNext? && s.pc.due == []
    case ApplyPolicy(ok) => s.pc.DueNext? && s.pc.due != []
    case InsertDue(inserted, ok) =>
      s.pc.DueInsert? && (ok ==> inserted) && (inserted ==> s.pc.job.id in s.jobs && s.pc.job.nextRunAt.Some?)
    case AdvanceDue(ok, next) => s.pc.DueAdvance?
    case ListPending(limit, page) =>
      s.pc.PendingList? && 0 < limit && (page.Some? ==> R.IsPage(s.runs, limit, page.value))
    case PassDone => s.pc.Pass? && s.pc.rest == []
    case LoadJob(ok) => s.pc.Pass? && s.pc.rest != []
    case PrepareStart => At(s.pc, Prepare)
    case CollectHandles => At(s.pc, Collect)
    case CancelHandle(id) => Canceling(s.pc) && id in Targets(s.pc)
    case HandlesDone => Canceling(s.pc) && Targets(s.pc) == {}
    case TryClaim(ok) => At(s.pc, Claim)
    case MarkRunning(ok) => At(s.pc, Mark)
    case RegisterActive => At(s.pc, Register)
    case BeginStop => s.pc.Waiting?
    case Return => s.pc.Draining? && s.waitGroup == 0
  }

  /** The steps that read the stores or the map and only decide where the loop goes next. */
  predicate OnlyMoves(e: LoopStep) {
    || e.Tick? || e.ListDue? || e.DueDone? || e.ListPending? || e.PassDone? || e.LoadJob?
    || e.PrepareStart? || e.CollectHandles? || e.HandlesDone? || e.BeginStop? || e.Return?
  }

  function Moved(s: State, e: LoopStep): Pc
    requires LoopEnabled(s, e) && OnlyMoves(e)
  {
    match e
    case Tick => DueList(s.clock)
    case ListDue(due) => if due.Some? then DueNext(due.value, s.pc.now) else PendingList
    case DueDone => PendingList
    case ListPending(limit, page) => if page.Some? then Pass(page.value) else Waiting
    case PassDone => Waiting
    case LoadJob(ok) =>
      var run := s.pc.rest[0];
      if ok && run.jobId in s.jobs then Handling(Prepare, s.jobs[run.jobId], run, s.pc.rest[1..])
        else Pass(s.pc.rest[1..])
    case PrepareStart =>
      if !HasActive(s, s.pc.job.id) then s.pc.(stage := Claim)
      else if s.pc.job.policy == Replace then s.pc.(stage := Collect)
      else Pass(s.pc.rest)
    case CollectHandles => s.pc.(stage := Replacing(Handles(s, s.pc.job.id)))
    case HandlesDone => if s.pc.Stopping? then Draining else s.pc.(stage := Claim)
    case BeginStop => Stopping(s.active.Keys)
    case Return => Stopped(true)
  }

  function LoopNext(s: State, e: LoopStep): State
    requires LoopEnabled(s, e)
  {
    match e
    case ApplyPolicy(ok) => ApplyPolicyNext(s, ok)
    case InsertDue(inserted, ok) => InsertDueNext(s, inserted, ok)
    case AdvanceDue(ok, next) => AdvanceDueNext(s, ok, next)
    case CancelHandle(id) => CancelHandleNext(s, id)
    case TryClaim(ok) => TryClaimNext(s, ok)
    case MarkRunning(ok) => MarkRunningNext(s, ok)
    case RegisterActive => RegisterNext(s)
    case _ => s.(pc := Moved(s, e))
  }

  /** The policy branch of EnqueueScheduledWithPolicy, up to its insert. */
  function ApplyPolicyNext(s: State, ok: bool): State
    requires s.pc.DueNext? && s.pc.due != []
  {
    var job, due, now := s.pc.due[0], s.pc.due[1..], s.pc.now;
    match job.policy
    case Forbid =>
      s.(pc := if !ok then DueNext(due, now)
               else if R.HasUnfinished(s.runs, job.id) then DueAdvance(job, due, now)
               else DueInsert(job, due, now))
    case Queue => s.(pc := DueInsert(job, due, now))
    case Replace =>
      if !ok then s.(pc := DueNext(due, now))
      else s.(runs := R.PendingCanceled(s.runs, job.id, now), pc := DueInsert(job, due, now))
  }

  function InsertDueNext(s: State, inserted: bool, ok: bool): State
    requires s.pc.DueInsert?
  {
    s.(runs := if inserted then R.Inserted(s.runs, s.nextRun, s.pc.job.id, s.pc.job.nextRunAt, s.pc.now) else s.runs,
       nextRun := if inserted then s.nextRun + 1 else s.nextRun,
       pc := if ok then DueAdvance(s.pc.job, s.pc.due, s.pc.now) else DueNext(s.pc.due, s.pc.now))
  }

  /** advanceScheduleState: a once job writes back the whole row the listing returned. */
  function AdvanceDueNext(s: State, ok: bool, next: Option<Second>): State
    requires s.pc.DueAdvance?
  {
    var job := s.pc.job;
    s.(jobs := if !ok then s.jobs
               else if job.kind == Once then J.Updated(s.jobs, job.(enabled := false, nextRunAt := None))
               else J.NextRunUpdated(s.jobs, job.id, next),
       pc := DueNext(s.pc.due, s.pc.now))
  }

  function CancelHandleNext(s: State, id: RunId): State
    requires Canceling(s.pc)
  {
    s.(reasons := SetReason(s.reasons, id, if s.pc.Stopping? then Shutdown else Replacement),
       pc := WithoutTarget(s.pc, id))
  }

  function TryClaimNext(s: State, ok: bool): State
    requires s.pc.Handling?
  {
    if ok && R.Claimable(s.runs, s.pc.run.id) then
      s.(runs := R.Claimed(s.runs, s.pc.run.id, s.runner), pc := s.pc.(stage := Mark))
    else s.(pc := Pass(s.pc.rest))
  }

  function MarkRunningNext(s: State, ok: bool): State
    requires s.pc.Handling?
  {
    var id := s.pc.run.id;
    if ok && id in s.runs && s.runs[id].status == Pending then
      s.(runs := R.Started(s.runs, id, s.clock), marked := s.marked + {id}, pc := s.pc.(stage := Register))
    else s.(pc := Pass(s.pc.rest))
  }

  /** The critical section of startRunExecution. */
  function RegisterNext(s: State): State
    requires s.pc.Handling?
  {
    var run := s.pc.run;
    s.(active := s.active[run.id := Active(run.jobId, Executing)],
       reasons := s.reasons[run.id := NoReason],
       waitGroup := s.waitGroup + 1,
       starts := s.starts + [run],
       pc := Pass(s.pc.rest))
  }

  // ----- the completion goroutine of one run -----

  predicate RunEnabled(s: State, id: RunId, e: RunStep) {
    && id in s.active
    && id in s.reasons
    && var phase := s.active[id].phase;
       match e
       case Execute(result) => phase.Executing? && (result.status == Succeeded || result.status == Failed)
       case Decide => phase.Executed?
       case Persist(ok) => phase.Decided?
       case Summarise(ok) => phase.Persisted?
       case Notify => phase.Summarised?
       case Unregister => phase.Done?
  }

  const REPLACED_MESSAGE := "canceled by replacement"
  const SHUTDOWN_MESSAGE := "canceled by shutdown"

  function ReasonMessage(r: Reason): string
    requires r != NoReason
  {
    if r == Replacement then REPLACED_MESSAGE else SHUTDOWN_MESSAGE
  }

  /** The status and message MarkFinished is given, once the reason has been read. */
  function Final(result: Outcome, r: Reason): Outcome {
    if r == NoReason then result else result.(status := Canceled, message := Some(ReasonMessage(r)))
  }

  function InPhase(s: State, id: RunId, phase: Phase): map<RunId, Active>
    requires id in s.active
  {
    s.active[id := s.active[id].(phase := phase)]
  }

  function RunNext(s: State, id: RunId, e: RunStep): State
    requires RunEnabled(s, id, e)
  {
    var a := s.active[id];
    match e
    case Execute(result) => s.(active := InPhase(s, id, Executed(result)))
    case Decide => s.(active := InPhase(s, id, Decided(Final(a.phase.result, s.reasons[id]))))
    case Persist(ok) => PersistNext(s, id, ok)
    case Summarise(ok) =>
      s.(jobs := if ok then J.SummaryUpdated(s.jobs, a.job, a.phase.final.finishedAt, a.phase.final.status) else s.jobs,
         active := InPhase(s, id, Summarised(a.phase.final)))
    case Notify => s.(active := InPhase(s, id, Done(true)))
    case Unregister => s.(active := s.active - {id}, leaving := s.leaving + 1)
  }

  /** MarkFinished, and the early return when it fails. */
  function PersistNext(s: State, id: RunId, ok: bool): State
    requires id in s.active && s.active[id].phase.Decided?
  {
    var final := s.active[id].phase.final;
    if ok && id in s.runs then
      s.(runs := R.Finished(s.runs, id, final), active := InPhase(s, id, Persisted(final)),
         lastFinished := s.lastFinished[s.active[id].job := final])
    else
      s.(active := InPhase(s, id, Done(false)), lost := if id in s.runs then s.lost + {id} else s.lost)
  }

  // ----- the command line -----

  predicate CliEnabled(s: State, e: CliStep) {
    match e
    case AddJob(row) => row.id == s.nextJob && row.lastRunAt == None && row.lastRunStatus == None
    case WriteJob(row) => row.id in s.jobs
    case DeleteJob(job) => job in s.jobs
    case CancelPending(job, at) => true
    case InsertManual(job, at) => job in s.jobs
    case RunJob(job) => job in s.jobs
  }

  function CliNext(s: State, e: CliStep): State
    requires CliEnabled(s, e)
  {
    match e
    case AddJob(row) => s.(jobs := s.jobs[row.id := row], nextJob := s.nextJob + 1)
    case WriteJob(row) => s.(jobs := J.Updated(s.jobs, row))
    case DeleteJob(job) => s.(jobs := s.jobs - {job}, runs := R.JobRemoved(s.runs, job))
    case CancelPending(job, at) => s.(runs := R.PendingCanceled(s.runs, job, at))
    case InsertManual(job, at) => ManualInserted(s, job, at)
    case RunJob(job) =>
      match s.jobs[job].policy
      case Forbid => if R.HasUnfinished(s.runs, job) then s else ManualInserted(s, job, s.clock)
      case Queue => ManualInserted(s, job, s.clock)
      case Replace => ManualInserted(s.(runs := R.PendingCanceled(s.runs, job, s.clock)), job, s.clock)
  }

  function ManualInserted(s: State, job: JobId, at: Second): State {
    s.(runs := R.Inserted(s.runs, s.nextRun, job, None, at), nextRun := s.nextRun + 1)
  }

  // ----- the whole system -----

  predicate Enabled(s: State, e: Step) {
    match e
    case Loop(l) => LoopEnabled(s, l)
    case Completion(id, r) => RunEnabled(s, id, r)
    case WgDone => s.leaving > 0
    case Cli(c) => CliEnabled(s, c)
    case Clock(to) => true
    case Start => s.pc.Stopped?
    case Crash => true
  }

  function Next(s: State, e: Step): State
    requires Enabled(s, e)
  {
    match e
    case Loop(l) => LoopNext(s, l)
    case Completion(id, r) => RunNext(s, id, r)
    case WgDone => s.(leaving := s.leaving - 1, waitGroup := s.waitGroup - 1)
    case Cli(c) => CliNext(s, c)
    case Clock(to) => s.(clock := to)
    case Start => s.(pc := Waiting, runner := s.runner + 1, marked := {})
    case Crash => s.(pc := Stopped(false), active := map[], leaving := 0, waitGroup := 0)
  }

  /** A behaviour: states ss and the steps between them, from a fresh instance. */
  ghost predicate Behaviour(ss: seq<State>, es: seq<Step>) {
    && |ss| == |es| + 1
    && ss[0] == FRESH
    && forall i :: 0 <= i < |es| ==> Enabled(ss[i], es[i]) && ss[i + 1] == Next(ss[i], es[i])
  }
}
