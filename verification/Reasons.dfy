/** Who is told to stop, when, and for what reason. */
module Reasons {
  import opened Domain
  import opened Protocol
  import opened Safety
  import Exclusion
  import RunLife
  import StartOrder
  import R = RunsStore
  import J = JobsStore

  // ----- replacement -----

  /** The check drops a listed run if and only if its job is not under replace and has an active run. */
  lemma PrepareDropsIff(ss: seq<State>, es: seq<Step>, i: nat)
    requires Behaviour(ss, es) && i < |es| && es[i] == Loop(PrepareStart)
    ensures var pc, pc' := ss[i].pc, ss[i + 1].pc;
      && (pc' == Pass(pc.rest) <==> pc.job.policy != Replace && HasActive(ss[i], pc.job.id))
      && (pc' == pc.(stage := Collect) <==> pc.job.policy == Replace && HasActive(ss[i], pc.job.id))
      && (pc' == pc.(stage := Claim) <==> !HasActive(ss[i], pc.job.id))
  {
    hide HasActive;
    assert Enabled(ss[i], es[i]) && ss[i + 1] == Next(ss[i], es[i]);
  }

  /** What is collected next is all active runs of the job, and the claim waits until each has been told. */
  lemma CollectsAll(ss: seq<State>, es: seq<Step>, i: nat)
    requires Behaviour(ss, es) && i < |es| && es[i] == Loop(CollectHandles)
    ensures ss[i + 1].pc.stage.Replacing?
    ensures forall id :: id in ss[i + 1].pc.stage.handles <==>
      id in ss[i].active && ss[i].active[id].job == ss[i].pc.job.id
  {
    assert Enabled(ss[i], es[i]) && ss[i + 1] == Next(ss[i], es[i]);
  }

  /** When a run starts, every other active run of its job has been told to stop. */
  lemma ToldBeforeStart(ss: seq<State>, es: seq<Step>, i: nat, id: RunId)
    requires Behaviour(ss, es) && i < |es| && es[i] == Loop(RegisterActive)
    requires id in ss[i].active && ss[i].active[id].job == ss[i].pc.run.jobId
    ensures id in ss[i].reasons && ss[i].reasons[id] != NoReason && id != ss[i].pc.run.id
  {
    hide Next;
    Reachable(ss, es, i);
    assert Enabled(ss[i], es[i]);
    RegisterClear(ss[i], id);
  }

  lemma RegisterClear(s: State, id: RunId)
    requires Inv(s) && At(s.pc, Register) && id in s.active && s.active[id].job == s.pc.run.jobId
    ensures id in s.reasons && s.reasons[id] != NoReason && id != s.pc.run.id
  {
    hide Ids, Rows, Starts, OneUnreasoned, Accounted;
  }

  /** Only a job under replace is taken to the collection. */
  predicate ReplacesOnly(pc: Pc) {
    pc.Handling? && (pc.stage == Collect || pc.stage.Replacing?) ==> pc.job.policy == Replace
  }

  lemma StepReplacesOnly(s: State, e: Step)
    requires Enabled(s, e) && ReplacesOnly(s.pc)
    ensures ReplacesOnly(Next(s, e).pc)
  {
    hide LoopNext, RunNext, CliNext, LoopEnabled, RunEnabled, CliEnabled, HasActive;
    match e
    case Loop(l) => if LoopNext(s, l).pc.Handling? { Exclusion.HandlingMoves(s, l); }
    case Completion(id, r) => StartOrder.RunNextRun(s, id, r);
    case Cli(c) => RunLife.CliFrame(s, c);
    case _ =>
  }

  lemma {:induction false} StaysReplacesOnly(ss: seq<State>, es: seq<Step>, i: nat)
    requires Behaviour(ss, es) && i < |ss|
    ensures ReplacesOnly(ss[i].pc)
  {
    hide Next, Enabled, ReplacesOnly;
    if i == 0 {
      assert ReplacesOnly(FRESH.pc) by { FreshReplaces(); }
    } else {
      StaysReplacesOnly(ss, es, i - 1);
      StepReplacesOnly(ss[i - 1], es[i - 1]);
    }
  }

  lemma FreshReplaces()
    ensures ReplacesOnly(FRESH.pc)
  {
  }

  // ----- where a reason comes from -----

  /** The step sets the reason of a run that had none. */
  predicate Tells(s: State, e: Step, id: RunId, r: Reason) {
    && e == Loop(CancelHandle(id)) && Canceling(s.pc) && id in Targets(s.pc) && id in s.reasons
      && s.reasons[id] == NoReason
    && r == (if s.pc.Stopping? then Shutdown else Replacement)
  }

  lemma LoopTells(s: State, e: LoopStep, id: RunId)
    requires LoopEnabled(s, e) && id in LoopNext(s, e).reasons && LoopNext(s, e).reasons[id] != NoReason
    ensures (id in s.reasons && s.reasons[id] == LoopNext(s, e).reasons[id])
      || Tells(s, Loop(e), id, LoopNext(s, e).reasons[id])
  {
    hide Moved, ApplyPolicyNext, InsertDueNext, AdvanceDueNext, TryClaimNext, MarkRunningNext;
    match e
    case ApplyPolicy(ok) => DueReasons(s, ok, false, None);
    case InsertDue(inserted, ok) => DueReasons(s, ok, inserted, None);
    case AdvanceDue(ok, next) => DueReasons(s, ok, false, next);
    case TryClaim(ok) => ClaimReasons(s, ok);
    case MarkRunning(ok) => ClaimReasons(s, ok);
    case _ =>
  }

  lemma DueReasons(s: State, ok: bool, inserted: bool, next: Option<Second>)
    ensures s.pc.DueNext? && s.pc.due != [] ==> ApplyPolicyNext(s, ok).reasons == s.reasons
    ensures s.pc.DueInsert? ==> InsertDueNext(s, inserted, ok).reasons == s.reasons
    ensures s.pc.DueAdvance? ==> AdvanceDueNext(s, ok, next).reasons == s.reasons
  {
    hide R.HasUnfinished, R.PendingCanceled, R.Inserted, J.Updated, J.NextRunUpdated;
  }

  lemma ClaimReasons(s: State, ok: bool)
    requires s.pc.Handling?
    ensures TryClaimNext(s, ok).reasons == s.reasons && MarkRunningNext(s, ok).reasons == s.reasons
  {
    hide R.Claimable, R.Claimed, R.Started;
  }

  lemma RunReasons(s: State, id: RunId, e: RunStep)
    requires RunEnabled(s, id, e)
    ensures RunNext(s, id, e).reasons == s.reasons
  {
  }

  lemma StepTells(s: State, e: Step, id: RunId)
    requires Enabled(s, e) && id in Next(s, e).reasons && Next(s, e).reasons[id] != NoReason
    ensures (id in s.reasons && s.reasons[id] == Next(s, e).reasons[id]) || Tells(s, e, id, Next(s, e).reasons[id])
  {
    hide LoopNext, RunNext, CliNext, LoopEnabled, RunEnabled, CliEnabled, Tells;
    match e
    case Loop(l) => LoopTells(s, l, id);
    case Completion(r, c) => RunReasons(s, r, c);
    case Cli(c) => RunLife.CliFrame(s, c);
    case _ =>
  }

  /**
    A run's reason was set by one step: replacement while the loop was taking up a run of a job under replace,
    shutdown while it was stopping.
   */
  lemma {:induction false} ReasonOrigin(ss: seq<State>, es: seq<Step>, i: nat, id: RunId) returns (k: nat)
    requires Behaviour(ss, es) && i < |ss| && id in ss[i].reasons && ss[i].reasons[id] != NoReason
    ensures k < i && Tells(ss[k], es[k], id, ss[i].reasons[id])
    ensures ss[i].reasons[id] == Replacement ==> ss[k].pc.Handling? && ss[k].pc.job.policy == Replace
    ensures ss[i].reasons[id] == Shutdown ==> ss[k].pc.Stopping?
  {
    hide Next, Enabled;
    StepTells(ss[i - 1], es[i - 1], id);
    if id in ss[i - 1].reasons && ss[i - 1].reasons[id] == ss[i].reasons[id] {
      k := ReasonOrigin(ss, es, i - 1, id);
    } else {
      k := i - 1;
      StaysReplacesOnly(ss, es, k);
    }
  }

  // ----- shutdown -----

  /** Stopping, an active run has a reason or is still to be told; draining, each has one. */
  ghost predicate StopTells(s: State) {
    s.pc.Stopping? || s.pc.Draining? ==>
      forall id <- s.active :: id in s.reasons && (s.reasons[id] != NoReason || (s.pc.Stopping? && id in s.pc.handles))
  }

  lemma LoopStopTells(s: State, e: LoopStep)
    requires LoopEnabled(s, e) && StopTells(s) && forall id <- s.active :: id in s.reasons
    ensures StopTells(LoopNext(s, e))
  {
    RunLife.LoopFrame(s, e);
    if LoopNext(s, e).pc.Stopping? || LoopNext(s, e).pc.Draining? { StopMoves(s, e); }
    hide LoopNext, LoopEnabled;
  }

  /** The steps that concern a stopping loop. */
  lemma StopMoves(s: State, e: LoopStep)
    requires LoopEnabled(s, e) && (LoopNext(s, e).pc.Stopping? || LoopNext(s, e).pc.Draining?)
    ensures !e.RegisterActive?
    ensures e.BeginStop? ==> LoopNext(s, e).pc == Stopping(s.active.Keys) && LoopNext(s, e).reasons == s.reasons
    ensures e.HandlesDone? ==>
      s.pc == Stopping({}) && LoopNext(s, e).pc.Draining? && LoopNext(s, e).reasons == s.reasons
    ensures !e.BeginStop? && !e.HandlesDone? ==>
      e.CancelHandle? && s.pc.Stopping? && LoopNext(s, e).pc == Stopping(s.pc.handles - {e.id})
      && LoopNext(s, e).reasons == SetReason(s.reasons, e.id, Shutdown)
  {
    hide Moved, ApplyPolicyNext, InsertDueNext, AdvanceDueNext, TryClaimNext, MarkRunningNext, RegisterNext, SetReason;
    if OnlyMoves(e) {
      StopMoved(s, e);
    } else if !e.CancelHandle? {
      NoneStops(s, e);
    }
  }

  lemma StopMoved(s: State, e: LoopStep)
    requires LoopEnabled(s, e) && OnlyMoves(e) && (Moved(s, e).Stopping? || Moved(s, e).Draining?)
    ensures e.BeginStop? ==> Moved(s, e) == Stopping(s.active.Keys)
    ensures e.HandlesDone? ==> s.pc == Stopping({}) && Moved(s, e).Draining?
    ensures e.BeginStop? || e.HandlesDone?
  {
    hide R.IsPage, J.IsDueList, HasActive, Handles;
  }

  predicate Stops(pc: Pc) { pc.Stopping? || pc.Draining? }

  lemma DueStops(s: State, ok: bool, inserted: bool, next: Option<Second>)
    ensures s.pc.DueNext? && s.pc.due != [] ==> !Stops(ApplyPolicyNext(s, ok).pc)
    ensures s.pc.DueInsert? ==> !Stops(InsertDueNext(s, inserted, ok).pc)
    ensures s.pc.DueAdvance? ==> !Stops(AdvanceDueNext(s, ok, next).pc)
  {
    hide R.HasUnfinished, R.PendingCanceled, R.Inserted, J.Updated, J.NextRunUpdated;
  }

  lemma PassStops(s: State, ok: bool)
    requires s.pc.Handling?
    ensures !Stops(TryClaimNext(s, ok).pc) && !Stops(MarkRunningNext(s, ok).pc) && !Stops(RegisterNext(s).pc)
  {
    hide R.Claimable, R.Claimed, R.Started;
  }

  lemma NoneStops(s: State, e: LoopStep)
    requires LoopEnabled(s, e) && !OnlyMoves(e) && !e.CancelHandle?
    ensures !Stops(LoopNext(s, e).pc)
  {
    hide Stops, ApplyPolicyNext, InsertDueNext, AdvanceDueNext, TryClaimNext, MarkRunningNext, RegisterNext;
    match e
    case ApplyPolicy(ok) => DueStops(s, ok, false, None);
    case InsertDue(inserted, ok) => DueStops(s, ok, inserted, None);
    case AdvanceDue(ok, next) => DueStops(s, ok, false, next);
    case TryClaim(ok) => PassStops(s, ok);
    case MarkRunning(ok) => PassStops(s, ok);
    case RegisterActive => PassStops(s, false);
  }

  lemma RunStopTells(s: State, id: RunId, e: RunStep)
    requires RunEnabled(s, id, e) && StopTells(s)
    ensures StopTells(RunNext(s, id, e))
  {
    RunReasons(s, id, e);
    StartOrder.RunNextRun(s, id, e);
    assert RunNext(s, id, e).active.Keys <= s.active.Keys by { RunKeys(s, id, e); }
    hide RunNext, RunEnabled;
  }

  lemma RunKeys(s: State, id: RunId, e: RunStep)
    requires RunEnabled(s, id, e)
    ensures RunNext(s, id, e).active.Keys <= s.active.Keys
  {
    hide R.Finished, Final;
  }

  lemma StepStopTells(s: State, e: Step)
    requires Inv(s) && Enabled(s, e) && StopTells(s)
    ensures StopTells(Next(s, e))
  {
    Known(s);
    hide Inv, LoopNext, RunNext, CliNext, LoopEnabled, RunEnabled, CliEnabled;
    match e
    case Loop(l) => hide StopTells; LoopStopTells(s, l);
    case Completion(id, r) => hide StopTells; RunStopTells(s, id, r);
    case Cli(c) => RunLife.CliFrame(s, c);
    case _ =>
  }

  lemma Known(s: State)
    requires Inv(s)
    ensures forall id <- s.active :: id in s.reasons
  {
    hide Ids, Rows, Starts, OneUnreasoned, Snapshots, Registering, Accounted, Clearing;
  }

  /** Once the loop waits for its goroutines, every run still active has been told to stop. */
  lemma {:induction false} ShutdownTellsAll(ss: seq<State>, es: seq<Step>, i: nat)
    requires Behaviour(ss, es) && i < |ss|
    ensures StopTells(ss[i])
  {
    hide Inv, Next, Enabled;
    if i == 0 {
    } else {
      hide StopTells;
      ShutdownTellsAll(ss, es, i - 1);
      Reachable(ss, es, i - 1);
      StepStopTells(ss[i - 1], es[i - 1]);
    }
  }
}
