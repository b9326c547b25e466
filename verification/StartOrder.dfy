/** Exactly when the runs of a job have started out of queue order, whatever its policy. */
module StartOrder {
  import opened Domain
  import opened Protocol
  import opened Safety
  import opened Order
  import opened QueueOrder
  import RunLife
  import Stranded
  import R = RunsStore
  import J = JobsStore

  // ----- what passes what -----

  /** The row a step adds to the runs table. */
  datatype Addition = Addition(job: JobId, at: Second)

  function Adds(s: State, e: Step): Option<Addition> {
    match e
    case Loop(InsertDue(inserted, _)) => if s.pc.DueInsert? && inserted then Some(Addition(s.pc.job.id, s.pc.now))
      else None
    case Cli(InsertManual(job, at)) => Some(Addition(job, at))
    case Cli(RunJob(job)) =>
      if job !in s.jobs || (s.jobs[job].policy == Forbid && R.HasUnfinished(s.runs, job)) then None
      else Some(Addition(job, s.clock))
    case _ => None
  }

  predicate Holding(pc: Pc, x: Run) { Taken(pc) && pc.run == x }

  predicate StartedId(starts: seq<Run>, id: RunId) {
    exists a :: 0 <= a < |starts| && starts[a].id == id
  }

  /** A claim of x overtakes the row of y, which is claimable and was queued before. */
  predicate Overtakes(s: State, e: Step, x: Run, y: RunId, job: JobId) {
    && e == Loop(TryClaim(true)) && At(s.pc, Claim) && s.pc.run == x && x.jobId == job && R.Claimable(s.runs, x.id)
    && R.Claimable(s.runs, y) && s.runs[y].jobId == job && R.Before(s.runs[y], x)
  }

  /** The row of y is added with a queue time before that of x, which has started, or is claimed and in hand. */
  predicate AddedBehind(s: State, e: Step, x: Run, y: RunId, job: JobId) {
    && Adds(s, e).Some? && Adds(s, e).value.job == job && y == s.nextRun
    && x.jobId == job && (x in s.starts || Holding(s.pc, x)) && Adds(s, e).value.at < x.queuedAt
  }

  predicate Passes(s: State, e: Step, x: Run, y: RunId, job: JobId) {
    Overtakes(s, e, x, y, job) || AddedBehind(s, e, x, y, job)
  }

  /** Two started runs of the job, the later started one queued earlier. */
  predicate OutOfOrder(starts: seq<Run>, job: JobId) {
    exists a, b ::
      0 <= a < b < |starts| && starts[a].jobId == job && starts[b].jobId == job && R.Before(starts[b], starts[a])
  }

  // ----- what one step does to the rows -----

  /**
    Apart from the one added, a row keeps its job and queue time, and is claimable only if it already was, as it is.
   */
  ghost predicate Grows(s: State, e: Step, s': State) {
    && Narrows(s.runs, s'.runs - {s.nextRun})
    && s'.nextRun == (if Adds(s, e).Some? then s.nextRun + 1 else s.nextRun)
    && (Adds(s, e).None? ==> s.nextRun !in s'.runs)
    && (Adds(s, e).Some? ==>
          s.nextRun in s'.runs && s'.runs[s.nextRun].jobId == Adds(s, e).value.job
            && s'.runs[s.nextRun].queuedAt == Adds(s, e).value.at)
  }

  lemma NarrowGrows(s: State, e: Step, s': State)
    requires Known(s) && Narrows(s.runs, s'.runs) && s'.nextRun == s.nextRun && Adds(s, e).None?
    ensures Grows(s, e, s')
  {
  }

  lemma InsertGrows(s: State, e: Step, s': State, runs: R.Table, scheduledFor: Option<Second>)
    requires Known(s) && Narrows(s.runs, runs) && Adds(s, e).Some? && s'.nextRun == s.nextRun + 1
    requires s'.runs == R.Inserted(runs, s.nextRun, Adds(s, e).value.job, scheduledFor, Adds(s, e).value.at)
    ensures Grows(s, e, s')
  {
    hide Adds;
    assert s.nextRun !in runs;
    assert s'.runs - {s.nextRun} == runs;
    hide Narrows;
  }

  lemma LoopGrows(s: State, e: LoopStep)
    requires Known(s) && LoopEnabled(s, e)
    ensures Grows(s, Loop(e), LoopNext(s, e))
  {
    hide Known, Narrows, Grows, LoopNext, LoopEnabled;
    if e.InsertDue? {
      InsertDueGrows(s, e.inserted, e.ok);
    } else {
      LoopNarrows(s, e);
      NarrowGrows(s, Loop(e), LoopNext(s, e));
    }
  }

  lemma InsertDueGrows(s: State, inserted: bool, ok: bool)
    requires Known(s) && LoopEnabled(s, InsertDue(inserted, ok))
    ensures Grows(s, Loop(InsertDue(inserted, ok)), LoopNext(s, InsertDue(inserted, ok)))
  {
    hide Known, Narrows, Grows, R.Inserted;
    InKnown(s);
    ClaimNarrows(s.runs, 0, 0, 0);
    var s' := LoopNext(s, InsertDue(inserted, ok));
    if inserted {
      InsertGrows(s, Loop(InsertDue(inserted, ok)), s', s.runs, s.pc.job.nextRunAt);
    } else {
      NarrowGrows(s, Loop(InsertDue(inserted, ok)), s');
    }
  }

  lemma LoopNarrows(s: State, e: LoopStep)
    requires Known(s) && LoopEnabled(s, e) && !e.InsertDue?
    ensures Narrows(s.runs, LoopNext(s, e).runs) && LoopNext(s, e).nextRun == s.nextRun
  {
    hide Known, Narrows, Moved, R.Claimed, R.Started, R.Claimable, R.HasUnfinished, R.PendingCanceled;
    InKnown(s);
    ClaimNarrows(s.runs, 0, 0, 0);
    match e
    case ApplyPolicy(ok) => CancelNarrows(s.runs, s.pc.due[0].id, s.pc.now);
    case TryClaim(ok) => ClaimNarrows(s.runs, s.pc.run.id, s.runner, s.clock);
    case MarkRunning(ok) => ClaimNarrows(s.runs, s.pc.run.id, s.runner, s.clock);
    case _ =>
  }

  lemma RunGrows(s: State, id: RunId, e: RunStep)
    requires Known(s) && RunEnabled(s, id, e)
    requires s.active[id].phase.Decided? ==> s.active[id].phase.final.status.Terminal()
    ensures Grows(s, Completion(id, e), RunNext(s, id, e))
  {
    var s' := RunNext(s, id, e);
    assert Narrows(s.runs, s'.runs);
    hide RunNext, Narrows;
    assert s'.nextRun == s.nextRun by { RunNextRun(s, id, e); }
    NarrowGrows(s, Completion(id, e), s');
  }

  lemma RunNextRun(s: State, id: RunId, e: RunStep)
    requires RunEnabled(s, id, e)
    ensures RunNext(s, id, e).nextRun == s.nextRun && RunNext(s, id, e).starts == s.starts
      && RunNext(s, id, e).pc == s.pc
  {
  }

  lemma CliGrows(s: State, e: CliStep)
    requires Known(s) && CliEnabled(s, e)
    ensures Grows(s, Cli(e), CliNext(s, e))
  {
    hide Known, Narrows, Grows, R.HasUnfinished, R.PendingCanceled, R.Inserted, R.JobRemoved;
    InKnown(s);
    ClaimNarrows(s.runs, 0, 0, 0);
    var s' := CliNext(s, e);
    match e
    case InsertManual(j, at) => InsertGrows(s, Cli(e), s', s.runs, None);
    case RunJob(j) =>
      CancelNarrows(s.runs, j, s.clock);
      if s' == s {
        NarrowGrows(s, Cli(e), s');
      } else {
        InsertGrows(s, Cli(e), s', if s.jobs[j].policy == Replace then R.PendingCanceled(s.runs, j, s.clock)
          else s.runs, None);
      }
    case DeleteJob(j) => RemovalNarrows(s.runs, j); NarrowGrows(s, Cli(e), s');
    case CancelPending(j, at) => CancelNarrows(s.runs, j, at); NarrowGrows(s, Cli(e), s');
    case _ => NarrowGrows(s, Cli(e), s');
  }

  lemma StepGrows(s: State, e: Step)
    requires Inv(s) && Enabled(s, e)
    ensures Grows(s, e, Next(s, e))
  {
    InvKnows(s);
    DecidedTerminal(s);
    hide Inv, LoopNext, CliNext, RunNext, LoopEnabled, CliEnabled, RunEnabled, Known, Grows;
    match e
    case Loop(l) => LoopGrows(s, l);
    case Completion(id, r) => RunGrows(s, id, r);
    case Cli(c) => CliGrows(s, c);
    case _ =>
      InKnown(s);
      ClaimNarrows(s.runs, 0, 0, 0);
      NarrowGrows(s, e, Next(s, e));
  }

  // ----- what one step does to the hand and the starts -----

  lemma MoveHand(s: State, e: LoopStep)
    requires LoopEnabled(s, e) && OnlyMoves(e)
    ensures !Taken(Moved(s, e))
  {
    hide R.IsPage, J.IsDueList, HasActive, Handles;
  }

  lemma DueHand(s: State, ok: bool, inserted: bool, next: Option<Second>)
    ensures s.pc.DueNext? && s.pc.due != [] ==>
      !Taken(ApplyPolicyNext(s, ok).pc) && ApplyPolicyNext(s, ok).starts == s.starts
    ensures s.pc.DueInsert? ==>
      !Taken(InsertDueNext(s, inserted, ok).pc) && InsertDueNext(s, inserted, ok).starts == s.starts
    ensures s.pc.DueAdvance? ==>
      !Taken(AdvanceDueNext(s, ok, next).pc) && AdvanceDueNext(s, ok, next).starts == s.starts
  {
    hide R.HasUnfinished, R.PendingCanceled, R.Inserted, J.Updated, J.NextRunUpdated;
  }

  lemma PassHand(s: State, ok: bool, id: RunId)
    ensures Canceling(s.pc) ==> !Taken(CancelHandleNext(s, id).pc) && CancelHandleNext(s, id).starts == s.starts
    ensures s.pc.Handling? ==>
      var s' := TryClaimNext(s, ok);
      s'.starts == s.starts && (Taken(s'.pc) ==> s'.pc.run == s.pc.run && ok && R.Claimable(s.runs, s.pc.run.id))
    ensures s.pc.Handling? ==>
      var s' := MarkRunningNext(s, ok);
      s'.starts == s.starts && (Taken(s'.pc) ==> s'.pc.run == s.pc.run)
    ensures s.pc.Handling? ==>
      var s' := RegisterNext(s);
      s'.starts == s.starts + [s.pc.run] && !Taken(s'.pc)
  {
    hide R.Claimable, R.Claimed, R.Started, SetReason;
  }

  lemma LoopHand(s: State, e: LoopStep)
    requires LoopEnabled(s, e)
    ensures Taken(LoopNext(s, e).pc) ==>
      && s.pc.Handling? && LoopNext(s, e).pc.run == s.pc.run
      && (Taken(s.pc) || (e == TryClaim(true) && At(s.pc, Claim) && R.Claimable(s.runs, s.pc.run.id)))
    ensures LoopNext(s, e).starts == (if e.RegisterActive? then s.starts + [s.pc.run] else s.starts)
    ensures e.RegisterActive? ==> At(s.pc, Register) && !Taken(LoopNext(s, e).pc)
  {
    hide Moved, ApplyPolicyNext, InsertDueNext, AdvanceDueNext, CancelHandleNext, TryClaimNext, MarkRunningNext;
    hide RegisterNext, R.Claimable;
    match e
    case ApplyPolicy(ok) => DueHand(s, ok, false, None);
    case InsertDue(inserted, ok) => DueHand(s, ok, inserted, None);
    case AdvanceDue(ok, next) => DueHand(s, ok, false, next);
    case CancelHandle(id) => PassHand(s, false, id);
    case TryClaim(ok) => PassHand(s, ok, 0);
    case MarkRunning(ok) => PassHand(s, ok, 0);
    case RegisterActive => PassHand(s, false, 0);
    case _ => MoveHand(s, e);
  }

  predicate Registers(e: Step) { e == Loop(RegisterActive) }

  /** A run comes in hand by its claim, and stays in hand until it is registered or dropped. */
  lemma StepHand(s: State, e: Step)
    requires Enabled(s, e)
    ensures Taken(Next(s, e).pc) ==>
      && s.pc.Handling? && Next(s, e).pc.run == s.pc.run && !Registers(e)
      && (Taken(s.pc) || (e == Loop(TryClaim(true)) && At(s.pc, Claim) && R.Claimable(s.runs, s.pc.run.id)))
    ensures Registers(e) ==> At(s.pc, Register)
    ensures Next(s, e).starts == (if Registers(e) then s.starts + [s.pc.run] else s.starts)
  {
    hide LoopNext, CliNext, RunNext, LoopEnabled, CliEnabled, RunEnabled, R.Claimable;
    match e
    case Loop(l) => LoopHand(s, l);
    case Completion(id, r) => RunNextRun(s, id, r);
    case Cli(c) => RunLife.CliFrame(s, c);
    case _ =>
  }

  // ----- a run that is ahead stays ahead -----

  /** The run is past claiming. */
  predicate Past(s: State, id: RunId) { id < s.nextRun && !R.Claimable(s.runs, id) }

  /** x started, and y not before it. */
  ghost predicate StartedBefore(starts: seq<Run>, x: Run, y: RunId) {
    exists a :: 0 <= a < |starts| && starts[a] == x && !StartedId(starts[..a], y)
  }

  /** x is past claiming, and if it is started or still to be, y is not started before it. */
  ghost predicate Leading(s: State, x: Run, y: RunId) {
    && Past(s, x.id)
    && (StartedBefore(s.starts, x, y)
        || (!StartedId(s.starts, x.id)
          && (Taken(s.pc) && s.pc.run.id == x.id ==> s.pc.run == x && !StartedId(s.starts, y))))
  }

  lemma StaysPast(s: State, e: Step, id: RunId)
    requires Inv(s) && Enabled(s, e) && Past(s, id)
    ensures Past(Next(s, e), id)
  {
    StepGrows(s, e);
    hide Inv, Next, Enabled, Adds, R.Claimable, R.Before;
    var s' := Next(s, e);
    if R.Claimable(s'.runs, id) {
      SameClaimable(s.runs, s'.runs, s.nextRun, id);
    }
  }

  lemma SameClaimable(runs: R.Table, runs': R.Table, next: RunId, id: RunId)
    requires Narrows(runs, runs' - {next}) && R.Claimable(runs', id) && id != next
    ensures R.Claimable(runs, id) && runs'[id] == runs[id]
  {
    assert id in runs' - {next} && R.Claimable(runs' - {next}, id);
  }

  lemma StepLeading(s: State, e: Step, x: Run, y: RunId)
    requires Inv(s) && Enabled(s, e) && Leading(s, x, y) && x.id != y
    ensures Leading(Next(s, e), x, y)
  {
    StaysPast(s, e, x.id);
    StepHand(s, e);
    hide Inv, Next, Enabled;
    var s' := Next(s, e);
    if StartedBefore(s.starts, x, y) {
      var a :| 0 <= a < |s.starts| && s.starts[a] == x && !StartedId(s.starts[..a], y);
      assert s'.starts[..a] == s.starts[..a];
    } else if Registers(e) && s.pc.run.id == x.id {
      var a := |s.starts|;
      assert s'.starts[..a] == s.starts && s'.starts[a] == x;
    } else {
      hide Past;
      assert !StartedId(s'.starts, x.id);
    }
  }

  lemma {:induction false} StaysLeading(ss: seq<State>, es: seq<Step>, k: nat, i: nat, x: Run, y: RunId)
    requires Behaviour(ss, es) && k <= i < |ss| && Leading(ss[k], x, y) && x.id != y
    ensures Leading(ss[i], x, y)
  {
    hide Inv, Next, Enabled, Leading;
    if k == i {
    } else {
      StaysLeading(ss, es, k, i - 1, x, y);
      Reachable(ss, es, i - 1);
      StepLeading(ss[i - 1], es[i - 1], x, y);
    }
  }

  /** Past claiming, not started and not in hand: the run never starts. */
  ghost predicate Gone(s: State, id: RunId) {
    Past(s, id) && !StartedId(s.starts, id) && !(Taken(s.pc) && s.pc.run.id == id)
  }

  lemma StepGone(s: State, e: Step, id: RunId)
    requires Inv(s) && Enabled(s, e) && Gone(s, id)
    ensures Gone(Next(s, e), id)
  {
    StaysPast(s, e, id);
    StepHand(s, e);
    hide Inv, Next, Enabled;
  }

  lemma {:induction false} StaysGone(ss: seq<State>, es: seq<Step>, k: nat, i: nat, id: RunId)
    requires Behaviour(ss, es) && k <= i < |ss| && Gone(ss[k], id)
    ensures Gone(ss[i], id)
  {
    hide Inv, Next, Enabled, Gone;
    if k == i {
    } else {
      StaysGone(ss, es, k, i - 1, id);
      Reachable(ss, es, i - 1);
      StepGone(ss[i - 1], es[i - 1], id);
    }
  }

  lemma {:induction false} StartsGrow(ss: seq<State>, es: seq<Step>, k: nat, i: nat)
    requires Behaviour(ss, es) && k <= i < |ss|
    ensures ss[k].starts <= ss[i].starts
  {
    hide Next, Enabled;
    if k == i {
    } else {
      StartsGrow(ss, es, k, i - 1);
      StepHand(ss[i - 1], es[i - 1]);
    }
  }

  // ----- the claim of a started run -----

  predicate Claims(s: State, e: Step, x: Run) {
    e == Loop(TryClaim(true)) && At(s.pc, Claim) && s.pc.run == x && R.Claimable(s.runs, x.id)
  }

  lemma {:induction false} HandClaimed(ss: seq<State>, es: seq<Step>, i: nat) returns (k: nat)
    requires Behaviour(ss, es) && i < |ss| && Taken(ss[i].pc)
    ensures k < i && Claims(ss[k], es[k], ss[i].pc.run) && ss[k].starts == ss[i].starts
  {
    hide Next, Enabled, R.Claimable;
    StepHand(ss[i - 1], es[i - 1]);
    if Taken(ss[i - 1].pc) {
      k := HandClaimed(ss, es, i - 1);
    } else {
      k := i - 1;
    }
  }

  lemma {:induction false} StartClaimed(ss: seq<State>, es: seq<Step>, i: nat, a: nat) returns (k: nat)
    requires Behaviour(ss, es) && i < |ss| && a < |ss[i].starts|
    ensures k < i && Claims(ss[k], es[k], ss[i].starts[a])
  {
    hide Next, Enabled, Claims;
    StepHand(ss[i - 1], es[i - 1]);
    if a < |ss[i - 1].starts| {
      k := StartClaimed(ss, es, i - 1, a);
    } else {
      k := HandClaimed(ss, es, i - 1);
    }
  }

  /** A claimable row has not been started, nor is it in hand. */
  lemma ClaimableIsFresh(s: State, id: RunId)
    requires Inv(s) && R.Claimable(s.runs, id)
    ensures !StartedId(s.starts, id) && id < s.nextRun && s.runs[id].id == id
  {
    assert RowShape(s.runs[id], s.reasons);
    hide Entries, OneUnreasoned, Snapshots, Registering, Accounted, Clearing, Rows;
  }

  lemma StartedIsPast(s: State, id: RunId)
    requires Inv(s) && StartedId(s.starts, id)
    ensures Past(s, id)
  {
    var a :| 0 <= a < |s.starts| && s.starts[a].id == id;
    assert id in s.reasons;
    assert id in s.runs ==> RowShape(s.runs[id], s.reasons);
    hide Entries, OneUnreasoned, Snapshots, Registering, Accounted, Clearing, Rows;
  }

  /** A row keeps its job and queue time. */
  lemma {:induction false} SameColumns(ss: seq<State>, es: seq<Step>, k: nat, j: nat, id: RunId)
    requires Behaviour(ss, es) && k <= j < |ss| && id in ss[k].runs && id in ss[j].runs
    ensures ss[j].runs[id].jobId == ss[k].runs[id].jobId && ss[j].runs[id].queuedAt == ss[k].runs[id].queuedAt
  {
    hide Inv, Next, Enabled, Adds, R.Claimable;
    if k == j {
    } else {
      Reachable(ss, es, k);
      RunLife.InvFresh(ss[k]);
      NextGrows(ss, es, k, j - 1);
      Reachable(ss, es, j - 1);
      StepGrows(ss[j - 1], es[j - 1]);
      assert id in ss[j].runs - {ss[j - 1].nextRun};
      SameColumns(ss, es, k, j - 1, id);
    }
  }

  /** The run in hand at a claim is its row as listed. */
  lemma ClaimedRow(s: State, e: Step, x: Run)
    requires Inv(s) && Claims(s, e, x)
    ensures var r := s.runs[x.id]; r.id == x.id && r.jobId == x.jobId && r.queuedAt == x.queuedAt
  {
    hide Rows, Starts, Entries, OneUnreasoned, Registering, Accounted, Clearing;
  }

  // ----- passing puts the run ahead -----

  lemma ClaimLeads(ss: seq<State>, es: seq<Step>, k: nat, x: Run, y: RunId)
    requires Behaviour(ss, es) && k < |es| && Claims(ss[k], es[k], x) && !StartedId(ss[k].starts, y)
    ensures Leading(ss[k + 1], x, y)
  {
    Reachable(ss, es, k);
    ClaimableIsFresh(ss[k], x.id);
    hide Inv;
    assert Enabled(ss[k], es[k]) && ss[k + 1] == TryClaimNext(ss[k], true);
    hide Enabled, Next;
  }

  lemma PassLeads(ss: seq<State>, es: seq<Step>, k: nat, x: Run, y: RunId, job: JobId)
    requires Behaviour(ss, es) && k < |es| && Passes(ss[k], es[k], x, y, job)
    ensures x.id != y && Leading(ss[k + 1], x, y)
  {
    hide Next, Enabled, Inv;
    Reachable(ss, es, k);
    if Overtakes(ss[k], es[k], x, y, job) {
      ClaimableIsFresh(ss[k], y);
      ClaimedRow(ss[k], es[k], x);
      ClaimLeads(ss, es, k, x, y);
    } else {
      AddedLeads(ss, es, k, x, y);
    }
  }

  lemma AddedLeads(ss: seq<State>, es: seq<Step>, k: nat, x: Run, y: RunId)
    requires Behaviour(ss, es) && k < |es| && y == ss[k].nextRun && (x in ss[k].starts || Holding(ss[k].pc, x))
    ensures x.id != y && Leading(ss[k + 1], x, y)
  {
    hide Next, Enabled, Inv, Claims;
    Reachable(ss, es, k);
    NextIsFresh(ss[k]);
    if x in ss[k].starts {
      var a :| 0 <= a < |ss[k].starts| && ss[k].starts[a] == x;
      StartedIsPast(ss[k], x.id);
      assert StartedBefore(ss[k].starts, x, y);
      StepLeading(ss[k], es[k], x, y);
    } else {
      var c := HandClaimed(ss, es, k);
      ClaimIsOld(ss, es, c, k, x);
      ClaimLeads(ss, es, c, x, y);
      StaysLeading(ss, es, c + 1, k + 1, x, y);
    }
  }

  lemma NextIsFresh(s: State)
    requires Inv(s)
    ensures !StartedId(s.starts, s.nextRun)
  {
    hide Ids, Rows, Entries, OneUnreasoned, Snapshots, Registering, Accounted, Clearing;
  }

  // ----- ids and rows along a behaviour -----

  lemma {:induction false} NextGrows(ss: seq<State>, es: seq<Step>, k: nat, j: nat)
    requires Behaviour(ss, es) && k <= j < |ss|
    ensures ss[k].nextRun <= ss[j].nextRun
  {
    hide Inv, Next, Enabled, Adds, Narrows;
    if k == j {
    } else {
      NextGrows(ss, es, k, j - 1);
      Reachable(ss, es, j - 1);
      StepGrows(ss[j - 1], es[j - 1]);
    }
  }

  lemma ClaimIsOld(ss: seq<State>, es: seq<Step>, c: nat, k: nat, x: Run)
    requires Behaviour(ss, es) && c <= k < |ss| && c < |es| && Claims(ss[c], es[c], x)
    ensures x.id < ss[k].nextRun
  {
    hide Inv, Next, Enabled;
    Reachable(ss, es, c);
    ClaimableIsFresh(ss[c], x.id);
    NextGrows(ss, es, c, k);
  }

  /** A claimable row has been so, unchanged, since its id was given out. */
  lemma {:induction false} ClaimableSince(ss: seq<State>, es: seq<Step>, k: nat, j: nat, id: RunId)
    requires Behaviour(ss, es) && k <= j < |ss| && R.Claimable(ss[j].runs, id) && id < ss[k].nextRun
    ensures R.Claimable(ss[k].runs, id) && ss[k].runs[id] == ss[j].runs[id]
  {
    hide Inv, Next, Enabled, Adds, R.Claimable, Narrows;
    if k == j {
    } else {
      Reachable(ss, es, j - 1);
      StepGrows(ss[j - 1], es[j - 1]);
      NextGrows(ss, es, k, j - 1);
      SameClaimable(ss[j - 1].runs, ss[j].runs, ss[j - 1].nextRun, id);
      ClaimableSince(ss, es, k, j - 1, id);
    }
  }

  /** The step that gave the id out. */
  lemma {:induction false} AddedAt(ss: seq<State>, es: seq<Step>, k: nat, j: nat, id: RunId) returns (m: nat)
    requires Behaviour(ss, es) && k <= j < |ss| && ss[k].nextRun <= id < ss[j].nextRun
    ensures k <= m < j && ss[m].nextRun == id && Adds(ss[m], es[m]).Some?
    ensures id in ss[m + 1].runs && ss[m + 1].nextRun == id + 1
    ensures ss[m + 1].runs[id].jobId == Adds(ss[m], es[m]).value.job
      && ss[m + 1].runs[id].queuedAt == Adds(ss[m], es[m]).value.at
  {
    hide Inv, Next, Enabled, Adds, Narrows;
    Reachable(ss, es, j - 1);
    StepGrows(ss[j - 1], es[j - 1]);
    if id < ss[j - 1].nextRun {
      m := AddedAt(ss, es, k, j - 1, id);
    } else {
      m := j - 1;
    }
  }

  // ----- out of order means passed -----

  /** Starts are claims in the same order. */
  lemma ClaimsInOrder(ss: seq<State>, es: seq<Step>, i: nat, a: nat, b: nat, ka: nat, kb: nat)
    requires Behaviour(ss, es) && i < |ss| && a < b < |ss[i].starts| && ka < i && kb < i
    requires Claims(ss[ka], es[ka], ss[i].starts[a]) && Claims(ss[kb], es[kb], ss[i].starts[b])
    ensures ka < kb && ss[i].starts[a].id != ss[i].starts[b].id
  {
    hide Next, Enabled, Claims, Inv, Leading;
    Reachable(ss, es, i);
    var x, y := ss[i].starts[a], ss[i].starts[b];
    DistinctStarts(ss[i], a, b);
    if ka == kb { SameClaim(ss[ka], es[ka], x, y); }
    if kb < ka {
      Reachable(ss, es, ka);
      StartsGrow(ss, es, kb, ka);
      ClaimFresh(ss[ka], es[ka], x);
      ClaimLeads(ss, es, kb, y, x.id);
      StaysLeading(ss, es, kb + 1, i, y, x.id);
      LeadingIsFirst(ss[i], b, a);
    }
  }

  lemma SameClaim(s: State, e: Step, x: Run, y: Run)
    requires Claims(s, e, x) && Claims(s, e, y)
    ensures x == y
  {
  }

  lemma ClaimFresh(s: State, e: Step, x: Run)
    requires Inv(s) && Claims(s, e, x)
    ensures !StartedId(s.starts, x.id)
  {
    hide Inv;
    ClaimableIsFresh(s, x.id);
  }

  lemma DistinctStarts(s: State, a: nat, b: nat)
    requires Inv(s) && a < b < |s.starts|
    ensures s.starts[a].id != s.starts[b].id
  {
    hide Ids, Rows, Entries, OneUnreasoned, Snapshots, Registering, Accounted, Clearing;
  }

  lemma LeadingIsFirst(s: State, a: nat, b: nat)
    requires Inv(s) && a < |s.starts| && b < |s.starts| && a != b && Leading(s, s.starts[a], s.starts[b].id)
    ensures a < b
  {
    hide Ids, Rows, Entries, OneUnreasoned, Snapshots, Registering, Accounted, Clearing, Past;
    assert StartedId(s.starts, s.starts[a].id);
    var c :| 0 <= c < |s.starts| && s.starts[c] == s.starts[a] && !StartedId(s.starts[..c], s.starts[b].id);
    assert forall d :: 0 <= d < c ==> s.starts[..c][d] == s.starts[d];
  }

  /** A pair out of order has been passed, at the claim of the first or when the second was added. */
  lemma OutOfOrderIsPassed(ss: seq<State>, es: seq<Step>, i: nat, job: JobId, a: nat, b: nat) returns (k: nat)
    requires Behaviour(ss, es) && i < |ss| && a < b < |ss[i].starts|
    requires ss[i].starts[a].jobId == job && ss[i].starts[b].jobId == job && R.Before(ss[i].starts[b], ss[i].starts[a])
    ensures k < i && Passes(ss[k], es[k], ss[i].starts[a], ss[i].starts[b].id, job)
  {
    hide Next, Enabled, Inv, Claims, Leading, Overtakes, AddedBehind;
    var x, y := ss[i].starts[a], ss[i].starts[b];
    var ka := StartClaimed(ss, es, i, a);
    var kb := StartClaimed(ss, es, i, b);
    ClaimsInOrder(ss, es, i, a, b, ka, kb);
    if y.id < ss[ka].nextRun {
      k := ka;
      WasOvertaken(ss, es, ka, kb, x, y, job);
    } else {
      k := WasAddedBehind(ss, es, i, a, ka, kb, x, y, job);
    }
  }

  lemma WasOvertaken(ss: seq<State>, es: seq<Step>, ka: nat, kb: nat, x: Run, y: Run, job: JobId)
    requires Behaviour(ss, es) && ka < kb < |es| && Claims(ss[ka], es[ka], x) && Claims(ss[kb], es[kb], y)
    requires y.id < ss[ka].nextRun && x.jobId == job && y.jobId == job && R.Before(y, x)
    ensures Overtakes(ss[ka], es[ka], x, y.id, job)
  {
    hide Next, Enabled, Inv;
    Reachable(ss, es, kb);
    ClaimedRow(ss[kb], es[kb], y);
    ClaimableSince(ss, es, ka, kb, y.id);
  }

  lemma WasAddedBehind(ss: seq<State>, es: seq<Step>, i: nat, a: nat, ka: nat, kb: nat, x: Run, y: Run, job: JobId)
    returns (m: nat)
    requires Behaviour(ss, es) && ka < kb < i < |ss| && Claims(ss[ka], es[ka], x) && Claims(ss[kb], es[kb], y)
    requires a < |ss[i].starts| && ss[i].starts[a] == x
    requires ss[ka].nextRun <= y.id && x.jobId == job && y.jobId == job && R.Before(y, x)
    ensures m < i && AddedBehind(ss[m], es[m], x, y.id, job)
  {
    hide Next, Enabled, Inv, Adds, Leading, R.Claimable, Gone;
    Reachable(ss, es, kb);
    ClaimedRow(ss[kb], es[kb], y);
    ClaimableIsFresh(ss[kb], y.id);
    m := AddedAt(ss, es, ka, kb, y.id);
    ClaimableSince(ss, es, m + 1, kb, y.id);
    ClaimIsOld(ss, es, ka, ka, x);
    NotAdding(ss[ka], es[ka], x);
    ClaimedIsKept(ss, es, i, a, ka, m, x);
  }

  lemma NotAdding(s: State, e: Step, x: Run)
    requires Claims(s, e, x)
    ensures Adds(s, e).None?
  {
  }

  /** A claimed run that is started later is in hand or started all the while. */
  lemma ClaimedIsKept(ss: seq<State>, es: seq<Step>, i: nat, a: nat, ka: nat, m: nat, x: Run)
    requires Behaviour(ss, es) && ka < m < i < |ss| && Claims(ss[ka], es[ka], x) && a < |ss[i].starts|
      && ss[i].starts[a] == x
    ensures x in ss[m].starts || Holding(ss[m].pc, x)
  {
    hide Next, Enabled, Inv, Claims, R.Claimable;
    Reachable(ss, es, ka);
    NextIsFresh(ss[ka]);
    ClaimIsOld(ss, es, ka, ka, x);
    ClaimLeads(ss, es, ka, x, ss[ka].nextRun);
    StaysLeading(ss, es, ka + 1, m, x, ss[ka].nextRun);
    assert StartedId(ss[i].starts, x.id);
    if Gone(ss[m], x.id) { StaysGone(ss, es, m, i, x.id); }
  }

  // ----- passed means out of order -----

  /** If both have been started, the passed run was started second, and is the earlier in the queue. */
  lemma PassedIsOutOfOrder(ss: seq<State>, es: seq<Step>, i: nat, job: JobId, k: nat, x: Run, y: RunId, a: nat, b: nat)
    requires Behaviour(ss, es) && k < i < |ss| && Passes(ss[k], es[k], x, y, job)
    requires a < |ss[i].starts| && b < |ss[i].starts| && ss[i].starts[a] == x && ss[i].starts[b].id == y
    ensures a < b && ss[i].starts[b].jobId == job && R.Before(ss[i].starts[b], x)
  {
    hide Next, Enabled, Inv, Claims, Leading, Passes, R.Before;
    PassLeads(ss, es, k, x, y, job);
    StaysLeading(ss, es, k + 1, i, x, y);
    Reachable(ss, es, i);
    LeadingIsFirst(ss[i], a, b);
    var kb := StartClaimed(ss, es, i, b);
    PassedRow(ss, es, k, kb, x, ss[i].starts[b], job);
  }

  lemma PassedRow(ss: seq<State>, es: seq<Step>, k: nat, kb: nat, x: Run, y: Run, job: JobId)
    requires Behaviour(ss, es) && k < |es| && kb < |es| && Passes(ss[k], es[k], x, y.id, job)
      && Claims(ss[kb], es[kb], y)
    ensures y.jobId == job && R.Before(y, x)
  {
    hide Next, Enabled, Inv, Claims;
    Reachable(ss, es, k);
    Reachable(ss, es, kb);
    ClaimedRow(ss[kb], es[kb], y);
    ClaimsClaimable(ss[kb], es[kb], y);
    ClaimableIsFresh(ss[kb], y.id);
    if Overtakes(ss[k], es[k], x, y.id, job) {
      ClaimableIsFresh(ss[k], y.id);
      if kb < k { ClaimedOnce(ss, es, kb, k, y); }
      if kb == k { OvertakenElse(ss[k], es[k], x, y, job); }
      ClaimableSince(ss, es, k, kb, y.id);
    } else {
      if kb <= k { NextGrows(ss, es, kb, k); }
      StepGrows(ss[k], es[k]);
      ClaimableSince(ss, es, k + 1, kb, y.id);
    }
  }

  lemma ClaimedOnce(ss: seq<State>, es: seq<Step>, k: nat, j: nat, x: Run)
    requires Behaviour(ss, es) && k < j < |ss| && Claims(ss[k], es[k], x)
    ensures !R.Claimable(ss[j].runs, x.id)
  {
    hide Next, Enabled, Inv, Claims, R.Claimable;
    Reachable(ss, es, k);
    NextIsFresh(ss[k]);
    ClaimIsOld(ss, es, k, k, x);
    ClaimLeads(ss, es, k, x, ss[k].nextRun);
    StaysLeading(ss, es, k + 1, j, x, ss[k].nextRun);
  }

  lemma OvertakenElse(s: State, e: Step, x: Run, y: Run, job: JobId)
    requires Inv(s) && Overtakes(s, e, x, y.id, job)
    ensures !Claims(s, e, y)
  {
    hide Inv;
    ClaimedRow(s, e, x);
  }

  lemma ClaimsClaimable(s: State, e: Step, y: Run)
    requires Claims(s, e, y)
    ensures R.Claimable(s.runs, y.id)
  {
  }

  /** Some run of the job was passed by another, and both have been started since. */
  ghost predicate PassedAndStarted(ss: seq<State>, es: seq<Step>, i: nat, job: JobId)
    requires Behaviour(ss, es) && i < |ss|
  {
    exists k, x, y :: 0 <= k < i && Passes(ss[k], es[k], x, y, job) && x in ss[i].starts && StartedId(ss[i].starts, y)
  }

  /**
    The job's runs have started out of queue order if and only if at some step a run passed another, at its
    claim or because the other was added behind it, and both have been started since.
   */
  lemma OutOfOrderIff(ss: seq<State>, es: seq<Step>, i: nat, job: JobId)
    requires Behaviour(ss, es) && i < |ss|
    ensures OutOfOrder(ss[i].starts, job) <==> PassedAndStarted(ss, es, i, job)
  {
    hide Next, Enabled, Passes;
    if OutOfOrder(ss[i].starts, job) {
      var a, b :| 0 <= a < b < |ss[i].starts| && ss[i].starts[a].jobId == job && ss[i].starts[b].jobId == job
        && R.Before(ss[i].starts[b], ss[i].starts[a]);
      var k := OutOfOrderIsPassed(ss, es, i, job, a, b);
      var x, y := ss[i].starts[a], ss[i].starts[b].id;
      assert 0 <= k < i && Passes(ss[k], es[k], x, y, job) && x in ss[i].starts && StartedId(ss[i].starts, y);
    }
    if PassedAndStarted(ss, es, i, job) {
      var k, x, y :| 0 <= k < i && Passes(ss[k], es[k], x, y, job) && x in ss[i].starts && StartedId(ss[i].starts, y);
      var a :| 0 <= a < |ss[i].starts| && ss[i].starts[a] == x;
      var b :| 0 <= b < |ss[i].starts| && ss[i].starts[b].id == y;
      PassedIsOutOfOrder(ss, es, i, job, k, x, y, a, b);
      PasserIsOfJob(ss[k], es[k], x, y, job);
    }
  }

  lemma PasserIsOfJob(s: State, e: Step, x: Run, y: RunId, job: JobId)
    requires Passes(s, e, x, y, job)
    ensures x.jobId == job
  {
  }
}
