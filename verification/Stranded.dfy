/** A row whose MarkRunning failed stays claimed and pending, and is never run. */
module Stranded {
  import opened Domain
  import opened Protocol
  import opened Safety
  import opened RunLife
  import R = RunsStore
  import J = JobsStore

  /** Claimed, and still pending. */
  predicate Waits(runs: R.Table, id: RunId) {
    id in runs && runs[id].status == Pending && runs[id].runner.Some? && runs[id].startedAt == None
  }

  /** The ways out other than MarkRunning: canceled while pending, or deleted with its job. */
  predicate WaitsOrGone(runs: R.Table, id: RunId) {
    id in runs ==> Waits(runs, id) || (runs[id].status == Canceled && runs[id].startedAt == None)
  }

  /** The row is the one the loop is about to mark. */
  predicate Marking(pc: Pc, id: RunId) {
    At(pc, Mark) && pc.run.id == id
  }

  // ----- steps -----

  lemma MovesOffMark(s: State, e: LoopStep)
    requires LoopEnabled(s, e) && OnlyMoves(e)
    ensures !At(Moved(s, e), Mark)
  {
    hide R.IsPage, J.IsDueList, HasActive, Handles;
  }

  lemma ChangesOffMark(s: State, ok: bool, inserted: bool, next: Option<Second>, r: RunId)
    ensures s.pc.DueNext? && s.pc.due != [] ==> !At(ApplyPolicyNext(s, ok).pc, Mark)
    ensures s.pc.DueInsert? ==> !At(InsertDueNext(s, inserted, ok).pc, Mark)
    ensures s.pc.DueAdvance? ==> !At(AdvanceDueNext(s, ok, next).pc, Mark)
    ensures Canceling(s.pc) ==> !At(CancelHandleNext(s, r).pc, Mark)
    ensures s.pc.Handling? ==> !At(MarkRunningNext(s, ok).pc, Mark) && !At(RegisterNext(s).pc, Mark)
  {
    hide R.HasUnfinished, R.PendingCanceled, R.Inserted, R.Started, J.Updated, J.NextRunUpdated, SetReason;
  }

  /** Only a successful claim brings the loop to mark a row, which was claimable until then. */
  lemma EntersMark(s: State, e: LoopStep)
    requires LoopEnabled(s, e) && At(LoopNext(s, e).pc, Mark)
    ensures At(s.pc, Claim) && e == TryClaim(true) && R.Claimable(s.runs, s.pc.run.id)
    ensures LoopNext(s, e).pc.run == s.pc.run && LoopNext(s, e).runs == R.Claimed(s.runs, s.pc.run.id, s.runner)
  {
    hide Moved, ApplyPolicyNext, InsertDueNext, AdvanceDueNext, CancelHandleNext, MarkRunningNext, RegisterNext;
    match e
    case ApplyPolicy(ok) => ChangesOffMark(s, ok, false, None, 0);
    case InsertDue(inserted, ok) => ChangesOffMark(s, ok, inserted, None, 0);
    case AdvanceDue(ok, next) => ChangesOffMark(s, ok, false, next, 0);
    case CancelHandle(r) => ChangesOffMark(s, false, false, None, r);
    case TryClaim(ok) =>
    case MarkRunning(ok) => ChangesOffMark(s, ok, false, None, 0);
    case RegisterActive => ChangesOffMark(s, false, false, None, 0);
    case _ => MovesOffMark(s, e);
  }

  lemma LoopWaits(s: State, e: LoopStep, id: RunId)
    requires R.Keyed(s.runs) && FreshIds(s) && Waits(s.runs, id) && LoopEnabled(s, e)
    requires Marking(s.pc, id) ==> e != MarkRunning(true)
    ensures WaitsOrGone(LoopNext(s, e).runs, id)
  {
    if !e.ApplyPolicy? && !e.InsertDue? && !e.TryClaim? && !e.MarkRunning? {
      LoopRuns(s, e);
      hide LoopNext;
    } else {
      hide Moved, R.HasUnfinished;
    }
  }

  lemma RunWaits(s: State, r: RunId, e: RunStep, id: RunId)
    requires Entries(s.active, s.runs, s.reasons, s.marked, s.lost) && Waits(s.runs, id) && RunEnabled(s, r, e)
    ensures Waits(RunNext(s, r, e).runs, id)
  {
  }

  lemma CliWaits(s: State, e: CliStep, id: RunId)
    requires R.Keyed(s.runs) && FreshIds(s) && Waits(s.runs, id) && CliEnabled(s, e)
    ensures WaitsOrGone(CliNext(s, e).runs, id)
  {
    hide R.HasUnfinished, J.Updated;
  }

  lemma PcKept(s: State, e: Step)
    requires Enabled(s, e) && !e.Loop? && !e.Start? && !e.Crash?
    ensures Next(s, e).pc == s.pc
  {
    hide LoopNext, LoopEnabled;
    if e.Cli? {
      hide CliNext;
      CliFrame(s, e.cli);
    }
  }

  lemma StepWaits(s: State, e: Step, id: RunId)
    requires Inv(s) && Enabled(s, e) && WaitsOrGone(s.runs, id) && id < s.nextRun
    requires Marking(s.pc, id) ==> e != Loop(MarkRunning(true))
    ensures WaitsOrGone(Next(s, e).runs, id)
  {
    InvFresh(s);
    hide Starts, OneUnreasoned, Snapshots, Registering, Accounted, Clearing;
    if Waits(s.runs, id) {
      hide LoopNext, RunNext, CliNext, LoopEnabled, RunEnabled, CliEnabled, WaitsOrGone, Waits, FreshIds, Entries;
      match e
      case Loop(l) => LoopWaits(s, l, id);
      case Completion(r, c) => RunWaits(s, r, c, id);
      case Cli(c) => CliWaits(s, c, id);
      case _ =>
    } else {
      hide Next, Enabled, Inv;
      StepSettles(s, e);
    }
  }

  lemma StaysOffMark(s: State, e: Step, id: RunId)
    requires Enabled(s, e) && WaitsOrGone(s.runs, id) && !Marking(s.pc, id)
    ensures !Marking(Next(s, e).pc, id)
  {
    hide LoopNext, LoopEnabled, RunNext, CliNext, RunEnabled, CliEnabled;
    if e.Loop? {
      if At(Next(s, e).pc, Mark) { EntersMark(s, e.loop); }
    } else if e.Start? || e.Crash? {
    } else {
      PcKept(s, e);
    }
  }

  // ----- over behaviours -----

  /** The row in hand, between claim and mark, waits or is gone. */
  lemma {:induction false} HandWaits(ss: seq<State>, es: seq<Step>, i: nat)
    requires Behaviour(ss, es) && i < |ss| && At(ss[i].pc, Mark)
    ensures WaitsOrGone(ss[i].runs, ss[i].pc.run.id) && ss[i].pc.run.id < ss[i].nextRun
  {
    hide Next, Enabled, Inv, WaitsOrGone;
    Reachable(ss, es, i);
    HandKnown(ss[i]);
    if i == 0 {
    } else {
      Reachable(ss, es, i - 1);
      HandStep(ss[i - 1], es[i - 1]);
      if At(ss[i - 1].pc, Mark) && !es[i - 1].Loop? {
        HandWaits(ss, es, i - 1);
        StepWaits(ss[i - 1], es[i - 1], ss[i].pc.run.id);
      }
    }
  }

  lemma HandKnown(s: State)
    requires Inv(s) && At(s.pc, Mark)
    ensures s.pc.run.id < s.nextRun
  {
  }

  /** How the loop comes to be about to mark a row, or goes on being. */
  lemma HandStep(s: State, e: Step)
    requires Inv(s) && Enabled(s, e) && At(Next(s, e).pc, Mark)
    ensures if e.Loop? then WaitsOrGone(Next(s, e).runs, Next(s, e).pc.run.id) else Next(s, e).pc == s.pc
  {
    hide LoopNext, LoopEnabled, RunNext, CliNext, RunEnabled, CliEnabled;
    hide Starts, Entries, OneUnreasoned, Snapshots, Registering, Accounted, Clearing;
    if e.Loop? {
      EntersMark(s, e.loop);
      assert RowShape(s.runs[s.pc.run.id], s.reasons);
    } else if e.Start? || e.Crash? {
    } else {
      PcKept(s, e);
    }
  }

  /**
    Out of the loop's hand, a row that waits is never marked or run: it stays pending until it is canceled or deleted.
   */
  lemma {:induction false} StrandedNeverRuns(ss: seq<State>, es: seq<Step>, i: nat, j: nat, id: RunId)
    requires Behaviour(ss, es) && i <= j < |ss|
    requires WaitsOrGone(ss[i].runs, id) && id < ss[i].nextRun && !Marking(ss[i].pc, id)
    ensures WaitsOrGone(ss[j].runs, id) && id < ss[j].nextRun && !Marking(ss[j].pc, id)
  {
    hide Inv, Next, Enabled, WaitsOrGone;
    if i == j {
    } else {
      StrandedNeverRuns(ss, es, i, j - 1, id);
      Reachable(ss, es, j - 1);
      StaysSettled(ss, es, j - 1, j);
      StepWaits(ss[j - 1], es[j - 1], id);
      StaysOffMark(ss[j - 1], es[j - 1], id);
    }
  }

  /**
    A run whose MarkRunning fails is never run afterwards: its row stays pending until it is canceled or its job
    deleted.
   */
  lemma FailedMarkNeverRuns(ss: seq<State>, es: seq<Step>, i: nat, j: nat)
    requires Behaviour(ss, es) && i < j < |ss| && es[i] == Loop(MarkRunning(false))
    ensures WaitsOrGone(ss[j].runs, ss[i].pc.run.id)
  {
    hide Inv, WaitsOrGone;
    assert Enabled(ss[i], es[i]) && ss[i + 1] == MarkRunningNext(ss[i], false);
    hide Next, Enabled;
    HandWaits(ss, es, i);
    StrandedNeverRuns(ss, es, i + 1, j, ss[i].pc.run.id);
  }
}
