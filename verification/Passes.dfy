/**
  What becomes of every run and of every due job a pass of the loop has listed: nothing is left out without a cause.
 */
module Passes {
  import opened Domain
  import opened Protocol
  import opened Safety
  import Stranded
  import R = RunsStore
  import J = JobsStore

  // ----- the listed runs -----

  /** What is left of a list that is taken from the front. */
  predicate Tail<T(==)>(rest: seq<T>, all: seq<T>) {
    |rest| <= |all| && all[|all| - |rest|..] == rest
  }

  lemma TailShifts<T>(rest: seq<T>, all: seq<T>)
    requires Tail(rest, all) && rest != []
    ensures Tail(rest[1..], all) && rest[0] == all[|all| - |rest|]
  {
  }

  predicate InPass(pc: Pc) { pc.Pass? || pc.Handling? }

  /** The runs still to do, counting the one in hand. */
  function Ahead(pc: Pc): seq<Run>
    requires InPass(pc)
  {
    if pc.Pass? then pc.rest else [pc.run] + pc.rest
  }

  /** The step starts the run. */
  predicate Starts(s: State, e: Step, run: Run) {
    e == Loop(RegisterActive) && At(s.pc, Register) && s.pc.run == run
  }

  /** The step gives the run up, and why: its call failed, or its job or row is not what it takes. */
  predicate GivesUp(s: State, e: Step, run: Run) {
    match e
    case Loop(LoadJob(ok)) => s.pc.Pass? && s.pc.rest != [] && s.pc.rest[0] == run && (!ok || run.jobId !in s.jobs)
    case Loop(PrepareStart) =>
      At(s.pc, Prepare) && s.pc.run == run && s.pc.job.policy != Replace
      && exists id <- s.active :: s.active[id].job == run.jobId
    case Loop(TryClaim(ok)) =>
      At(s.pc, Claim) && s.pc.run == run
      && (!ok || run.id !in s.runs || s.runs[run.id].status != Pending || s.runs[run.id].runner != None)
    case Loop(MarkRunning(ok)) =>
      At(s.pc, Mark) && s.pc.run == run && (!ok || run.id !in s.runs || s.runs[run.id].status != Pending)
    case _ => false
  }

  predicate EndsPass(e: Step) { e == Loop(PassDone) || e.Crash? }

  /** What is ahead stays, or its first run is started or given up. */
  predicate Advances(s: State, e: Step, pc': Pc)
    requires InPass(s.pc)
  {
    InPass(pc') &&
    var ahead := Ahead(s.pc);
    || Ahead(pc') == ahead
    || (ahead != [] && Ahead(pc') == ahead[1..] && (Starts(s, e, ahead[0]) || GivesUp(s, e, ahead[0])))
  }

  lemma MoveAdvances(s: State, e: LoopStep)
    requires InPass(s.pc) && LoopEnabled(s, e) && OnlyMoves(e) && !e.PassDone?
    requires s.pc.Handling? ==> s.pc.job.id == s.pc.run.jobId
    ensures Advances(s, Loop(e), Moved(s, e))
  {
    hide R.IsPage, J.IsDueList, Handles;
    if s.pc.Pass? && s.pc.rest != [] { assert [s.pc.rest[0]] + s.pc.rest[1..] == s.pc.rest; }
    if s.pc.Handling? { assert Ahead(s.pc)[1..] == s.pc.rest; }
  }

  lemma ChangeAdvances(s: State, e: LoopStep)
    requires InPass(s.pc) && LoopEnabled(s, e) && !OnlyMoves(e)
    ensures Advances(s, Loop(e), LoopNext(s, e).pc)
  {
    hide R.Claimed, R.Started, SetReason, Moved, ApplyPolicyNext, InsertDueNext, AdvanceDueNext;
    assert Ahead(s.pc)[1..] == s.pc.rest;
  }

  lemma OthersStayOn(s: State, e: Step)
    requires Enabled(s, e) && !e.Loop? && !e.Crash? && !s.pc.Stopped?
    ensures Next(s, e).pc == s.pc
  {
    if !e.Start? { Stranded.PcKept(s, e); }
    hide RunNext, CliNext, RunEnabled, CliEnabled;
  }

  lemma StepAdvances(s: State, e: Step)
    requires Inv(s) && Enabled(s, e) && InPass(s.pc) && !EndsPass(e)
    ensures Advances(s, e, Next(s, e).pc)
  {
    JobInHand(s);
    hide Inv, Advances, LoopEnabled, LoopNext, Moved, RunNext, CliNext, RunEnabled, CliEnabled;
    if e.Loop? {
      if OnlyMoves(e.loop) {
        MoveAdvances(s, e.loop);
        MovesOnly(s, e.loop);
      } else {
        ChangeAdvances(s, e.loop);
      }
    } else {
      OthersStayOn(s, e);
      Stays(s, e);
    }
  }

  lemma MovesOnly(s: State, e: LoopStep)
    requires LoopEnabled(s, e) && OnlyMoves(e)
    ensures LoopNext(s, e) == s.(pc := Moved(s, e))
  {
    hide Moved, LoopEnabled;
  }

  lemma Stays(s: State, e: Step)
    requires InPass(s.pc)
    ensures Advances(s, e, s.pc)
  {
    hide Starts, GivesUp;
  }

  lemma JobInHand(s: State)
    requires Inv(s)
    ensures s.pc.Handling? ==> s.pc.job.id == s.pc.run.jobId
  {
    hide Ids, Rows, Safety.Starts, Entries, OneUnreasoned, Registering, Accounted, Clearing;
  }

  ghost predicate Settled(ss: seq<State>, es: seq<Step>, i: nat, j: nat, run: Run)
    requires Behaviour(ss, es) && j < |ss|
  {
    exists k :: i < k < j && (Starts(ss[k], es[k], run) || GivesUp(ss[k], es[k], run))
  }

  lemma ListedPage(ss: seq<State>, es: seq<Step>, i: nat, limit: nat, page: seq<Run>)
    requires Behaviour(ss, es) && i < |es| && es[i] == Loop(ListPending(limit, Some(page)))
    ensures ss[i + 1].pc == Pass(page)
  {
    assert Enabled(ss[i], es[i]) && ss[i + 1] == Next(ss[i], es[i]);
  }

  /** As far as the pass has come, each run is settled. */
  lemma {:induction false} PassSettles(ss: seq<State>, es: seq<Step>, i: nat, j: nat, limit: nat, page: seq<Run>)
    requires Behaviour(ss, es) && i < j < |ss| && es[i] == Loop(ListPending(limit, Some(page)))
    requires forall k :: i < k < j ==> !EndsPass(es[k])
    ensures InPass(ss[j].pc) && Tail(Ahead(ss[j].pc), page)
    ensures forall n :: 0 <= n < |page| - |Ahead(ss[j].pc)| ==> Settled(ss, es, i, j, page[n])
    decreases j
  {
    hide Next, Enabled, Inv, Starts, GivesUp, Advances, Settled, Tail, Ahead;
    if j == i + 1 {
      ListedPage(ss, es, i, limit, page);
      AllAhead(page);
    } else {
      PassSettles(ss, es, i, j - 1, limit, page);
      Reachable(ss, es, j - 1);
      StepAdvances(ss[j - 1], es[j - 1]);
      SettlesOneMore(ss, es, i, j, page);
    }
  }

  lemma AllAhead(page: seq<Run>)
    ensures Ahead(Pass(page)) == page && Tail(page, page)
  {
  }

  lemma SettlesOneMore(ss: seq<State>, es: seq<Step>, i: nat, j: nat, page: seq<Run>)
    requires Behaviour(ss, es) && i + 1 < j < |ss|
    requires InPass(ss[j - 1].pc) && Tail(Ahead(ss[j - 1].pc), page) && Advances(ss[j - 1], es[j - 1], ss[j].pc)
    requires forall n :: 0 <= n < |page| - |Ahead(ss[j - 1].pc)| ==> Settled(ss, es, i, j - 1, page[n])
    ensures InPass(ss[j].pc) && Tail(Ahead(ss[j].pc), page)
    ensures forall n :: 0 <= n < |page| - |Ahead(ss[j].pc)| ==> Settled(ss, es, i, j, page[n])
  {
    hide Behaviour, Starts, GivesUp, Ahead, Tail;
    if Ahead(ss[j - 1].pc) != [] { TailShifts(Ahead(ss[j - 1].pc), page); }
    forall n | 0 <= n < |page| - |Ahead(ss[j].pc)| ensures Settled(ss, es, i, j, page[n]) {
      if n < |page| - |Ahead(ss[j - 1].pc)| { assert Settled(ss, es, i, j - 1, page[n]); }
    }
  }

  lemma NothingAhead(ss: seq<State>, es: seq<Step>, j: nat)
    requires Behaviour(ss, es) && j < |es|
    ensures es[j] == Loop(PassDone) ==> ss[j].pc == Pass([])
    ensures es[j] == Loop(DueDone) ==> ss[j].pc.DueNext? && ss[j].pc.due == []
  {
    assert Enabled(ss[j], es[j]);
    hide Next;
  }

  /**
    A pass that comes to its end has started each run it listed, or given it up at one of four steps: a call failed, its
    job is gone, its job has an active run and is not under replace, or its row is no longer pending and claimable.
   */
  lemma EveryListedRun(ss: seq<State>, es: seq<Step>, i: nat, j: nat, limit: nat, page: seq<Run>, n: nat)
      returns (k: nat)
    requires Behaviour(ss, es) && i < j < |es| && n < |page|
    requires es[i] == Loop(ListPending(limit, Some(page))) && es[j] == Loop(PassDone)
    requires forall k :: i < k < j ==> !EndsPass(es[k])
    ensures i < k < j && (Starts(ss[k], es[k], page[n]) || GivesUp(ss[k], es[k], page[n]))
  {
    hide Starts, GivesUp;
    PassSettles(ss, es, i, j, limit, page);
    NothingAhead(ss, es, j);
    hide Behaviour;
    assert Settled(ss, es, i, j, page[n]);
    k :| i < k < j && (Starts(ss[k], es[k], page[n]) || GivesUp(ss[k], es[k], page[n]));
  }

  // ----- the due jobs -----

  predicate InDue(pc: Pc) { pc.DueNext? || pc.DueInsert? || pc.DueAdvance? }

  function DueAhead(pc: Pc): seq<Job>
    requires InDue(pc)
  {
    if pc.DueNext? then pc.due else [pc.job] + pc.due
  }

  /** The policy lets the job in: forbid finds nothing unfinished, replace has canceled what was pending. */
  ghost predicate Admits(s: State, e: Step, s': State, job: Job) {
    && s.pc.DueNext? && s.pc.due != [] && s.pc.due[0] == job && e.Loop? && e.loop.ApplyPolicy?
    && match job.policy
       case Queue => true
       case Forbid => forall id <- s.runs | s.runs[id].jobId == job.id :: s.runs[id].status.Terminal()
       case Replace => forall id <- s'.runs | s'.runs[id].jobId == job.id :: s'.runs[id].status != Pending
  }

  /** Forbid finds an unfinished run. */
  ghost predicate Skips(s: State, e: Step, job: Job) {
    && s.pc.DueNext? && s.pc.due != [] && s.pc.due[0] == job && e == Loop(ApplyPolicy(true)) && job.policy == Forbid
    && exists id <- s.runs :: s.runs[id].jobId == job.id && s.runs[id].status.Unfinished()
  }

  /** The job's scheduled run is in the table. */
  predicate Enqueues(s: State, e: Step, s': State, job: Job) {
    && s.pc.DueInsert? && s.pc.job == job && e == Loop(InsertDue(true, true))
    && s'.runs == s.runs[s.nextRun := Run(s.nextRun, job.id, Scheduled, Pending, job.nextRunAt, s.pc.now,
         None, None, None, None, None)]
  }

  /** The step leaves the job as it is, to be listed again: its statement failed. */
  predicate LeavesDue(s: State, e: Step, job: Job) {
    match e
    case Loop(ApplyPolicy(ok)) => s.pc.DueNext? && s.pc.due != [] && s.pc.due[0] == job && job.policy != Queue && !ok
    case Loop(InsertDue(inserted, ok)) => s.pc.DueInsert? && s.pc.job == job && !ok
    case _ => false
  }

  predicate MovesOn(s: State, e: Step, job: Job) {
    e.Loop? && e.loop.AdvanceDue? && s.pc.DueAdvance? && s.pc.job == job
  }

  predicate EndsDue(e: Step) { e == Loop(DueDone) || e.Crash? }

  ghost predicate Admitted(ss: seq<State>, es: seq<Step>, i: nat, j: nat, job: Job)
    requires Behaviour(ss, es) && j < |ss|
  {
    exists k :: i < k < j && Admits(ss[k], es[k], ss[k + 1], job)
  }

  /** The job was skipped, or enqueued once the policy had let it in. */
  ghost predicate Treated(ss: seq<State>, es: seq<Step>, i: nat, j: nat, job: Job)
    requires Behaviour(ss, es) && j < |ss|
  {
    exists k :: i < k < j &&
      (Skips(ss[k], es[k], job) || (Enqueues(ss[k], es[k], ss[k + 1], job) && Admitted(ss, es, i, k, job)))
  }

  ghost predicate Processed(ss: seq<State>, es: seq<Step>, i: nat, j: nat, job: Job)
    requires Behaviour(ss, es) && j < |ss|
  {
    exists k :: i < k < j &&
      (LeavesDue(ss[k], es[k], job) || (MovesOn(ss[k], es[k], job) && Treated(ss, es, i, k, job)))
  }

  /** What the loop has done so far for the job in hand. */
  ghost predicate InHand(ss: seq<State>, es: seq<Step>, i: nat, j: nat)
    requires Behaviour(ss, es) && j < |ss|
  {
    && (ss[j].pc.DueInsert? ==> Admitted(ss, es, i, j, ss[j].pc.job))
    && (ss[j].pc.DueAdvance? ==> Treated(ss, es, i, j, ss[j].pc.job))
  }

  /** One step of a pass over due jobs. */
  ghost predicate DueStep(s: State, e: Step, s': State)
    requires InDue(s.pc)
  {
    InDue(s'.pc) &&
    var ahead, ahead' := DueAhead(s.pc), DueAhead(s'.pc);
    || s'.pc == s.pc
    || (ahead != [] && ahead' == ahead && s'.pc.DueInsert? && s'.pc.job == ahead[0] && Admits(s, e, s', ahead[0]))
    || (ahead != [] && ahead' == ahead && s'.pc.DueAdvance? && s'.pc.job == ahead[0]
        && (Skips(s, e, ahead[0]) || (s.pc.DueInsert? && Enqueues(s, e, s', ahead[0]))))
    || (ahead != [] && ahead' == ahead[1..] && s'.pc.DueNext?
        && (LeavesDue(s, e, ahead[0]) || (s.pc.DueAdvance? && MovesOn(s, e, ahead[0]))))
  }

  lemma PolicyStep(s: State, ok: bool)
    requires s.pc.DueNext? && s.pc.due != []
    ensures DueStep(s, Loop(ApplyPolicy(ok)), ApplyPolicyNext(s, ok))
  {
    assert [s.pc.due[0]] + s.pc.due[1..] == s.pc.due;
    hide R.HasUnfinished, R.PendingCanceled;
    PolicyFinds(s.runs, s.pc.due[0].id, s.pc.now);
  }

  lemma PolicyFinds(runs: R.Table, job: JobId, at: Second)
    ensures R.HasUnfinished(runs, job) <==> exists id <- runs :: runs[id].jobId == job && runs[id].status.Unfinished()
    ensures !R.HasUnfinished(runs, job) ==> forall id <- runs | runs[id].jobId == job :: runs[id].status.Terminal()
    ensures forall id <- R.PendingCanceled(runs, job, at) ::
      R.PendingCanceled(runs, job, at)[id].jobId == job ==> R.PendingCanceled(runs, job, at)[id].status != Pending
  {
  }

  lemma InsertStep(s: State, inserted: bool, ok: bool)
    requires LoopEnabled(s, InsertDue(inserted, ok))
    ensures DueStep(s, Loop(InsertDue(inserted, ok)), InsertDueNext(s, inserted, ok))
  {
    assert DueAhead(s.pc)[1..] == s.pc.due;
  }

  lemma AdvanceStep(s: State, ok: bool, next: Option<Second>)
    requires s.pc.DueAdvance?
    ensures DueStep(s, Loop(AdvanceDue(ok, next)), AdvanceDueNext(s, ok, next))
  {
    assert DueAhead(s.pc)[1..] == s.pc.due;
    hide J.Updated, J.NextRunUpdated;
  }

  lemma StepIsDue(s: State, e: Step)
    requires Enabled(s, e) && InDue(s.pc) && !EndsDue(e)
    ensures DueStep(s, e, Next(s, e))
  {
    hide DueStep, ApplyPolicyNext, InsertDueNext, AdvanceDueNext, RunNext, CliNext, RunEnabled, CliEnabled;
    if e.Loop? {
      match e.loop
      case ApplyPolicy(ok) => PolicyStep(s, ok);
      case InsertDue(inserted, ok) => InsertStep(s, inserted, ok);
      case AdvanceDue(ok, next) => AdvanceStep(s, ok, next);
      case _ => assert false;
    } else {
      OthersStayOn(s, e);
      SamePlace(s, e, Next(s, e));
    }
  }

  lemma SamePlace(s: State, e: Step, s': State)
    requires InDue(s.pc) && s'.pc == s.pc
    ensures DueStep(s, e, s')
  {
    hide Admits, Skips, Enqueues, LeavesDue, MovesOn;
  }

  lemma ListedDue(ss: seq<State>, es: seq<Step>, i: nat, due: seq<Job>)
    requires Behaviour(ss, es) && i < |es| && es[i] == Loop(ListDue(Some(due)))
    ensures ss[i + 1].pc.DueNext? && ss[i + 1].pc.due == due
  {
    assert Enabled(ss[i], es[i]) && ss[i + 1] == Next(ss[i], es[i]);
  }

  /** As far as the pass has come, each due job is processed. */
  lemma {:induction false} DueSettles(ss: seq<State>, es: seq<Step>, i: nat, j: nat, due: seq<Job>)
    requires Behaviour(ss, es) && i < j < |ss| && es[i] == Loop(ListDue(Some(due)))
    requires forall k :: i < k < j ==> !EndsDue(es[k])
    ensures InDue(ss[j].pc) && Tail(DueAhead(ss[j].pc), due) && InHand(ss, es, i, j)
    ensures forall n :: 0 <= n < |due| - |DueAhead(ss[j].pc)| ==> Processed(ss, es, i, j, due[n])
    decreases j
  {
    hide Next, Enabled, DueStep, Processed, Admitted, Treated;
    if j == i + 1 {
      ListedDue(ss, es, i, due);
    } else {
      hide InHand, Tail, DueAhead;
      DueSettles(ss, es, i, j - 1, due);
      StepIsDue(ss[j - 1], es[j - 1]);
      StaysInHand(ss, es, i, j);
      ProcessesOneMore(ss, es, i, j, due);
    }
  }

  lemma StaysInHand(ss: seq<State>, es: seq<Step>, i: nat, j: nat)
    requires Behaviour(ss, es) && i + 1 < j < |ss|
    requires InDue(ss[j - 1].pc) && InHand(ss, es, i, j - 1) && DueStep(ss[j - 1], es[j - 1], ss[j])
    ensures InHand(ss, es, i, j)
  {
    hide Behaviour, Admits, Skips, Enqueues, LeavesDue, MovesOn;
    if ss[j].pc == ss[j - 1].pc {
      assert ss[j].pc.DueInsert? ==> Admitted(ss, es, i, j - 1, ss[j].pc.job);
      assert ss[j].pc.DueAdvance? ==> Treated(ss, es, i, j - 1, ss[j].pc.job);
    } else if ss[j].pc.DueAdvance? && ss[j - 1].pc.DueInsert? {
      assert Admitted(ss, es, i, j - 1, ss[j - 1].pc.job);
    }
  }

  lemma LastProcessed(ss: seq<State>, es: seq<Step>, i: nat, j: nat)
    requires Behaviour(ss, es) && i + 1 < j < |ss| && InDue(ss[j - 1].pc)
    requires InHand(ss, es, i, j - 1) && DueStep(ss[j - 1], es[j - 1], ss[j])
    ensures InDue(ss[j].pc)
    ensures var ahead, ahead' := DueAhead(ss[j - 1].pc), DueAhead(ss[j].pc);
      ahead' == ahead || (ahead != [] && ahead' == ahead[1..] && Processed(ss, es, i, j, ahead[0]))
  {
    hide Behaviour, Admits, Skips, Enqueues, LeavesDue, MovesOn, Treated, Admitted;
  }

  lemma ProcessesOneMore(ss: seq<State>, es: seq<Step>, i: nat, j: nat, due: seq<Job>)
    requires Behaviour(ss, es) && i + 1 < j < |ss| && InDue(ss[j - 1].pc) && Tail(DueAhead(ss[j - 1].pc), due)
    requires InHand(ss, es, i, j - 1) && DueStep(ss[j - 1], es[j - 1], ss[j])
    requires forall n :: 0 <= n < |due| - |DueAhead(ss[j - 1].pc)| ==> Processed(ss, es, i, j - 1, due[n])
    ensures InDue(ss[j].pc) && Tail(DueAhead(ss[j].pc), due)
    ensures forall n :: 0 <= n < |due| - |DueAhead(ss[j].pc)| ==> Processed(ss, es, i, j, due[n])
  {
    hide Behaviour, Admits, Skips, Enqueues, LeavesDue, MovesOn, Tail, Treated, Admitted;
    var ahead, ahead' := DueAhead(ss[j - 1].pc), DueAhead(ss[j].pc);
    assert ahead' == ahead || (ahead != [] && ahead' == ahead[1..] && Processed(ss, es, i, j, ahead[0])) by {
      LastProcessed(ss, es, i, j);
    }
    hide DueStep, InHand, DueAhead, InDue;
    if ahead != [] { TailShifts(ahead, due); }
    forall n | 0 <= n < |due| - |DueAhead(ss[j].pc)| ensures Processed(ss, es, i, j, due[n]) {
      if n < |due| - |DueAhead(ss[j - 1].pc)| { assert Processed(ss, es, i, j - 1, due[n]); }
    }
  }

  /**
    A pass that comes to its end has moved each due job on, after forbid skipped it or its policy let it in and its row
    was inserted for the due time; or left it as it was, because a statement failed.
   */
  lemma EveryDueJob(ss: seq<State>, es: seq<Step>, i: nat, j: nat, due: seq<Job>, n: nat)
    requires Behaviour(ss, es) && i < j < |es| && n < |due|
    requires es[i] == Loop(ListDue(Some(due))) && es[j] == Loop(DueDone)
    requires forall k :: i < k < j ==> !EndsDue(es[k])
    ensures Processed(ss, es, i, j, due[n])
  {
    hide Processed;
    DueSettles(ss, es, i, j, due);
    NothingAhead(ss, es, j);
    hide Behaviour;
  }
}
