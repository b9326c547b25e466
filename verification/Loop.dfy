/**
  The daemon's loop as it is written: methods that change fields and call the store. Between any
  two statements of the loop the other actors may do anything they can do. Every such execution
  is a behaviour of the step system, so what is proved there holds of the loop.
 */
module Loop {
  import opened Domain
  import opened Protocol
  import opened Storage
  import Schedule
  import opened Safety
  import R = RunsStore
  import J = JobsStore
  import D = Database
  import RunLife

  /**
    The advance of a job's schedule goes through: its row is there and accepted, its schedule and zone are readable.
   */
  ghost predicate Advances(lib: Schedule.Library, jobs: J.Table, job: Job) {
    && job.id in jobs
    && if job.kind == Once then !(job.onFinish.Some? && job.disableInherited)
       else job.nextRunAt.Some? && Schedule.LoadZone(lib, job.timezone).Ok?
            && Schedule.Reparsed(lib, Schedule.Spec(job.kind, job.expr)).Ok?
  }

  /** The outcome of each call while the database answers every one: only missing rows and bad schedules fail. */
  ghost predicate Answered(lib: Schedule.Library, s: State, e: Step) {
    match e
    case Loop(ListDue(due)) => due.Some?
    case Loop(ApplyPolicy(ok)) => s.pc.DueNext? && (s.pc.due != [] && s.pc.due[0].nextRunAt.Some? ==> ok)
    case Loop(InsertDue(inserted, ok)) =>
      s.pc.DueInsert? && (inserted <==> s.pc.job.id in s.jobs && s.pc.job.nextRunAt.Some?) && ok == inserted
    case Loop(AdvanceDue(ok, next)) => s.pc.DueAdvance? && (ok <==> Advances(lib, s.jobs, s.pc.job))
    case Loop(ListPending(limit, page)) => page.Some?
    case Loop(LoadJob(ok)) => ok
    case Loop(TryClaim(ok)) => ok
    case Loop(MarkRunning(ok)) => ok
    case Completion(id, Persist(ok)) => ok
    case Completion(id, Summarise(ok)) => ok
    case _ => true
  }

  /** s is the last state of a behaviour. */
  ghost predicate Traced(ss: seq<State>, es: seq<Step>, s: State) {
    Behaviour(ss, es) && s == ss[|es|] && Inv(s)
  }

  ghost predicate AllAnswered(lib: Schedule.Library, ss: seq<State>, es: seq<Step>) {
    |ss| == |es| + 1 && forall i :: 0 <= i < |es| ==> Answered(lib, ss[i], es[i])
  }

  lemma Extends(ss: seq<State>, es: seq<Step>, s: State, e: Step)
    requires Traced(ss, es, s) && Enabled(s, e)
    ensures Traced(ss + [Next(s, e)], es + [e], Next(s, e))
  {
    hide Next, Enabled, Inv;
    StepKeeps(s, e);
  }

  lemma StillAnswered(lib: Schedule.Library, ss: seq<State>, es: seq<Step>, s: State, e: Step, s': State)
    requires Traced(ss, es, s) && AllAnswered(lib, ss, es) && Answered(lib, s, e)
    ensures AllAnswered(lib, ss + [s'], es + [e])
  {
    hide Inv, Answered, Next, Enabled;
  }

  /** What became of `job run`. */
  datatype Enqueued = Added(id: RunId) | Conflict | Refused

  lemma {:induction false} SameStates(ss: seq<State>, es: seq<Step>, ss': seq<State>, es': seq<Step>)
    requires Behaviour(ss, es) && Behaviour(ss', es') && es <= es'
    ensures ss <= ss'
    decreases |es|
  {
    hide Next, Enabled;
    if es == [] {
    } else {
      var n := |es| - 1;
      SameStates(ss[..n + 1], es[..n], ss', es');
      assert ss'[n] == ss[n] && es'[n] == es[n];
    }
  }

  /** These runs are offered the reason; one set before is kept. */
  function Told(reasons: map<RunId, Reason>, ids: set<RunId>, reason: Reason): map<RunId, Reason> {
    map id <- reasons :: if id in ids && reasons[id] == NoReason then reason else reasons[id]
  }

  lemma NoneTold(reasons: map<RunId, Reason>, reason: Reason)
    ensures Told(reasons, {}, reason) == reasons
  {
  }

  lemma OneMoreTold(reasons: map<RunId, Reason>, ids: set<RunId>, reason: Reason, id: RunId)
    requires reason != NoReason
    ensures SetReason(Told(reasons, ids, reason), id, reason) == Told(reasons, ids + {id}, reason)
  {
  }

  function Ticks(es: seq<Step>): nat {
    if es == [] then 0 else Ticks(es[..|es| - 1]) + (if es[|es| - 1] == Step.Loop(Tick) then 1 else 0)
  }

  lemma {:induction false} TicksGrow(es: seq<Step>, es': seq<Step>)
    requires es <= es'
    ensures Ticks(es) <= Ticks(es')
  {
    if es == es' {
    } else {
      assert es <= es'[..|es'| - 1];
      TicksGrow(es, es'[..|es'| - 1]);
    }
  }

  class Loop {
    const db: D.Database
    const lib: Schedule.Library
    const claimLimit: int
    const patience: nat             // how long waits and catch-ups are followed
    const reliable: bool            // every call to the database is answered

    var active: map<RunId, Active>
    var reasons: map<RunId, Reason>
    var waitGroup: int
    var leaving: nat
    var clock: Second
    var runner: nat

    ghost var s: State
    ghost var ss: seq<State>
    ghost var es: seq<Step>

    /** The fields are those of the last state of a behaviour. */
    ghost predicate Valid()
      reads this, db
    {
      && Agrees()
      && Traced(ss, es, s)
      && (reliable ==> AllAnswered(lib, ss, es))
    }

    ghost predicate Agrees()
      reads this, db
    {
      && db.jobs == s.jobs && db.runs == s.runs && db.nextJob == s.nextJob && db.nextRun == s.nextRun
      && active == s.active && reasons == s.reasons && waitGroup == s.waitGroup && leaving == s.leaving
      && clock == s.clock && runner == s.runner
    }

    constructor (lib: Schedule.Library, claimLimit: int, patience: nat, reliable: bool)
      ensures Valid() && s == FRESH && es == [] && fresh(db)
    {
      this.lib, this.claimLimit, this.patience, this.reliable := lib, claimLimit, patience, reliable;
      db := new D.Database();
      active, reasons, waitGroup, leaving, clock, runner := map[], map[], 0, 0, 0, 0;
      s, ss, es := FRESH, [FRESH], [];
      new;
      Reachable(ss, es, 0);
    }

    /** The step just taken joins the behaviour. */
    ghost method Record(e: Step)
      requires Traced(ss, es, s) && Enabled(s, e)
      requires reliable ==> AllAnswered(lib, ss, es) && Answered(lib, s, e)
      modifies this`s, this`ss, this`es
      ensures Traced(ss, es, s) && (reliable ==> AllAnswered(lib, ss, es))
      ensures s == Next(old(s), e) && es == old(es) + [e]
    {
      hide Next, Enabled, Traced, AllAnswered, Answered;
      Extends(ss, es, s, e);
      if reliable { StillAnswered(lib, ss, es, s, e, Next(s, e)); }
      s := Next(s, e);
      ss := ss + [s];
      es := es + [e];
    }

    /** Whether the database answers the next call. */
    method Answers() returns (up: bool)
      ensures reliable ==> up
    {
      up := *;
      if reliable { up := true; }
    }

    ghost method RecordRun(id: RunId, e: RunStep)
      requires Traced(ss, es, s) && RunEnabled(s, id, e)
      requires reliable ==> AllAnswered(lib, ss, es) && Answered(lib, s, Completion(id, e))
      modifies this`s, this`ss, this`es
      ensures Traced(ss, es, s) && (reliable ==> AllAnswered(lib, ss, es))
      ensures s == RunNext(old(s), id, e) && es == old(es) + [Completion(id, e)]
    {
      hide Traced, AllAnswered, RunEnabled, RunNext;
      Record(Completion(id, e));
    }

    ghost method RecordCli(e: CliStep)
      requires Traced(ss, es, s) && CliEnabled(s, e)
      requires reliable ==> AllAnswered(lib, ss, es)
      modifies this`s, this`ss, this`es
      ensures Traced(ss, es, s) && (reliable ==> AllAnswered(lib, ss, es))
      ensures s == CliNext(old(s), e) && es == old(es) + [Cli(e)]
    {
      hide Traced, AllAnswered, CliEnabled, CliNext;
      Record(Cli(e));
    }

    ghost method RecordLoop(e: LoopStep)
      requires Traced(ss, es, s) && LoopEnabled(s, e)
      requires reliable ==> AllAnswered(lib, ss, es) && Answered(lib, s, Step.Loop(e))
      modifies this`s, this`ss, this`es
      ensures Traced(ss, es, s) && (reliable ==> AllAnswered(lib, ss, es))
      ensures s == LoopNext(old(s), e) && es == old(es) + [Step.Loop(e)]
    {
      hide Traced, AllAnswered, LoopEnabled, LoopNext;
      Record(Step.Loop(e));
    }

    /** The loop only moves on. */
    ghost method RecordMove(e: LoopStep)
      requires Traced(ss, es, s) && LoopEnabled(s, e) && OnlyMoves(e)
      requires reliable ==> AllAnswered(lib, ss, es) && Answered(lib, s, Step.Loop(e))
      modifies this`s, this`ss, this`es
      ensures Traced(ss, es, s) && (reliable ==> AllAnswered(lib, ss, es))
      ensures s == old(s).(pc := Moved(old(s), e)) && es == old(es) + [Step.Loop(e)]
    {
      hide Traced, AllAnswered, LoopEnabled, Moved;
      RecordLoop(e);
    }

    ghost method RecordCancel(id: RunId)
      requires Traced(ss, es, s) && Canceling(s.pc) && id in Targets(s.pc)
      requires reliable ==> AllAnswered(lib, ss, es)
      modifies this`s, this`ss, this`es
      ensures Traced(ss, es, s) && (reliable ==> AllAnswered(lib, ss, es))
      ensures s == CancelHandleNext(old(s), id) && es == old(es) + [Step.Loop(CancelHandle(id))]
    {
      hide Traced, AllAnswered;
      RecordLoop(CancelHandle(id));
    }

    lemma StoreIsValid()
      requires Valid()
      ensures db.Valid()
    {
      hide Rows, Starts, Entries, OneUnreasoned, Snapshots, Registering, Accounted, Clearing;
    }

    // ----- the loop's own methods on the map -----

    /** The first reason wins. */
    method SetReason(id: RunId, r: Reason)
      modifies this`reasons
      ensures reasons == Protocol.SetReason(old(reasons), id, r)
    {
      if id in reasons && reasons[id] == NoReason { reasons := reasons[id := r]; }
    }

    method HasActiveRun(job: JobId) returns (found: bool)
      ensures found <==> exists id <- active :: active[id].job == job
    {
      var rest := active.Keys;
      while rest != {}
        invariant rest <= active.Keys
        invariant forall id <- active :: id in rest || active[id].job != job
      {
        var id :| id in rest;
        if active[id].job == job { return true; }
        rest := rest - {id};
      }
      return false;
    }

    /** The activeRun objects of a job. */
    method JobHandles(job: JobId) returns (handles: set<RunId>)
      ensures handles == set id <- active | active[id].job == job
    {
      handles := {};
      var rest := active.Keys;
      while rest != {}
        invariant rest <= active.Keys
        invariant handles == set id <- active | id !in rest && active[id].job == job
      {
        var id :| id in rest;
        if active[id].job == job { handles := handles + {id}; }
        rest := rest - {id};
      }
    }

    // ----- the other actors, one statement at a time -----

    /** Every entry of the map has its activeRun object, and a goroutine about to persist has a terminal outcome. */
    lemma EntryShape(id: RunId)
      requires Valid() && id in active
      ensures id in reasons
      ensures active[id].phase.Decided? ==> active[id].phase.final.status.Terminal()
    {
      hide Behaviour, Ids, Rows, Starts, OneUnreasoned, Snapshots, Registering, Accounted, Clearing;
    }

    /** persistRunCompletion, up to the decision what to store. */
    method Decide(id: RunId)
      requires Valid() && id in active && active[id].phase.Executed?
      modifies this
      ensures Valid() && s.pc == old(s.pc) && es == old(es) + [Completion(id, Protocol.Decide)]
      ensures id in old(reasons)
      ensures reasons == old(reasons) && active.Keys == old(active.Keys)
      ensures var result := old(active[id].phase.result);
        active == old(active)[id := old(active[id]).(phase := Decided(
          match reasons[id]
          case NoReason => result
          case Replacement => result.(status := Canceled, message := Some("canceled by replacement"))
          case Shutdown => result.(status := Canceled, message := Some("canceled by shutdown"))))]
    {
      hide Traced, AllAnswered;
      EntryShape(id);
      var final := active[id].phase.result;
      if reasons[id] == Replacement {
        final := final.(status := Canceled, message := Some(REPLACED_MESSAGE));
      } else if reasons[id] == Shutdown {
        final := final.(status := Canceled, message := Some(SHUTDOWN_MESSAGE));
      }
      active := active[id := active[id].(phase := Decided(final))];
      RecordRun(id, Protocol.Decide);
    }

    /** Its MarkFinished: an error returns early, without summary and without hook. */
    method Persist(id: RunId)
      requires Valid() && id in active && active[id].phase.Decided?
      modifies this, db
      ensures Valid() && s.pc == old(s.pc) && exists ok :: es == old(es) + [Completion(id, Protocol.Persist(ok))]
      ensures reasons == old(reasons) && active.Keys == old(active.Keys)
      ensures id in active && (active[id].phase.Persisted? || active[id].phase == Done(false))
      ensures active[id].phase.Persisted? ==>
        id in old(db.runs) && db.runs == R.Finished(old(db.runs), id, old(active[id].phase.final))
      ensures active[id].phase.Done? ==> db.runs == old(db.runs)
      ensures reliable && id in old(db.runs) ==> active[id].phase.Persisted?
    {
      hide Traced, AllAnswered;
      EntryShape(id);
      StoreIsValid();
      var up := Answers();
      var final := active[id].phase.final;
      var ok := db.MarkFinished(id, final, up);
      active := active[id := active[id].(phase := if ok then Persisted(final) else Done(false))];
      RecordRun(id, Protocol.Persist(up));
    }

    /** UpdateLastRunSummary; its error is logged only. */
    method Summarise(id: RunId)
      requires Valid() && id in active && active[id].phase.Persisted?
      modifies this, db
      ensures Valid() && s.pc == old(s.pc) && exists ok :: es == old(es) + [Completion(id, Protocol.Summarise(ok))]
      ensures reasons == old(reasons) && active.Keys == old(active.Keys)
      ensures id in active && active[id].phase == Summarised(old(active[id].phase.final))
      ensures var o := old(active[id].phase.final);
        var reported := J.SummaryUpdated(old(db.jobs), active[id].job, o.finishedAt, o.status);
        (db.jobs == old(db.jobs) || db.jobs == reported) && (reliable ==> db.jobs == reported)
    {
      hide Traced, AllAnswered;
      EntryShape(id);
      StoreIsValid();
      var up := Answers();
      var final := active[id].phase.final;
      var ok := db.UpdateLastRunSummary(active[id].job, final.finishedAt, final.status, up);
      active := active[id := active[id].(phase := Summarised(final))];
      RecordRun(id, Protocol.Summarise(up));
    }

    /** finishActiveRun, up to wg.Done. */
    method Unregister(id: RunId)
      requires Valid() && id in active && active[id].phase.Done?
      modifies this
      ensures Valid() && s.pc == old(s.pc) && es == old(es) + [Completion(id, Protocol.Unregister)]
      ensures reasons == old(reasons)
      ensures active == old(active) - {id} && waitGroup == old(waitGroup)
    {
      hide Traced, AllAnswered;
      EntryShape(id);
      active, leaving := active - {id}, leaving + 1;
      RecordRun(id, Protocol.Unregister);
    }

    /** The next statement of a completion goroutine. */
    method Complete(id: RunId)
      requires Valid() && id in active
      modifies this, db
      ensures Valid() && s.pc == old(s.pc) && exists e :: es == old(es) + [Completion(id, e)]
      ensures reasons == old(reasons) && active.Keys <= old(active.Keys)
    {
      hide Traced, AllAnswered;
      EntryShape(id);
      match active[id].phase
      case Executing =>
        var result: Outcome := *;
        if result.status != Succeeded { result := result.(status := Failed); }
        active := active[id := active[id].(phase := Executed(result))];
        RecordRun(id, Execute(result));
      case Executed(result) => Decide(id);
      case Decided(final) => Persist(id);
      case Persisted(final) => Summarise(id);
      case Summarised(final) =>
        active := active[id := active[id].(phase := Done(true))];
        RecordRun(id, Notify);
      case Done(stored) => Unregister(id);
    }

    /** A statement of some command line process. */
    method Command()
      requires Valid()
      modifies db, this`s, this`ss, this`es
      ensures Valid() && s.pc == old(s.pc) && old(es) <= es
    {
      hide Traced, AllAnswered;
      StoreIsValid();
      var c: CliStep := *;
      match c
      case AddJob(row) =>
        if row.id == db.nextJob && row.lastRunAt == None && row.lastRunStatus == None {
          var ok := db.Create(row, true);
          if ok { RecordCli(c); }
        }
      case WriteJob(row) =>
        var ok := db.Update(row, true);
        if ok { RecordCli(c); }
      case DeleteJob(job) =>
        var ok := db.Delete(job, true);
        if ok { RecordCli(c); }
      case CancelPending(job, at) =>
        db.CancelPendingByJob(job, at, true);
        RecordCli(c);
      case InsertManual(job, at) =>
        var ok := db.Insert(job, None, at, true);
        if ok { RecordCli(c); }
      case RunJob(job) =>
        if job in db.jobs { var _ := RunAtOnce(db.jobs[job]); }
    }

    /** `job run` when nothing else happens between its statements. */
    method RunAtOnce(job: Job) returns (ok: bool)
      requires Valid() && job.id in db.jobs && db.jobs[job.id] == job
      modifies db, this`s, this`ss, this`es
      ensures Valid() && s.pc == old(s.pc) && old(es) <= es
      ensures ok <==> !(job.policy == Forbid && R.HasUnfinished(old(db.runs), job.id))
      ensures db.jobs == old(db.jobs)
      ensures db.runs ==
        if !ok then old(db.runs)
        else R.Inserted(if job.policy == Replace then R.PendingCanceled(old(db.runs), job.id, clock) else old(db.runs),
                        old(db.nextRun), job.id, None, clock)
    {
      hide Traced, AllAnswered;
      StoreIsValid();
      if job.policy == Forbid {
        var unfinished := db.ListUnfinishedByJob(job.id, true);
        if unfinished.value != [] { return false; }
      } else if job.policy == Replace {
        db.CancelPendingByJob(job.id, clock, true);
      }
      ok := db.Insert(job.id, None, clock, true);
      RecordCli(RunJob(job.id));
    }

    /** `job run`, statement by statement: anything may happen between its check or cancellation and its insert. */
    method EnqueueManualWithPolicy(job: Job, now: Second) returns (r: Enqueued)
      requires Valid()
      modifies this, db
      ensures Valid() && s.pc == old(s.pc) && old(es) <= es
      ensures r.Added? ==>
        && es != [] && es[|es| - 1] == Cli(Protocol.InsertManual(job.id, now))
        && r.id in db.runs && db.runs[r.id] == R.NewRun(r.id, job.id, None, now)
      ensures r.Added? && job.policy == Forbid ==> exists k ::
        |old(es)| <= k < |ss| && !R.HasUnfinished(ss[k].runs, job.id)
      ensures r.Added? && job.policy == Replace ==> exists k ::
        |old(es)| <= k < |es| && es[k] == Cli(CancelPending(job.id, now))
      ensures r.Conflict? ==>
        job.policy == Forbid && exists k :: |old(es)| <= k < |ss| && R.HasUnfinished(ss[k].runs, job.id)
      ensures r.Refused? && reliable ==> job.id !in db.jobs
    {
      hide Traced, AllAnswered, R.HasUnfinished, R.NewRun;
      Others();
      var up, free := Admit(job, now);
      if !up { return Refused; }
      if !free { return Conflict; }
      ghost var last := |es|;
      r := AddManual(job.id, now);
      assert job.policy == Replace ==> es[last - 1] == Cli(CancelPending(job.id, now));
      assert job.policy == Forbid ==> !R.HasUnfinished(ss[last].runs, job.id);
    }

    /** The policy's statement before a manual insert. */
    method Admit(job: Job, now: Second) returns (up: bool, free: bool)
      requires Valid()
      modifies db, this`s, this`ss, this`es
      ensures Valid() && s.pc == old(s.pc) && db.jobs == old(db.jobs) && old(es) <= es && (reliable ==> up)
      ensures !free ==> job.policy == Forbid
      ensures up && job.policy == Forbid ==> |ss| == |es| + 1 && (free <==> !R.HasUnfinished(ss[|es|].runs, job.id))
      ensures up && job.policy == Replace ==> |es| > |old(es)| && es[|es| - 1] == Cli(CancelPending(job.id, now))
    {
      hide Traced, AllAnswered, R.HasUnfinished, R.IsUnfinishedList, R.PendingCanceled;
      up, free := true, true;
      StoreIsValid();
      if job.policy == Forbid {
        up := Answers();
        var unfinished := db.ListUnfinishedByJob(job.id, up);
        free := up ==> unfinished.value == [];
        Now();
      } else if job.policy == Replace {
        up := Answers();
        db.CancelPendingByJob(job.id, now, up);
        if up { RecordCli(CancelPending(job.id, now)); }
      }
    }

    /** The insert, after whatever the others do meanwhile. */
    method AddManual(job: JobId, now: Second) returns (r: Enqueued)
      requires Valid()
      modifies this, db
      ensures Valid() && s.pc == old(s.pc) && old(es) <= es && old(ss) <= ss
      ensures r.Added? ==>
        && |es| > |old(es)| && es[|es| - 1] == Cli(Protocol.InsertManual(job, now))
        && r.id in db.runs && db.runs[r.id] == R.NewRun(r.id, job, None, now)
      ensures !r.Added? ==> r.Refused? && (reliable ==> job !in db.jobs)
    {
      hide Traced, AllAnswered;
      ghost var states, steps := ss, es;
      Now();
      Others();
      StoreIsValid();
      var up := Answers();
      var id := db.nextRun;
      var ok := db.Insert(job, None, now, up);
      if ok { RecordCli(Protocol.InsertManual(job, now)); }
      Extended(states, steps);
      return if ok then Added(id) else Refused;
    }

    /** The trace determines its states. */
    lemma Extended(states: seq<State>, steps: seq<Step>)
      requires Valid() && Behaviour(states, steps) && steps <= es
      ensures states <= ss
    {
      hide Inv, Next, Enabled;
      SameStates(states, steps, ss, es);
    }

    lemma Now()
      requires Valid()
      ensures Behaviour(ss, es) && |ss| == |es| + 1 && ss[|es|] == s && s.runs == db.runs && s.active == active
    {
      hide Inv, Next, Enabled;
    }

    /** Whatever the other actors do between two statements of the loop. */
    method Others()
      requires Valid()
      modifies this, db
      ensures Valid() && s.pc == old(s.pc) && old(es) <= es
    {
      hide Valid;
      Meanwhile();
    }

    /** Only the loop sets reasons, and only it registers runs. */
    method Meanwhile()
      requires Valid()
      modifies this, db
      ensures Valid() && s.pc == old(s.pc) && old(es) <= es
      ensures reasons == old(reasons) && active.Keys <= old(active.Keys)
    {
      hide Traced, AllAnswered;
      var turns: int := *;
      while turns > 0
        invariant Valid() && s.pc == old(s.pc) && old(es) <= es
        invariant reasons == old(reasons) && active.Keys <= old(active.Keys)
      {
        turns := turns - 1;
        var actor: int := *;
        if actor == 0 {
          Command();
        } else if actor == 1 {
          if leaving > 0 {
            leaving, waitGroup := leaving - 1, waitGroup - 1;
            Record(WgDone);
          }
        } else if actor == 2 {
          clock := *;
          Record(Clock(clock));
        } else {
          var id: RunId := *;
          if id in active { Complete(id); }
        }
      }
    }

    // ----- the loop goroutine -----

    function ClaimLimit(): nat {
      if claimLimit > 0 then claimLimit else 64
    }

    ghost function WithTargets(pc: Pc, handles: set<RunId>): Pc
      requires Canceling(pc)
    {
      if pc.Stopping? then Pc.Stopping(handles) else pc.(stage := Stage.Replacing(handles))
    }

    /** The handles collected are told one by one, while runs go on finishing. */
    method TellAll(handles: set<RunId>, reason: Reason)
      requires Valid() && Canceling(s.pc) && Targets(s.pc) == handles
      requires reason == if s.pc.Stopping? then Shutdown else Replacement
      modifies this, db
      ensures Valid() && s.pc == WithTargets(old(s.pc), {}) && old(es) <= es
      ensures reasons == Told(old(reasons), handles, reason) && active.Keys <= old(active.Keys)
    {
      hide Traced, AllAnswered, Told, Protocol.SetReason;
      NoneTold(reasons, reason);
      var rest := handles;
      assert handles - rest == {};
      while rest != {}
        invariant Valid() && s.pc == WithTargets(old(s.pc), rest) && old(es) <= es
        invariant rest <= handles && reasons == Told(old(reasons), handles - rest, reason)
        invariant active.Keys <= old(active.Keys)
      {
        Meanwhile();
        var id :| id in rest;
        SetReason(id, reason);
        OneMoreTold(old(reasons), handles - rest, reason, id);
        assert handles - (rest - {id}) == (handles - rest) + {id};
        rest := rest - {id};
        RecordCancel(id);
      }
      assert handles - rest == handles;
    }

    /** cancelJobRuns with the reason replacement. */
    method CancelJobRuns(job: JobId)
      requires Valid() && At(s.pc, Collect) && s.pc.job.id == job
      modifies this, db
      ensures Valid() && s.pc == old(s.pc).(stage := Claim) && old(es) <= es
      ensures exists handles :: reasons == Told(old(reasons), handles, Replacement)
    {
      hide Traced, AllAnswered, R.IsPage, J.IsDueList, HasActive, Handles, Told;
      var handles := CollectJobHandles(job);
      TellAll(handles, Replacement);
      RecordMove(HandlesDone);
    }

    method CollectJobHandles(job: JobId) returns (handles: set<RunId>)
      requires Valid() && At(s.pc, Collect) && s.pc.job.id == job
      modifies this, db
      ensures Valid() && s.pc == old(s.pc).(stage := Replacing(handles)) && handles == Handles(s, job) && old(es) <= es
      ensures reasons == old(reasons)
    {
      hide Traced, AllAnswered, R.IsPage, J.IsDueList, HasActive;
      Meanwhile();
      handles := JobHandles(job);
      assert handles == Handles(s, job);
      RecordMove(CollectHandles);
    }

    /** Past the check, every active run of the job has been told to stop. */
    lemma Cleared()
      requires Valid() && At(s.pc, Claim)
      ensures forall id <- active | active[id].job == s.pc.job.id :: id in reasons && reasons[id] != NoReason
    {
      hide Behaviour, Ids, Rows, Starts, Entries, OneUnreasoned, Snapshots, Registering, Accounted;
    }

    /** Whether the run may start now; under replace the job's active runs are told to stop first. */
    method PrepareRunStart(job: Job) returns (ready: bool)
      requires Valid() && At(s.pc, Prepare) && s.pc.job == job
      modifies this, db
      ensures Valid() && old(es) <= es
      ensures s.pc == if ready then old(s.pc).(stage := Claim) else Pass(old(s.pc).rest)
      ensures !ready ==> job.policy != Replace && exists k :: |old(es)| <= k < |ss| && HasActive(ss[k], job.id)
      ensures ready ==> forall id <- active | active[id].job == job.id :: id in reasons && reasons[id] != NoReason
      ensures exists handles :: reasons == Told(old(reasons), handles, Replacement)
      ensures job.policy != Replace ==> reasons == old(reasons)
    {
      hide Traced, AllAnswered, Told, HasActive;
      NoneTold(reasons, Replacement);
      var busy := CheckActive(job);
      if job.policy == Replace {
        if busy { CancelJobRuns(job.id); }
        Cleared();
        return true;
      }
      if !busy { Cleared(); }
      return !busy;
    }

    /** Whether the job has an active run, and where that leads. */
    method CheckActive(job: Job) returns (busy: bool)
      requires Valid() && At(s.pc, Prepare) && s.pc.job == job
      modifies this, db
      ensures Valid() && old(es) <= es && reasons == old(reasons)
      ensures s.pc == if !busy then old(s.pc).(stage := Claim)
        else if job.policy == Replace then old(s.pc).(stage := Collect) else Pass(old(s.pc).rest)
      ensures exists k :: |old(es)| <= k < |ss| && (busy <==> HasActive(ss[k], job.id))
    {
      hide Traced, AllAnswered, R.IsPage, J.IsDueList;
      Meanwhile();
      Now();
      ghost var n := |es|;
      busy := HasActiveRun(job.id);
      assert busy <==> HasActive(ss[n], job.id);
      ghost var states, steps := ss, es;
      RecordMove(PrepareStart);
      Extended(states, steps);
    }

    /** The critical section of startRunExecution; the goroutine it starts is one of the others from here on. */
    method StartRunExecution(run: Run)
      requires Valid() && At(s.pc, Register) && s.pc.run == run
      modifies this
      ensures Valid() && s.pc == Pass(old(s.pc).rest) && old(es) <= es
      ensures active == old(active)[run.id := Active(run.jobId, Executing)] && waitGroup == old(waitGroup) + 1
      ensures s.starts == old(s.starts) + [run]
    {
      hide Traced, AllAnswered;
      active := active[run.id := Active(run.jobId, Executing)];
      reasons := reasons[run.id := NoReason];
      waitGroup := waitGroup + 1;
      RecordLoop(RegisterActive);
    }

    /** The body of the pending loop: load the job, prepare, claim, mark running, start. */
    method HandlePending(run: Run, ghost rest: seq<Run>)
      requires Valid() && s.pc == Pass([run] + rest)
      modifies this, db
      ensures Valid() && s.pc == Pass(rest) && old(es) <= es
    {
      hide Traced, AllAnswered;
      Others();
      var up := Answers();
      RecordMove(LoadJob(up));
      if !up || run.jobId !in db.jobs { return; }
      var job := db.jobs[run.jobId];

      var ready := PrepareRunStart(job);
      if !ready { return; }

      ClaimAndStart(run);
    }

    method TryClaim(run: Run) returns (claimed: bool)
      requires Valid() && At(s.pc, Claim) && s.pc.run == run
      modifies this, db
      ensures Valid() && old(es) <= es
      ensures s.pc == if claimed then old(s.pc).(stage := Mark) else Pass(old(s.pc).rest)
      ensures claimed ==>
        run.id in db.runs && db.runs[run.id].status == Pending && db.runs[run.id].runner == Some(runner)
    {
      hide Traced, AllAnswered;
      Others();
      StoreIsValid();
      var up := Answers();
      claimed := db.TryClaimPending(run.id, runner, up);
      RecordLoop(Protocol.TryClaim(up));
    }

    method MarkRunning(run: Run) returns (marked: bool)
      requires Valid() && At(s.pc, Mark) && s.pc.run == run
      modifies this, db
      ensures Valid() && old(es) <= es
      ensures s.pc == if marked then old(s.pc).(stage := Register) else Pass(old(s.pc).rest)
      ensures marked ==>
        && run.id in db.runs && db.runs[run.id].status == Running && db.runs[run.id].startedAt == Some(clock)
        && run.id in s.marked
    {
      hide Traced, AllAnswered;
      Others();
      StoreIsValid();
      var up := Answers();
      marked := db.MarkRunning(run.id, clock, up);
      RecordLoop(Protocol.MarkRunning(up));
    }

    /** Only the winner of the claim marks the row running, and only a row it marked is started. */
    method ClaimAndStart(run: Run)
      requires Valid() && At(s.pc, Claim) && s.pc.run == run
      modifies this, db
      ensures Valid() && s.pc == Pass(old(s.pc).rest) && old(es) <= es
    {
      hide Traced, AllAnswered;
      var claimed := TryClaim(run);
      if !claimed { return; }
      var marked := MarkRunning(run);
      if !marked { return; }
      Others();
      StartRunExecution(run);
    }

    /** The listing of a pass. */
    method ListPage() returns (page: Option<seq<Run>>)
      requires Valid() && s.pc.PendingList?
      modifies this, db
      ensures Valid() && old(es) <= es
      ensures s.pc == if page.Some? then Pass(page.value) else Waiting
      ensures page.Some? ==> R.IsPage(db.runs, if claimLimit > 0 then claimLimit else 64, page.value)
    {
      hide Traced, AllAnswered, R.IsPage;
      Others();
      StoreIsValid();
      var up := Answers();
      page := db.ListPending(ClaimLimit(), up);
      RecordMove(ListPending(ClaimLimit(), page));
    }

    method ProcessPendingRuns()
      requires Valid() && s.pc.PendingList?
      modifies this, db
      ensures Valid() && s.pc.Waiting? && old(es) <= es
    {
      hide Traced, AllAnswered, R.IsPage;
      var page := ListPage();
      if page.None? { return; }
      var runs := page.value;
      for i := 0 to |runs|
        invariant Valid() && s.pc == Pass(runs[i..]) && old(es) <= es
      {
        assert runs[i..] == [runs[i]] + runs[i + 1..];
        HandlePending(runs[i], runs[i + 1..]);
      }
      RecordMove(PassDone);
    }

    // ----- due jobs -----

    /** The insert of a scheduled run; the row may be there although reading it back failed. */
    method EnqueueScheduled(job: Job, ghost due: seq<Job>, now: Second) returns (ok: bool)
      requires Valid() && s.pc == DueInsert(job, due, now) && job.nextRunAt.Some?
      modifies this, db
      ensures Valid() && old(es) <= es
      ensures s.pc == if ok then DueAdvance(job, due, now) else DueNext(due, now)
      ensures ok ==>
        && db.nextRun > 0 && db.nextRun - 1 in db.runs
        && var row := db.runs[db.nextRun - 1];
           row.jobId == job.id && row.trigger == Scheduled && row.status == Pending && row.runner == None
           && row.scheduledFor == job.nextRunAt && row.queuedAt == now
    {
      hide Traced, AllAnswered;
      Others();
      StoreIsValid();
      var up := Answers();
      var readable := Answers();
      var inserted := db.Insert(job.id, job.nextRunAt, now, up);
      ok := inserted && readable;
      RecordLoop(InsertDue(inserted, ok));
    }

    /** The job's schedule and zone can be read, and it has a due time. */
    predicate Readable(job: Job) {
      && Schedule.LoadZone(lib, job.timezone).Ok? && job.nextRunAt.Some?
      && Schedule.Reparsed(lib, Schedule.Spec(job.kind, job.expr)).Ok?
    }

    /** The catch-up of the job, from its due time, followed for `patience` turns. */
    function Followed(job: Job, instant: Time): Option<Time>
      requires Readable(job)
    {
      var zone := Schedule.LoadZone(lib, job.timezone).value;
      Schedule.CatchUpWithin(Schedule.StoredStep(lib, Schedule.Spec(job.kind, job.expr), zone),
        Instant(job.nextRunAt.value), instant, patience)
    }

    /** The loop goroutine is still in the job's catch-up after `patience` turns. */
    ghost predicate Hangs(instant: Time)
      reads this
    {
      s.pc.DueAdvance? && s.pc.job.kind != Once && Readable(s.pc.job) && Followed(s.pc.job, instant).None?
    }

    /** What the advance step writes into next_run_at: where the catch-up ends, in stored seconds. */
    ghost predicate AdvancesTo(job: Job, instant: Time, next: Option<Second>) {
      && Readable(job) && Followed(job, instant).Some?
      && next == Some(Seconds(Followed(job, instant).value))
    }

    /** A once job is disabled, by writing back the row the listing returned. */
    method Disarm(job: Job, ghost due: seq<Job>, now: Second)
      requires Valid() && s.pc == DueAdvance(job, due, now) && job.kind == Once
      modifies this, db
      ensures Valid() && s.pc == DueNext(due, now) && old(es) <= es
      ensures es != [] && exists ok ::
        && es[|es| - 1] == Step.Loop(AdvanceDue(ok, None))
        && (ok ==> job.id in db.jobs && db.jobs[job.id] == job.(enabled := false, nextRunAt := None))
    {
      hide Traced, AllAnswered;
      Others();
      StoreIsValid();
      var up := Answers();
      var ok := db.Update(job.(enabled := false, nextRunAt := None), up);
      RecordLoop(AdvanceDue(ok, None));
    }

    /** Any other job moves on to where the catch-up from its due time ends; false while it has not ended. */
    method MoveOn(job: Job, ghost due: seq<Job>, now: Second, instant: Time) returns (done: bool)
      requires Valid() && s.pc == DueAdvance(job, due, now) && job.kind != Once
      modifies this, db
      ensures Valid() && old(es) <= es
      ensures done ==> s.pc == DueNext(due, now) && es != [] && exists ok, next ::
        && es[|es| - 1] == Step.Loop(AdvanceDue(ok, next))
        && (ok ==> AdvancesTo(job, instant, next) && job.id in db.jobs && db.jobs[job.id].nextRunAt == next)
      ensures !done ==> s.pc == old(s.pc) && Hangs(instant)
    {
      hide Traced, AllAnswered, Schedule.LoadZone, Schedule.Reparsed, Schedule.StoredStep, Schedule.Ends;
      hide Schedule.CatchUp, Schedule.CatchUpWithin;
      Others();
      if Readable(job) {
        if Followed(job, instant).None? { return false; }
        FollowedEnds(job, instant);
      }
      var spec := Schedule.Spec(job.kind, job.expr);
      var at := if job.nextRunAt.Some? then Some(Instant(job.nextRunAt.value)) else None;
      var next := Schedule.ComputeFutureNextRun(lib, spec, job.timezone, at, instant);
      if next.Err? {
        RecordLoop(AdvanceDue(false, None));
        return true;
      }
      StoreIsValid();
      var up := Answers();
      var ok := db.UpdateNextRun(job.id, Some(Seconds(next.value)), up);
      RecordLoop(AdvanceDue(ok, Some(Seconds(next.value))));
      return true;
    }

    lemma FollowedEnds(job: Job, instant: Time)
      requires Readable(job) && Followed(job, instant).Some?
      ensures var step :=
        Schedule.StoredStep(lib, Schedule.Spec(job.kind, job.expr), Schedule.LoadZone(lib, job.timezone).value);
        var due := Instant(job.nextRunAt.value);
        Schedule.Ends(step, due, instant) && Schedule.CatchUp(step, due, instant) == Followed(job, instant).value
    {
      hide Schedule.StoredStep, Schedule.LoadZone, Schedule.Reparsed;
      var step :=
        Schedule.StoredStep(lib, Schedule.Spec(job.kind, job.expr), Schedule.LoadZone(lib, job.timezone).value);
      Schedule.Ended(step, Instant(job.nextRunAt.value), instant, patience);
    }

    method AdvanceScheduleState(job: Job, ghost due: seq<Job>, now: Second, instant: Time) returns (done: bool)
      requires Valid() && s.pc == DueAdvance(job, due, now)
      modifies this, db
      ensures Valid() && old(es) <= es
      ensures if done then s.pc == DueNext(due, now) else s.pc == old(s.pc) && Hangs(instant)
      ensures done ==> es != [] && exists ok, next ::
        && es[|es| - 1] == Step.Loop(AdvanceDue(ok, next))
        && (ok ==> job.id in db.jobs && db.jobs[job.id].nextRunAt == next)
        && (ok ==> if job.kind == Once then next == None && !db.jobs[job.id].enabled
          else AdvancesTo(job, instant, next))
    {
      hide Traced, AllAnswered, Readable, Followed;
      if job.kind == Once {
        Disarm(job, due, now);
        return true;
      }
      done := MoveOn(job, due, now, instant);
    }

    /** The policy's statements before the insert; false when the job is left where it is. */
    method ApplyPolicy(job: Job, ghost due: seq<Job>, now: Second) returns (ok: bool, skip: bool)
      requires Valid() && s.pc == DueNext([job] + due, now)
      modifies this, db
      ensures Valid() && old(es) <= es
      ensures s.pc == if !ok then DueNext(due, now) else if skip then DueAdvance(job, due, now)
        else DueInsert(job, due, now)
      ensures skip ==> job.policy == Forbid
    {
      hide Traced, AllAnswered, R.HasUnfinished, R.IsUnfinishedList, R.PendingCanceled;
      ok, skip := true, false;
      var up := Answers();
      if job.policy == Forbid {
        Others();
        StoreIsValid();
        var unfinished := db.ListUnfinishedByJob(job.id, up);
        ok := unfinished.Some?;
        skip := ok && unfinished.value != [];
      } else if job.policy == Replace {
        Others();
        StoreIsValid();
        db.CancelPendingByJob(job.id, now, up);
        ok := up;
      }
      RecordLoop(Protocol.ApplyPolicy(up));
    }

    /** A job without a next run is refused before any statement. */
    ghost method LeaveAlone(job: Job, due: seq<Job>, now: Second)
      requires Valid() && s.pc == DueNext([job] + due, now) && job.nextRunAt.None?
      modifies this`s, this`ss, this`es
      ensures Valid() && s.pc == DueNext(due, now) && old(es) <= es
    {
      hide Traced, AllAnswered, R.HasUnfinished, R.PendingCanceled, R.Inserted, Advances;
      RecordLoop(Protocol.ApplyPolicy(false));
      if job.policy == Queue { LeaveQueued(job, due, now); }
    }

    ghost method LeaveQueued(job: Job, due: seq<Job>, now: Second)
      requires Valid() && s.pc == DueInsert(job, due, now) && job.nextRunAt.None?
      modifies this`s, this`ss, this`es
      ensures Valid() && s.pc == DueNext(due, now) && old(es) <= es
    {
      hide Traced, AllAnswered, R.Inserted, Advances;
      RecordLoop(InsertDue(false, false));
    }

    /** An error at any statement leaves the job to the next tick; false while its catch-up has not ended. */
    method EnqueueScheduledWithPolicy(job: Job, ghost due: seq<Job>, now: Second, instant: Time) returns (done: bool)
      requires Valid() && s.pc == DueNext([job] + due, now)
      modifies this, db
      ensures Valid() && old(es) <= es
      ensures if done then s.pc == DueNext(due, now) else Hangs(instant)
    {
      hide Traced, AllAnswered, Readable, Followed;
      if job.nextRunAt.None? {
        LeaveAlone(job, due, now);
        return true;
      }
      var ok, skip := ApplyPolicy(job, due, now);
      if !ok { return true; }
      if !skip {
        ok := EnqueueScheduled(job, due, now);
        if !ok { return true; }
      }
      done := AdvanceScheduleState(job, due, now, instant);
    }

    /** The listing of a tick. */
    method ListDueJobs(now: Second) returns (listed: Option<seq<Job>>)
      requires Valid() && s.pc == DueList(now)
      modifies this, db
      ensures Valid() && old(es) <= es
      ensures s.pc == if listed.Some? then DueNext(listed.value, now) else PendingList
      ensures listed.Some? ==> J.IsDueList(db.jobs, now, listed.value)
    {
      hide Traced, AllAnswered, R.IsPage, J.IsDueList, HasActive, Handles;
      Others();
      StoreIsValid();
      var up := Answers();
      listed := db.ListDue(now, up);
      RecordMove(ListDue(listed));
    }

    method ProcessDueJobs(instant: Time) returns (done: bool)
      requires Valid() && s.pc == DueList(Seconds(instant))
      modifies this, db
      ensures Valid() && old(es) <= es
      ensures if done then s.pc.PendingList? else Hangs(instant)
    {
      hide Traced, AllAnswered, Hangs, Readable, Followed, R.IsPage, J.IsDueList, HasActive, Handles;
      var now := Seconds(instant);
      var listed := ListDueJobs(now);
      if listed.None? { return true; }
      var jobs := listed.value;
      for i := 0 to |jobs|
        invariant Valid() && s.pc == DueNext(jobs[i..], now) && old(es) <= es
      {
        assert jobs[i..] == [jobs[i]] + jobs[i + 1..];
        done := EnqueueScheduledWithPolicy(jobs[i], jobs[i + 1..], now, instant);
        if !done { return; }
      }
      RecordMove(DueDone);
      return true;
    }

    // ----- Run -----

    /** cancelActiveRuns with the reason shutdown. */
    method CancelActiveRuns()
      requires Valid() && s.pc.Waiting?
      modifies this, db
      ensures Valid() && s.pc.Draining? && old(es) <= es
      ensures forall id <- active :: id in reasons && reasons[id] != NoReason
      ensures exists handles :: reasons == Told(old(reasons), handles, Shutdown)
    {
      hide Traced, AllAnswered, R.IsPage, J.IsDueList, HasActive;
      var handles := CollectActive();
      TellAll(handles, Shutdown);
      RecordMove(HandlesDone);
    }

    method CollectActive() returns (handles: set<RunId>)
      requires Valid() && s.pc.Waiting?
      modifies this, db
      ensures Valid() && s.pc == Stopping(handles) && old(es) <= es
      ensures handles == active.Keys && reasons == old(reasons) && forall id <- active :: id in reasons
    {
      hide Traced, AllAnswered, R.IsPage, J.IsDueList, HasActive;
      Meanwhile();
      AllKnown();
      handles := active.Keys;
      RecordMove(BeginStop);
    }

    lemma AllKnown()
      requires Valid()
      ensures forall id <- active :: id in reasons
    {
      hide Behaviour, Ids, Rows, Starts, OneUnreasoned, Snapshots, Registering, Accounted, Clearing;
    }

    /** A tick: the due jobs, then the pending runs; false while a job's catch-up has not ended. */
    method OnTick() returns (done: bool)
      requires Valid() && s.pc.Waiting?
      modifies this, db
      ensures Valid() && old(es) <= es && Ticks(es) > Ticks(old(es))
      ensures if done then s.pc.Waiting? else exists instant :: Hangs(instant)
    {
      hide Traced, AllAnswered, Hangs;
      Others();
      var fraction: int := *;
      var instant := Instant(clock) + fraction % NANOS;
      TicksGrow(old(es), es);
      RecordMove(Tick);
      ghost var ticked := es;
      done := ProcessDueJobs(instant);
      if done { ProcessPendingRuns(); }
      TicksGrow(ticked, es);
    }

    /** wg.Wait, followed for `patience` turns of the other actors. */
    method Wait() returns (returned: bool)
      requires Valid() && s.pc.Draining?
      modifies this, db
      ensures Valid() && old(es) <= es
      ensures s.pc == if returned then Stopped(true) else Draining
    {
      hide Traced, AllAnswered;
      for _ := 0 to patience
        invariant Valid() && s.pc.Draining? && old(es) <= es
      {
        if waitGroup == 0 {
          RecordMove(Return);
          return true;
        }
        Others();
      }
      return false;
    }

    /**
      Any number of ticks, then the shutdown. When it returns nothing is active, and every run it
      marked running is finished in the table, deleted with its job, or lost to a failed MarkFinished.
      It has not returned while it waits for active runs, or is in a catch-up that has not ended.
     */
    method Run(ticks: nat) returns (returned: bool)
      requires Valid() && s.pc.Stopped?
      modifies this, db
      ensures Valid() && old(es) <= es
      ensures returned ==> Ticks(es) >= Ticks(old(es)) + ticks && active == map[] && waitGroup == 0
      ensures returned ==> forall id <- s.marked :: id in db.runs ==> db.runs[id].status.Terminal() || id in s.lost
      ensures !returned ==> s.pc.Draining? || exists instant :: Hangs(instant)
    {
      hide Traced, AllAnswered, Hangs;
      runner := runner + 1;
      Record(Start);
      TicksGrow(old(es), es);
      for i := 0 to ticks
        invariant Valid() && s.pc.Waiting? && old(es) <= es && Ticks(es) >= Ticks(old(es)) + i
      {
        var done := OnTick();
        if !done { return false; }
      }
      ghost var ticked := es;
      CancelActiveRuns();
      returned := Wait();
      TicksGrow(ticked, es);
      if returned { Drained(); }
    }

    lemma Drained()
      requires Valid() && s.pc == Stopped(true)
      ensures s.active == map[] && s.waitGroup == 0
      ensures forall id <- s.marked :: id in s.runs ==> s.runs[id].status.Terminal() || id in s.lost
    {
      hide Inv;
      RunLife.ReturnedMeansDrained(ss, es, |es|);
    }
  }
}
