/** Behaviours that show why the limits and the order need their side conditions. */
module Witness {
  import opened Domain
  import opened Protocol
  import R = RunsStore
  import J = JobsStore
  import PolicyLimits

  /** A behaviour that has come to s, with job 1 under one policy throughout. */
  ghost predicate Comes(ss: seq<State>, es: seq<Step>, s: State, policy: Policy) {
    Behaviour(ss, es) && s == ss[|es|] && forall k :: 0 <= k < |ss| ==> PolicyLimits.Under(ss[k], 1, policy)
  }

  lemma Begin(policy: Policy) returns (ss: seq<State>, es: seq<Step>)
    ensures Comes(ss, es, FRESH, policy)
  {
    ss, es := [FRESH], [];
  }

  lemma Take(ss: seq<State>, es: seq<Step>, s: State, e: Step, policy: Policy) returns (ss': seq<State>, es': seq<Step>)
    requires Comes(ss, es, s, policy) && Enabled(s, e) && PolicyLimits.Under(Next(s, e), 1, policy)
    ensures Comes(ss', es', Next(s, e), policy)
  {
    hide Next, Enabled, PolicyLimits.Under;
    ss', es' := ss + [Next(s, e)], es + [e];
  }

  const HOURLY :=
    Job(1, "backup", "make backup", Interval, "every 1h", "Local", true, Forbid, None, false, Some(0), None, None)

  lemma OneDue()
    ensures J.IsDueList(map[1 := HOURLY], 0, [HOURLY])
  {
  }

  const ADDED := FRESH.(jobs := map[1 := HOURLY], nextJob := 2)
  const CHECKED := ADDED.(runner := 1, pc := DueInsert(HOURLY, [], 0))

  lemma Listed() returns (ss: seq<State>, es: seq<Step>)
    ensures Comes(ss, es, ADDED.(runner := 1, pc := DueNext([HOURLY], 0)), Forbid)
  {
    hide Comes;
    ss, es := Begin(Forbid);
    ss, es := Take(ss, es, FRESH, Cli(AddJob(HOURLY)), Forbid);
    ss, es := Take(ss, es, ADDED, Start, Forbid);
    ss, es := Take(ss, es, ADDED.(runner := 1, pc := Waiting), Loop(Tick), Forbid);
    OneDue();
    ss, es := Take(ss, es, ADDED.(runner := 1, pc := DueList(0)), Loop(ListDue(Some([HOURLY]))), Forbid);
  }

  /**
    The check and the insert are separate statements: a manual run enqueued after the scheduler's check
    gives a forbid job two unfinished rows, although both enqueuers checked first.
   */
  lemma ForbidRace() returns (ss: seq<State>, es: seq<Step>, s: State)
    ensures Comes(ss, es, s, Forbid) && !PolicyLimits.OneUnfinished(s.runs, 1)
  {
    hide Comes;
    ss, es := Listed();
    ss, es := Take(ss, es, ADDED.(runner := 1, pc := DueNext([HOURLY], 0)), Loop(ApplyPolicy(true)), Forbid);
    assert [HOURLY][1..] == [];
    ss, es := Take(ss, es, CHECKED, Cli(InsertManual(1, 0)), Forbid);
    s := Next(CHECKED, Cli(InsertManual(1, 0)));
    ss, es := Take(ss, es, s, Loop(InsertDue(true, true)), Forbid);
    s := Next(s, Loop(InsertDue(true, true)));
    assert s.runs[1].status == Pending && s.runs[2].status == Pending;
  }

  // ----- passes of one job under queue -----

  const MANUAL := HOURLY.(enabled := false, nextRunAt := None, policy := Queue)

  const SUCCESS := Outcome(Succeeded, 0, None, None)

  function Row(id: RunId, at: Second): Run { R.NewRun(id, 1, None, at) }

  /** The daemon starts, or its pass ends; the next tick finds nothing due and lists the page. */
  lemma Lists(ss: seq<State>, es: seq<Step>, s: State, page: seq<Run>, policy: Policy)
    returns (ss': seq<State>, es': seq<Step>)
    requires Comes(ss, es, s, policy) && PolicyLimits.Under(s, 1, policy)
    requires (s.pc == Pass([]) || s.pc == Stopped(true)) && R.IsPage(s.runs, 3, page)
    ensures s.pc.Pass? ==> Comes(ss', es', s.(pc := Pass(page)), policy)
    ensures s.pc.Stopped? ==> Comes(ss', es', s.(runner := s.runner + 1, marked := {}, pc := Pass(page)), policy)
  {
    hide Comes, R.IsPage;
    var s': State;
    if s.pc.Pass? {
      ss', es' := Take(ss, es, s, Loop(PassDone), policy);
      s' := s.(pc := Waiting);
    } else {
      ss', es' := Take(ss, es, s, Start, policy);
      s' := s.(runner := s.runner + 1, marked := {}, pc := Waiting);
    }
    ss', es' := Take(ss', es', s', Loop(Tick), policy);
    ss', es' := Take(ss', es', s'.(pc := DueList(s.clock)), Loop(ListDue(None)), policy);
    ss', es' := Take(ss', es', s'.(pc := PendingList), Loop(ListPending(3, Some(page))), policy);
  }

  /** The loop takes a run in hand, finds its job idle and claims the row. */
  lemma Claims(ss: seq<State>, es: seq<Step>, s: State, run: Run, rest: seq<Run>, policy: Policy)
    returns (ss': seq<State>, es': seq<Step>)
    requires Comes(ss, es, s, policy) && s.pc == Pass([run] + rest) && s.active == map[] && run.jobId == 1
    requires 1 in s.jobs && s.jobs[1].id == 1 && s.jobs[1].policy == policy && R.Claimable(s.runs, run.id)
    ensures Comes(ss', es',
      s.(runs := R.Claimed(s.runs, run.id, s.runner), pc := Handling(Mark, s.jobs[1], run, rest)), policy)
  {
    hide Comes;
    ss', es' := Take(ss, es, s, Loop(LoadJob(true)), policy);
    var s' := s.(pc := Handling(Prepare, s.jobs[1], run, rest));
    assert ([run] + rest)[1..] == rest;
    ss', es' := Take(ss', es', s', Loop(PrepareStart), policy);
    s' := s.(pc := Handling(Claim, s.jobs[1], run, rest));
    ss', es' := Take(ss', es', s', Loop(TryClaim(true)), policy);
  }

  /** Then it marks the row running and starts it. */
  lemma Starts(ss: seq<State>, es: seq<Step>, s: State, run: Run, rest: seq<Run>, policy: Policy)
    returns (ss': seq<State>, es': seq<Step>, s': State)
    requires Comes(ss, es, s, policy) && s.pc == Pass([run] + rest) && s.active == map[] && run.jobId == 1
    requires 1 in s.jobs && s.jobs[1].id == 1 && s.jobs[1].policy == policy && R.Claimable(s.runs, run.id)
    ensures Comes(ss', es', s', policy)
    ensures s' == s.(
      runs := s.runs[run.id :=
        s.runs[run.id].(runner := Some(s.runner), status := Running, startedAt := Some(s.clock))],
      marked := s.marked + {run.id}, active := map[run.id := Active(1, Executing)], reasons :=
        s.reasons[run.id := NoReason],
      waitGroup := s.waitGroup + 1, starts := s.starts + [run], pc := Pass(rest))
  {
    hide Comes;
    ss', es' := Claims(ss, es, s, run, rest, policy);
    s' := s.(runs := R.Claimed(s.runs, run.id, s.runner), pc := Handling(Mark, s.jobs[1], run, rest));
    ss', es' := Take(ss', es', s', Loop(MarkRunning(true)), policy);
    s' := Next(s', Loop(MarkRunning(true)));
    ss', es' := Take(ss', es', s', Loop(RegisterActive), policy);
    s' := Next(s', Loop(RegisterActive));
  }

  /** The only active run succeeds, is reported, and leaves the map. */
  lemma Finishes(ss: seq<State>, es: seq<Step>, s: State, id: RunId)
    returns (ss': seq<State>, es': seq<Step>, s': State)
    requires Comes(ss, es, s, Queue) && s.active == map[id := Active(1, Executing)] && id in s.runs
    requires id in s.reasons && s.reasons[id] == NoReason && 1 in s.jobs && s.jobs[1].policy == Queue
    ensures Comes(ss', es', s', Queue)
    ensures s' == s.(runs := R.Finished(s.runs, id, SUCCESS), jobs := J.SummaryUpdated(s.jobs, 1, 0, Succeeded),
                     lastFinished := s.lastFinished[1 := SUCCESS], active := map[], leaving := s.leaving + 1)
  {
    hide Comes;
    ss', es', s' := Persists(ss, es, s, id);
    ss', es' := Take(ss', es', s', Completion(id, Summarise(true)), Queue);
    s' := Next(s', Completion(id, Summarise(true)));
    ss', es' := Take(ss', es', s', Completion(id, Notify), Queue);
    s' := Next(s', Completion(id, Notify));
    ss', es' := Take(ss', es', s', Completion(id, Unregister), Queue);
    s' := Next(s', Completion(id, Unregister));
    assert s'.active == map[];
  }

  lemma Persists(ss: seq<State>, es: seq<Step>, s: State, id: RunId)
    returns (ss': seq<State>, es': seq<Step>, s': State)
    requires Comes(ss, es, s, Queue) && s.active == map[id := Active(1, Executing)] && id in s.runs
    requires id in s.reasons && s.reasons[id] == NoReason && 1 in s.jobs && s.jobs[1].policy == Queue
    ensures Comes(ss', es', s', Queue)
    ensures s' == s.(runs := R.Finished(s.runs, id, SUCCESS), lastFinished := s.lastFinished[1 := SUCCESS],
                     active := map[id := Active(1, Persisted(SUCCESS))])
  {
    hide Comes;
    ss', es' := Take(ss, es, s, Completion(id, Execute(SUCCESS)), Queue);
    s' := Next(s, Completion(id, Execute(SUCCESS)));
    ss', es' := Take(ss', es', s', Completion(id, Decide), Queue);
    s' := Next(s', Completion(id, Decide));
    ss', es' := Take(ss', es', s', Completion(id, Persist(true)), Queue);
    s' := Next(s', Completion(id, Persist(true)));
    assert s'.active == map[id := Active(1, Persisted(SUCCESS))];
  }

  // ----- a completion inside a pending pass -----

  const THREE_PENDING := map[1 := Row(1, 0), 2 := Row(2, 0), 3 := Row(3, 0)]
  const ENQUEUED := FRESH.(jobs := map[1 := MANUAL], nextJob := 2, runs := THREE_PENDING, nextRun := 4)

  lemma WholePage()
    ensures R.IsPage(THREE_PENDING, 3, [Row(1, 0), Row(2, 0), Row(3, 0)])
  {
    var page := [Row(1, 0), Row(2, 0), Row(3, 0)];
    assert page[0] in page && page[1] in page && page[2] in page;
  }

  lemma ThreeEnqueued() returns (ss: seq<State>, es: seq<Step>)
    ensures Comes(ss, es, ENQUEUED, Queue)
  {
    hide Comes;
    ss, es := Begin(Queue);
    var s := FRESH;
    ss, es := Take(ss, es, s, Cli(AddJob(MANUAL)), Queue);
    s := Next(s, Cli(AddJob(MANUAL)));
    ss, es := Take(ss, es, s, Cli(InsertManual(1, 0)), Queue);
    s := Next(s, Cli(InsertManual(1, 0)));
    ss, es := Take(ss, es, s, Cli(InsertManual(1, 0)), Queue);
    s := Next(s, Cli(InsertManual(1, 0)));
    ss, es := Take(ss, es, s, Cli(InsertManual(1, 0)), Queue);
    assert Next(s, Cli(InsertManual(1, 0))) == ENQUEUED;
  }

  lemma FirstStarted() returns (ss: seq<State>, es: seq<Step>, s: State)
    ensures Comes(ss, es, s, Queue) && s.pc == Pass([Row(2, 0), Row(3, 0)])
      && s.active == map[1 := Active(1, Executing)]
    ensures s.jobs == map[1 := MANUAL] && s.reasons == map[1 := NoReason] && s.starts == [Row(1, 0)]
    ensures s.runs.Keys == {1, 2, 3} && s.runs[2] == Row(2, 0) && s.runs[3] == Row(3, 0)
  {
    hide Comes, R.IsPage;
    ss, es := ThreeEnqueued();
    WholePage();
    ss, es := Lists(ss, es, ENQUEUED, [Row(1, 0), Row(2, 0), Row(3, 0)], Queue);
    assert [Row(1, 0)] + [Row(2, 0), Row(3, 0)] == [Row(1, 0), Row(2, 0), Row(3, 0)];
    ss, es, s :=
      Starts(ss, es, ENQUEUED.(runner := 1, pc := Pass([Row(1, 0), Row(2, 0), Row(3, 0)])), Row(1, 0),
        [Row(2, 0), Row(3, 0)], Queue);
  }

  /** The first run starts, the second is skipped while it is active, and then the first completes. */
  lemma SecondSkipped() returns (ss: seq<State>, es: seq<Step>, s: State)
    ensures Comes(ss, es, s, Queue) && s.pc == Pass([Row(3, 0)]) && s.active == map[] && s.starts == [Row(1, 0)]
    ensures 1 in s.jobs && s.jobs[1].id == 1 && s.jobs[1].policy == Queue
    ensures s.runs.Keys == {1, 2, 3} && s.runs[1].status == Succeeded && s.runs[2] == Row(2, 0)
      && s.runs[3] == Row(3, 0)
  {
    hide Comes;
    ss, es, s := FirstStarted();
    ss, es, s := Skips(ss, es, s);
    ss, es, s := Finishes(ss, es, s, 1);
  }

  lemma Skips(ss: seq<State>, es: seq<Step>, s: State) returns (ss': seq<State>, es': seq<Step>, s': State)
    requires Comes(ss, es, s, Queue) && s.pc == Pass([Row(2, 0), Row(3, 0)])
      && s.active == map[1 := Active(1, Executing)]
    requires 1 in s.jobs && s.jobs[1].id == 1 && s.jobs[1].policy == Queue
    ensures Comes(ss', es', s', Queue) && s' == s.(pc := Pass([Row(3, 0)]))
  {
    hide Comes;
    assert [Row(2, 0), Row(3, 0)][1..] == [Row(3, 0)];
    ss', es' := Take(ss, es, s, Loop(LoadJob(true)), Queue);
    s' := s.(pc := Handling(Prepare, s.jobs[1], Row(2, 0), [Row(3, 0)]));
    assert HasActive(s', 1) by { assert s'.active[1].job == 1; }
    ss', es' := Take(ss', es', s', Loop(PrepareStart), Queue);
    s' := s.(pc := Pass([Row(3, 0)]));
  }

  /** So the third run of the queue starts before the second: the runs start in the order 1, 3, 2. */
  lemma Overtaken() returns (ss: seq<State>, es: seq<Step>, s: State)
    ensures Comes(ss, es, s, Queue) && s.starts == [Row(1, 0), Row(3, 0), Row(2, 0)]
    ensures R.Before(s.starts[2], s.starts[1])
  {
    hide Comes;
    ss, es, s := SecondSkipped();
    assert [Row(3, 0)] + [] == [Row(3, 0)];
    ss, es, s := Starts(ss, es, s, Row(3, 0), [], Queue);
    ss, es, s := Finishes(ss, es, s, 3);
    assert R.IsPage(s.runs, 3, [Row(2, 0)]) by { assert Row(2, 0) in [Row(2, 0)]; }
    ss, es := Lists(ss, es, s, [Row(2, 0)], Queue);
    assert [Row(2, 0)] + [] == [Row(2, 0)];
    ss, es, s := Starts(ss, es, s.(pc := Pass([Row(2, 0)])), Row(2, 0), [], Queue);
  }

  // ----- a manual run whose time was read before another started -----

  const QUEUED_AT_TEN :=
    FRESH.(jobs := map[1 := MANUAL], nextJob := 2, clock := 10, runs := map[1 := Row(1, 10)], nextRun := 2)

  lemma OneEnqueued() returns (ss: seq<State>, es: seq<Step>)
    ensures Comes(ss, es, QUEUED_AT_TEN, Queue)
  {
    hide Comes;
    ss, es := Begin(Queue);
    var s := FRESH;
    ss, es := Take(ss, es, s, Cli(AddJob(MANUAL)), Queue);
    s := Next(s, Cli(AddJob(MANUAL)));
    ss, es := Take(ss, es, s, Clock(10), Queue);
    s := Next(s, Clock(10));
    ss, es := Take(ss, es, s, Cli(InsertManual(1, 10)), Queue);
    assert Next(s, Cli(InsertManual(1, 10))) == QUEUED_AT_TEN;
  }

  lemma TenStarted() returns (ss: seq<State>, es: seq<Step>, s: State)
    ensures Comes(ss, es, s, Queue) && s.starts == [Row(1, 10)] && s.pc == Pass([])
      && s.active == map[1 := Active(1, Executing)]
    ensures s.jobs == map[1 := MANUAL] && s.reasons == map[1 := NoReason] && s.nextRun == 2
    ensures s.waitGroup == 1 && s.leaving == 0
    ensures s.runs.Keys == {1} && s.runs[1].status == Running && s.runs[1].jobId == 1
  {
    hide Comes;
    ss, es := OneEnqueued();
    assert R.IsPage(QUEUED_AT_TEN.runs, 3, [Row(1, 10)]) by { assert Row(1, 10) in [Row(1, 10)]; }
    ss, es := Lists(ss, es, QUEUED_AT_TEN, [Row(1, 10)], Queue);
    assert [Row(1, 10)] + [] == [Row(1, 10)];
    ss, es, s := Starts(ss, es, QUEUED_AT_TEN.(runner := 1, pc := Pass([Row(1, 10)])), Row(1, 10), [], Queue);
  }

  lemma NineInserted() returns (ss: seq<State>, es: seq<Step>, s: State)
    ensures Comes(ss, es, s, Queue) && s.starts == [Row(1, 10)] && s.pc == Pass([]) && s.active == map[]
    ensures 1 in s.jobs && s.jobs[1].id == 1 && s.jobs[1].policy == Queue
    ensures s.runs.Keys == {1, 2} && s.runs[1].status == Succeeded && s.runs[2] == Row(2, 9)
  {
    hide Comes;
    ss, es, s := TenStarted();
    ss, es := Take(ss, es, s, Cli(InsertManual(1, 9)), Queue);
    s := Next(s, Cli(InsertManual(1, 9)));
    ss, es, s := Finishes(ss, es, s, 1);
  }

  /** A run queued at 10 starts; then one whose command read the time at 9 is inserted, and starts after it. */
  lemma LateInsert() returns (ss: seq<State>, es: seq<Step>, s: State)
    ensures Comes(ss, es, s, Queue) && s.starts == [Row(1, 10), Row(2, 9)] && R.Before(s.starts[1], s.starts[0])
  {
    hide Comes;
    ss, es, s := NineInserted();
    assert R.IsPage(s.runs, 3, [Row(2, 9)]) by { assert Row(2, 9) in [Row(2, 9)]; }
    ss, es := Lists(ss, es, s, [Row(2, 9)], Queue);
    assert [Row(2, 9)] + [] == [Row(2, 9)];
    ss, es, s := Starts(ss, es, s.(pc := Pass([Row(2, 9)])), Row(2, 9), [], Queue);
  }

  // ----- a daemon that dies between the insert and the advance -----

  const HOURLY_QUEUED := HOURLY.(policy := Queue)

  lemma QueuedDue()
    ensures J.IsDueList(map[1 := HOURLY_QUEUED], 0, [HOURLY_QUEUED])
  {
  }

  /** The daemon starts, finds the job due, and inserts its scheduled run. */
  lemma Enqueues(ss: seq<State>, es: seq<Step>, s: State) returns (ss': seq<State>, es': seq<Step>, s': State)
    requires Comes(ss, es, s, Queue) && s.pc.Stopped? && s.clock == 0 && s.jobs == map[1 := HOURLY_QUEUED]
    ensures Comes(ss', es', s', Queue) && s'.pc == DueAdvance(HOURLY_QUEUED, [], 0) && s'.clock == 0
      && s'.jobs == s.jobs
    ensures s'.nextRun == s.nextRun + 1 && s'.runs == R.Inserted(s.runs, s.nextRun, 1, Some(0), 0)
  {
    hide Comes;
    ss', es' := Take(ss, es, s, Start, Queue);
    s' := Next(s, Start);
    ss', es' := Take(ss', es', s', Loop(Tick), Queue);
    s' := s'.(pc := DueList(0));
    QueuedDue();
    ss', es' := Take(ss', es', s', Loop(ListDue(Some([HOURLY_QUEUED]))), Queue);
    s' := s'.(pc := DueNext([HOURLY_QUEUED], 0));
    ss', es' := Take(ss', es', s', Loop(ApplyPolicy(true)), Queue);
    assert [HOURLY_QUEUED][1..] == [];
    s' := s'.(pc := DueInsert(HOURLY_QUEUED, [], 0));
    ss', es' := Take(ss', es', s', Loop(InsertDue(true, true)), Queue);
    s' := Next(s', Loop(InsertDue(true, true)));
  }

  /** The restarted daemon finds the job still due, and enqueues the same occurrence again. */
  lemma EnqueuedTwice() returns (ss: seq<State>, es: seq<Step>, s: State)
    ensures Comes(ss, es, s, Queue) && 1 in s.runs && 2 in s.runs
    ensures s.runs[1].scheduledFor == Some(0) == s.runs[2].scheduledFor && s.runs[1].jobId == 1 == s.runs[2].jobId
  {
    hide Comes;
    ss, es := Begin(Queue);
    ss, es := Take(ss, es, FRESH, Cli(AddJob(HOURLY_QUEUED)), Queue);
    s := Next(FRESH, Cli(AddJob(HOURLY_QUEUED)));
    ss, es, s := Enqueues(ss, es, s);
    ss, es := Take(ss, es, s, Crash, Queue);
    s := Next(s, Crash);
    ss, es, s := Enqueues(ss, es, s);
  }

  // ----- a run that is replaced -----

  const REPLACING := MANUAL.(policy := Replace)

  const TWO_PENDING :=
    FRESH.(jobs := map[1 := REPLACING], nextJob := 2, runs := map[1 := Row(1, 0), 2 := Row(2, 0)], nextRun := 3)

  lemma TwoEnqueued() returns (ss: seq<State>, es: seq<Step>)
    ensures Comes(ss, es, TWO_PENDING, Replace)
  {
    hide Comes;
    ss, es := Begin(Replace);
    var s := FRESH;
    ss, es := Take(ss, es, s, Cli(AddJob(REPLACING)), Replace);
    s := Next(s, Cli(AddJob(REPLACING)));
    ss, es := Take(ss, es, s, Cli(InsertManual(1, 0)), Replace);
    s := Next(s, Cli(InsertManual(1, 0)));
    ss, es := Take(ss, es, s, Cli(InsertManual(1, 0)), Replace);
    assert Next(s, Cli(InsertManual(1, 0))) == TWO_PENDING;
  }

  lemma BothListed()
    ensures R.IsPage(TWO_PENDING.runs, 3, [Row(1, 0), Row(2, 0)])
  {
    var page := [Row(1, 0), Row(2, 0)];
    assert page[0] in page && page[1] in page;
  }

  lemma FirstOfTwo() returns (ss: seq<State>, es: seq<Step>, s: State)
    ensures Comes(ss, es, s, Replace) && s.pc == Pass([Row(2, 0)]) && s.active == map[1 := Active(1, Executing)]
    ensures s.jobs == map[1 := REPLACING] && s.reasons == map[1 := NoReason] && s.starts == [Row(1, 0)] && s.runner == 1
    ensures s.runs.Keys == {1, 2} && s.runs[1].status == Running && s.runs[2] == Row(2, 0)
  {
    hide Comes, R.IsPage;
    ss, es := TwoEnqueued();
    BothListed();
    ss, es := Lists(ss, es, TWO_PENDING, [Row(1, 0), Row(2, 0)], Replace);
    assert [Row(1, 0)] + [Row(2, 0)] == [Row(1, 0), Row(2, 0)];
    ss, es, s :=
      Starts(ss, es, TWO_PENDING.(runner := 1, pc := Pass([Row(1, 0), Row(2, 0)])), Row(1, 0), [Row(2, 0)], Replace);
  }

  /** In the same pass the loop takes up the second run. */
  lemma SecondTakenUp() returns (ss: seq<State>, es: seq<Step>, s: State)
    ensures Comes(ss, es, s, Replace) && s.pc == Handling(Collect, REPLACING, Row(2, 0), [])
    ensures s.active == map[1 := Active(1, Executing)] && s.reasons == map[1 := NoReason] && s.starts == [Row(1, 0)]
    ensures s.jobs == map[1 := REPLACING] && s.runs.Keys == {1, 2} && s.runs[1].status == Running
      && s.runs[2] == Row(2, 0)
  {
    hide Comes;
    ss, es, s := FirstOfTwo();
    assert [Row(2, 0)][1..] == [];
    ss, es := Take(ss, es, s, Loop(LoadJob(true)), Replace);
    s := s.(pc := Handling(Prepare, REPLACING, Row(2, 0), []));
    assert HasActive(s, 1) by { assert s.active[1].job == 1; }
    ss, es := Take(ss, es, s, Loop(PrepareStart), Replace);
    s := s.(pc := Handling(Collect, REPLACING, Row(2, 0), []));
  }

  /** It collects the first one, */
  lemma FirstCollected(ss: seq<State>, es: seq<Step>, s: State) returns (ss': seq<State>, es': seq<Step>)
    requires Comes(ss, es, s, Replace) && s.pc == Handling(Collect, REPLACING, Row(2, 0), [])
    requires s.jobs == map[1 := REPLACING] && s.active == map[1 := Active(1, Executing)]
    ensures Comes(ss', es', s.(pc := Handling(Replacing({1}), REPLACING, Row(2, 0), [])), Replace)
  {
    hide Comes;
    assert Handles(s, 1) == {1};
    ss', es' := Take(ss, es, s, Loop(CollectHandles), Replace);
  }

  /** and tells it to stop. */
  lemma FirstTold(ss: seq<State>, es: seq<Step>, s: State) returns (ss': seq<State>, es': seq<Step>)
    requires Comes(ss, es, s, Replace) && s.pc == Handling(Replacing({1}), REPLACING, Row(2, 0), [])
    requires s.jobs == map[1 := REPLACING] && s.reasons == map[1 := NoReason]
    ensures Comes(ss', es', s.(pc := Handling(Claim, REPLACING, Row(2, 0), []), reasons := map[1 := Replacement]),
      Replace)
  {
    hide Comes;
    assert SetReason(s.reasons, 1, Replacement) == map[1 := Replacement];
    assert {1} - {1} == {};
    ss', es' := Take(ss, es, s, Loop(CancelHandle(1)), Replace);
    var s' := s.(pc := Handling(Replacing({}), REPLACING, Row(2, 0), []), reasons := map[1 := Replacement]);
    ss', es' := Take(ss', es', s', Loop(HandlesDone), Replace);
  }

  /** Then it claims the second and marks it running, */
  lemma SecondMarked(ss: seq<State>, es: seq<Step>, s: State) returns (ss': seq<State>, es': seq<Step>)
    requires Comes(ss, es, s, Replace) && s.pc == Handling(Claim, REPLACING, Row(2, 0), [])
    requires s.jobs == map[1 := REPLACING] && R.Claimable(s.runs, 2)
    ensures Comes(ss', es', s.(runs := R.Started(R.Claimed(s.runs, 2, s.runner), 2, s.clock), marked := s.marked + {2},
                              pc := Handling(Register, REPLACING, Row(2, 0), [])), Replace)
  {
    hide Comes;
    ss', es' := Take(ss, es, s, Loop(TryClaim(true)), Replace);
    var s' := s.(runs := R.Claimed(s.runs, 2, s.runner), pc := Handling(Mark, REPLACING, Row(2, 0), []));
    ss', es' := Take(ss', es', s', Loop(MarkRunning(true)), Replace);
  }

  /** and starts it. */
  lemma SecondStarted(ss: seq<State>, es: seq<Step>, s: State) returns (ss': seq<State>, es': seq<Step>, s': State)
    requires Comes(ss, es, s, Replace) && s.pc == Handling(Register, REPLACING, Row(2, 0), [])
    requires s.jobs == map[1 := REPLACING]
    requires s.active == map[1 := Active(1, Executing)] && s.reasons == map[1 := Replacement]
    ensures Comes(ss', es', s', Replace) && s'.starts == s.starts + [Row(2, 0)] && s'.jobs == s.jobs
      && s'.runs == s.runs
    ensures 1 in s'.active && s'.active[1] == Active(1, Executing) && 1 in s'.reasons && s'.reasons[1] == Replacement
  {
    hide Comes;
    ss', es' := Take(ss, es, s, Loop(RegisterActive), Replace);
    s' := RegisterNext(s);
  }

  /** The first is stored as canceled by replacement, although its command succeeded. */
  lemma Replaced() returns (ss: seq<State>, es: seq<Step>, s: State)
    ensures Comes(ss, es, s, Replace) && s.starts == [Row(1, 0), Row(2, 0)]
    ensures 1 in s.runs && s.runs[1].status == Canceled && s.runs[1].errorMessage == Some("canceled by replacement")
    ensures 2 in s.runs && s.runs[2].status == Running
  {
    hide Comes;
    ss, es, s := SecondTakenUp();
    ss, es := FirstCollected(ss, es, s);
    s := s.(pc := Handling(Replacing({1}), REPLACING, Row(2, 0), []));
    ss, es := FirstTold(ss, es, s);
    s := s.(pc := Handling(Claim, REPLACING, Row(2, 0), []), reasons := map[1 := Replacement]);
    ss, es := SecondMarked(ss, es, s);
    var runs := R.Started(R.Claimed(s.runs, 2, s.runner), 2, s.clock);
    s := s.(runs := runs, marked := s.marked + {2}, pc := Handling(Register, REPLACING, Row(2, 0), []));
    ss, es, s := SecondStarted(ss, es, s);
    ss, es, s := StoredAsTold(ss, es, s);
  }

  lemma StoredAsTold(ss: seq<State>, es: seq<Step>, s: State) returns (ss': seq<State>, es': seq<Step>, s': State)
    requires Comes(ss, es, s, Replace) && 1 in s.active && s.active[1] == Active(1, Executing) && 1 in s.runs
    requires 1 in s.reasons && s.reasons[1] == Replacement && 1 in s.jobs && s.jobs[1].policy == Replace
    ensures Comes(ss', es', s', Replace) && s'.starts == s.starts
    ensures s'.runs == R.Finished(s.runs, 1, Outcome(Canceled, 0, None, Some("canceled by replacement")))
  {
    hide Comes;
    ss', es' := Take(ss, es, s, Completion(1, Execute(SUCCESS)), Replace);
    s' := Next(s, Completion(1, Execute(SUCCESS)));
    ss', es' := Take(ss', es', s', Completion(1, Decide), Replace);
    s' := Next(s', Completion(1, Decide));
    ss', es' := Take(ss', es', s', Completion(1, Persist(true)), Replace);
    s' := Next(s', Completion(1, Persist(true)));
  }

  // ----- a shutdown -----

  lemma OnePhase(s: State, phase: Phase, phase': Phase)
    requires s.active == map[1 := Active(1, phase)]
    ensures InPhase(s, 1, phase') == map[1 := Active(1, phase')]
  {
  }

  /** The loop stops while a run is active, and tells it. */
  lemma Stops(ss: seq<State>, es: seq<Step>, s: State) returns (ss': seq<State>, es': seq<Step>)
    requires Comes(ss, es, s, Queue) && s.pc == Pass([]) && s.active == map[1 := Active(1, Executing)]
    requires s.jobs == map[1 := MANUAL] && s.reasons == map[1 := NoReason]
    ensures Comes(ss', es', s.(pc := Draining, reasons := map[1 := Shutdown]), Queue)
  {
    hide Comes;
    ss', es' := Take(ss, es, s, Loop(PassDone), Queue);
    assert s.active.Keys == {1};
    ss', es' := Take(ss', es', s.(pc := Waiting), Loop(BeginStop), Queue);
    ss', es' := AllTold(ss', es', s.(pc := Stopping({1})));
  }

  lemma AllTold(ss: seq<State>, es: seq<Step>, s: State) returns (ss': seq<State>, es': seq<Step>)
    requires Comes(ss, es, s, Queue) && s.pc == Stopping({1}) && s.jobs == map[1 := MANUAL]
      && s.reasons == map[1 := NoReason]
    ensures Comes(ss', es', s.(pc := Draining, reasons := map[1 := Shutdown]), Queue)
  {
    hide Comes;
    assert SetReason(s.reasons, 1, Shutdown) == map[1 := Shutdown];
    assert {1} - {1} == {};
    ss', es' := Take(ss, es, s, Loop(CancelHandle(1)), Queue);
    ss', es' := Take(ss', es', s.(pc := Stopping({}), reasons := map[1 := Shutdown]), Loop(HandlesDone), Queue);
  }

  /** The run is stored as canceled, leaves the map and the wait group, and the loop returns. */
  lemma Drains(ss: seq<State>, es: seq<Step>, s: State) returns (ss': seq<State>, es': seq<Step>, s': State)
    requires Comes(ss, es, s, Queue) && s.pc == Draining && s.active == map[1 := Active(1, Executing)] && 1 in s.runs
    requires s.jobs == map[1 := MANUAL] && s.reasons == map[1 := Shutdown] && s.waitGroup == 1 && s.leaving == 0
    ensures Comes(ss', es', s', Queue) && s'.pc == Stopped(true)
    ensures s'.runs == R.Finished(s.runs, 1, Outcome(Canceled, 0, None, Some("canceled by shutdown")))
  {
    hide Comes;
    var final := Outcome(Canceled, 0, None, Some("canceled by shutdown"));
    ss', es', s' := StoredAtShutdown(ss, es, s);
    ss', es' := Leaves(ss', es', s', final);
    s' := s'.(active := map[], leaving := 1);
    ss', es' := Take(ss', es', s', WgDone, Queue);
    s' := s'.(leaving := 0, waitGroup := 0);
    ss', es' := Take(ss', es', s', Loop(Return), Queue);
    s' := s'.(pc := Stopped(true));
  }

  lemma Leaves(ss: seq<State>, es: seq<Step>, s: State, final: Outcome) returns (ss': seq<State>, es': seq<Step>)
    requires Comes(ss, es, s, Queue) && s.active == map[1 := Active(1, Persisted(final))] && s.leaving == 0
    requires s.jobs == map[1 := MANUAL] && 1 in s.reasons
    ensures Comes(ss', es', s.(active := map[], leaving := 1), Queue)
  {
    hide Comes;
    OnePhase(s, Persisted(final), Summarised(final));
    ss', es' := Take(ss, es, s, Completion(1, Summarise(false)), Queue);
    var s' := s.(active := map[1 := Active(1, Summarised(final))]);
    OnePhase(s', Summarised(final), Done(true));
    ss', es' := Take(ss', es', s', Completion(1, Notify), Queue);
    s' := s.(active := map[1 := Active(1, Done(true))]);
    assert s'.active - {1} == map[];
    ss', es' := Take(ss', es', s', Completion(1, Unregister), Queue);
  }

  lemma StoredAtShutdown(ss: seq<State>, es: seq<Step>, s: State) returns (ss': seq<State>, es': seq<Step>, s': State)
    requires Comes(ss, es, s, Queue) && s.active == map[1 := Active(1, Executing)] && 1 in s.runs
    requires s.jobs == map[1 := MANUAL] && s.reasons == map[1 := Shutdown]
    ensures var final := Outcome(Canceled, 0, None, Some("canceled by shutdown"));
      Comes(ss', es', s', Queue) &&
      s' == s.(runs := R.Finished(s.runs, 1, final), lastFinished := s.lastFinished[1 := final],
               active := map[1 := Active(1, Persisted(final))])
  {
    hide Comes;
    var final := Outcome(Canceled, 0, None, Some("canceled by shutdown"));
    OnePhase(s, Executing, Executed(SUCCESS));
    ss', es' := Take(ss, es, s, Completion(1, Execute(SUCCESS)), Queue);
    s' := s.(active := map[1 := Active(1, Executed(SUCCESS))]);
    OnePhase(s', Executed(SUCCESS), Decided(final));
    ss', es' := Take(ss', es', s', Completion(1, Decide), Queue);
    s' := s.(active := map[1 := Active(1, Decided(final))]);
    OnePhase(s', Decided(final), Persisted(final));
    ss', es' := Take(ss', es', s', Completion(1, Persist(true)), Queue);
    s' := Next(s', Completion(1, Persist(true)));
  }

  /** A loop that is stopped while a run is active returns, with the run stored as canceled by shutdown. */
  lemma ShutDown() returns (ss: seq<State>, es: seq<Step>, s: State)
    ensures Comes(ss, es, s, Queue) && s.pc == Stopped(true)
    ensures 1 in s.runs && s.runs[1].status == Canceled && s.runs[1].errorMessage == Some("canceled by shutdown")
  {
    hide Comes;
    ss, es, s := TenStarted();
    ss, es := Stops(ss, es, s);
    ss, es, s := Drains(ss, es, s.(pc := Draining, reasons := map[1 := Shutdown]));
  }
}
