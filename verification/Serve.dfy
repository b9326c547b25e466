/**
  Serve as it is written: resources acquired in order, flags that say what is still held, deferred
  actions, and the graceful way out. Between any two of its actions the other processes of the
  instance, and its own two goroutines, may do anything they can do.
 */
module Serve {
  import opened Domain
  import opened Instance

  ghost predicate Traced(ss: seq<State>, es: seq<Step>, s: State) {
    Behaviour(ss, es) && s == ss[|es|] && Inv(s)
  }

  lemma Extends(ss: seq<State>, es: seq<Step>, s: State, e: Step)
    requires Traced(ss, es, s) && Enabled(s, e)
    ensures Traced(ss + [Next(s, e)], es + [e], Next(s, e))
  {
    hide Next, Enabled, Inv;
    StepKeeps(s, e);
  }

  /** What may keep a process from coming to a clean end, other than a call that fails. */
  predicate Excuse(e: Step, p: Pid) {
    e.Act? && e.p == p &&
    match e.a
    case TryLock(ok) => !ok                        // the instance is being served
    case Select(branch, stopping) => branch == Control || branch == LoopEnded
    case ControlReturns(failed) => failed
    case LoopReturns(failed) => failed
    case _ => false
  }

  ghost predicate Excused(es: seq<Step>, p: Pid) {
    exists k :: 0 <= k < |es| && Excuse(es[k], p)
  }

  lemma LastExcuses(es: seq<Step>, p: Pid)
    requires es != [] && Excuse(es[|es| - 1], p)
    ensures Excused(es, p)
  {
  }

  lemma StaysExcused(es: seq<Step>, es': seq<Step>, p: Pid)
    requires es <= es' && Excused(es, p)
    ensures Excused(es', p)
  {
    var k :| 0 <= k < |es| && Excuse(es[k], p);
    assert es'[k] == es[k];
  }

  /** A failure a goroutine has sent comes from its step. */
  lemma {:induction false} FailureSent(ss: seq<State>, es: seq<Step>, i: nat, p: Pid)
    requires Behaviour(ss, es) && i < |ss| && p in ss[i].procs
    requires ss[i].procs[p].control == Sent(true) || ss[i].procs[p].loop == Sent(true)
    ensures Excused(es[..i], p)
  {
    hide Ready, Acted;
    var e := es[i - 1];
    assert Enabled(ss[i - 1], e) && ss[i] == Next(ss[i - 1], e);
    assert es[..i] == es[..i - 1] + [e];
    if e.Act? && e.p == p { SendsFailure(ss[i - 1].procs[p], e.a); }
    if Excuse(e, p) {
      assert es[..i][i - 1] == e;
    } else {
      FailureSent(ss, es, i - 1, p);
      StaysExcused(es[..i - 1], es[..i], p);
    }
  }

  lemma SendsFailure(q: Proc, a: Action)
    requires Ready(q, a) && (Acted(q, a).control == Sent(true) || Acted(q, a).loop == Sent(true))
    ensures q.control == Sent(true) || q.loop == Sent(true) || a == ControlReturns(true) || a == LoopReturns(true)
  {
    hide Selected, Unwound;
    if a.Select? { SelectedSends(q.(branch := Some(a.branch), pc := ShuttingDown), a.branch, a.stopping); }
    if a.Unwind? { UnwoundSends(q, a.ok); }
  }

  lemma SelectedSends(q: Proc, branch: Branch, stopping: bool)
    requires (branch == Control ==> q.control.Sent?) && (branch == LoopEnded ==> q.loop.Sent?)
    ensures var q' := Selected(q, branch, stopping);
      (q'.control == q.control || q'.control == Received) && (q'.loop == q.loop || q'.loop == Received)
  {
  }

  lemma UnwoundSends(q: Proc, ok: bool)
    ensures Unwound(q, ok).control == q.control && Unwound(q, ok).loop == q.loop
  {
  }

  class Server {
    const me: Pid
    const reliable: bool            // no call of this process fails

    // shared by all processes
    var lock: Option<Pid>
    var file: Option<Pid>
    var others: map<Pid, Proc>

    // the variables of Serve
    var lockHeld: bool
    var dbOpen: bool
    var listenerOpen: bool
    var stateWritten: bool
    var control: Channel
    var loop: Channel

    ghost var s: State
    ghost var ss: seq<State>
    ghost var es: seq<Step>

    /** A new process of an instance nobody serves; others may start and end before its first action. */
    constructor (me: Pid, reliable: bool)
      ensures Valid() && Mine() == FRESH && this.me == me && this.reliable == reliable
    {
      this.me, this.reliable := me, reliable;
      lock, file, others := None, None, map[];
      lockHeld, dbOpen, listenerOpen, stateWritten, control, loop := false, false, false, false, Channel.Idle,
        Channel.Idle;
      s := Next(NO_PROCESS, Spawn(me));
      ss, es := [NO_PROCESS, Next(NO_PROCESS, Spawn(me))], [Spawn(me)];
      new;
      Reachable(ss, es, 1);
    }

    ghost predicate Valid()
      reads this
    {
      && me in s.procs && me !in others && s.procs == others[me := s.procs[me]]
      && s.lock == lock && s.file == file
      && s.procs[me] ==
        Proc(s.procs[me].pc, lockHeld, dbOpen, listenerOpen, stateWritten, s.procs[me].branch, control, loop)
      && Traced(ss, es, s)
    }

    ghost function Mine(): Proc
      reads this
      requires Valid()
    {
      s.procs[me]
    }

    lemma Known()
      requires Valid()
      ensures Shape(Mine())
      ensures lockHeld <==> lock == Some(me)
    {
    }

    ghost method Record(e: Step)
      requires Traced(ss, es, s) && Enabled(s, e)
      modifies this`s, this`ss, this`es
      ensures Traced(ss, es, s) && s == Next(old(s), e) && es == old(es) + [e]
    {
      hide Traced, Next, Enabled;
      Extends(ss, es, s, e);
      s := Next(s, e);
      ss := ss + [s];
      es := es + [e];
    }

    ghost method Did(a: Action)
      requires Traced(ss, es, s) && me in s.procs && Ready(s.procs[me], a) && (a == TryLock(true) ==> s.lock == None)
      modifies this`s, this`ss, this`es
      ensures Traced(ss, es, s) && es == old(es) + [Act(me, a)]
      ensures var q, q' := old(s).procs[me], Acted(old(s).procs[me], a);
        s == State(LockAfter(old(s).lock, me, q, q'), FileAfter(old(s).file, me, q, q'), old(s).procs[me := q'])
    {
      hide Traced, Ready, Acted;
      Record(Act(me, a));
    }

    /** What the other processes and this one's goroutines do meanwhile. */
    method Others()
      requires Valid()
      modifies this`lock, this`file, this`others, this`control, this`loop, this`s, this`ss, this`es
      ensures Valid() && old(es) <= es && Mine().pc == old(Mine()).pc
    {
      hide Traced;
      var turns: int := *;
      while turns > 0
        invariant Valid() && old(es) <= es && Mine().pc == old(Mine()).pc
      {
        turns := turns - 1;
        Other();
      }
    }

    method Other()
      requires Valid()
      modifies this`lock, this`file, this`others, this`control, this`loop, this`s, this`ss, this`es
      ensures Valid() && old(es) <= es && Mine().pc == old(Mine()).pc
    {
      hide Traced, Acted, Ready;
      var e: Step := *;
      match e
      case Spawn(p) => if p != me && p !in others { SpawnOther(p); }
      case Crash(p) => if p in others { CrashOther(p); }
      case Act(p, a) =>
        if p == me {
          GoroutineReturns(a);
        } else if p in others && Ready(others[p], a) && (a != TryLock(true) || lock == None) {
          ActOther(p, a);
        }
    }

    method SpawnOther(p: Pid)
      requires Valid() && p != me && p !in others
      modifies this`others, this`s, this`ss, this`es
      ensures Valid() && old(es) <= es && Mine().pc == old(Mine()).pc
    {
      hide Traced;
      others := others[p := FRESH];
      Record(Spawn(p));
    }

    method CrashOther(p: Pid)
      requires Valid() && p in others
      modifies this`lock, this`others, this`s, this`ss, this`es
      ensures Valid() && old(es) <= es && Mine().pc == old(Mine()).pc
    {
      hide Traced;
      others := others - {p};
      if lock == Some(p) { lock := None; }
      Record(Crash(p));
    }

    method ActOther(p: Pid, a: Action)
      requires Valid() && p in others && Ready(others[p], a) && (a == TryLock(true) ==> lock == None)
      modifies this`lock, this`file, this`others, this`s, this`ss, this`es
      ensures Valid() && old(es) <= es && Mine().pc == old(Mine()).pc
    {
      hide Traced, Ready, Acted;
      var q := others[p];
      var q' := Acted(q, a);
      lock, file, others := LockAfter(lock, p, q, q'), FileAfter(file, p, q, q'), others[p := q'];
      Record(Act(p, a));
    }

    /** The control server or the loop of this process ends and sends its result. */
    method GoroutineReturns(a: Action)
      requires Valid()
      modifies this`control, this`loop, this`s, this`ss, this`es
      ensures Valid() && old(es) <= es && Mine().pc == old(Mine()).pc
    {
      hide Traced;
      if a.ControlReturns? && control == Channel.Running {
        control := Sent(a.failed);
        Did(a);
      } else if a.LoopReturns? && loop == Channel.Running {
        loop := Sent(a.failed);
        Did(a);
      }
    }

    // ----- acquiring -----

    method Lock() returns (ok: bool)
      requires Valid() && Mine().pc == Starting
      modifies this
      ensures Valid() && old(es) <= es && Mine().pc == if ok then Locked else Exited
      ensures !ok ==> !lockHeld && !stateWritten && !dbOpen && !listenerOpen
      ensures reliable && !ok ==> old(lock) != None && Excused(es, me)
    {
      hide Traced;
      Known();
      ok := Succeeds();
      if lock != None { ok := false; }
      if ok { lock, lockHeld := Some(me), true; }
      Did(TryLock(ok));
      if !ok { LastExcuses(es, me); }
    }

    method Open() returns (ok: bool)
      requires Valid() && Mine().pc == Locked
      modifies this
      ensures Valid() && old(es) <= es && Mine().pc == if ok then Opened else UnwindState
      ensures reliable ==> ok
    {
      hide Traced;
      ok := Succeeds();
      if ok { dbOpen := true; }
      Did(OpenDb(ok));
    }

    method PrepareDb() returns (ok: bool)
      requires Valid() && Mine().pc == Opened
      modifies this
      ensures Valid() && old(es) <= es && Mine().pc == if ok then Prepared else UnwindState
      ensures reliable ==> ok
    {
      hide Traced;
      ok := Succeeds();
      Did(Prepare(ok));
    }

    method ListenControl() returns (ok: bool)
      requires Valid() && Mine().pc == Prepared
      modifies this
      ensures Valid() && old(es) <= es && Mine().pc == if ok then Listening else UnwindState
      ensures reliable ==> ok
    {
      hide Traced;
      ok := Succeeds();
      if ok { listenerOpen := true; }
      Did(Listen(ok));
    }

    method UpsertMetadata() returns (ok: bool)
      requires Valid() && Mine().pc == Listening
      modifies this
      ensures Valid() && old(es) <= es && Mine().pc == if ok then Advertised else UnwindState
      ensures reliable ==> ok
    {
      hide Traced;
      ok := Succeeds();
      Did(Advertise(ok));
    }

    method WriteStateFile() returns (ok: bool)
      requires Valid() && Mine().pc == Advertised
      modifies this
      ensures Valid() && old(es) <= es && Mine().pc == if ok then Written else UnwindState
      ensures reliable ==> ok
    {
      hide Traced;
      Known();
      ok := Succeeds();
      if ok { file, stateWritten := Some(me), true; }
      Did(WriteState(ok));
    }

    method StartServing() returns (ok: bool)
      requires Valid() && Mine().pc == Written
      modifies this
      ensures Valid() && old(es) <= es && Mine().pc == if ok then Selecting else UnwindState
      ensures reliable ==> ok
    {
      hide Traced;
      ok := Succeeds();
      if ok { listenerOpen, control, loop := false, Channel.Running, Channel.Running; }
      Did(Launch(ok));
    }

    // ----- waiting -----

    /** The select: a result that has been sent may be taken, and is gone then. */
    method Wait() returns (ok: bool)
      requires Valid() && Mine().pc == Selecting
      modifies this
      ensures Valid() && old(es) <= es && Mine().pc == if ok then ShuttingDown else UnwindState
      ensures !ok ==> Excused(es, me)
    {
      hide Valid, Mine;
      var branch: Branch := *;
      if branch == Control && control.Sent? {
        ok := TakeControl();
      } else if branch == LoopEnded && loop.Sent? {
        ok := TakeLoop();
      } else {
        ok := AskedToStop(if branch == Requested then Requested else Signal);
      }
    }

    method TakeControl() returns (ok: bool)
      requires Valid() && Mine().pc == Selecting && control.Sent?
      modifies this
      ensures Valid() && old(es) <= es && Mine().pc == if ok then ShuttingDown else UnwindState
      ensures !ok ==> Excused(es, me)
      ensures exists stopping ::
        es == old(es) + [Act(me, Select(Control, stopping))] && (ok <==> old(control) == Sent(false) && stopping)
    {
      hide Traced;
      var stopping: bool := *;
      ok := !control.failed && stopping;
      control := Received;
      Did(Select(Control, stopping));
      LastExcuses(es, me);
    }

    method TakeLoop() returns (ok: bool)
      requires Valid() && Mine().pc == Selecting && loop.Sent?
      modifies this
      ensures Valid() && old(es) <= es && Mine().pc == if ok then ShuttingDown else UnwindState
      ensures !ok ==> Excused(es, me)
      ensures exists stopping ::
        es == old(es) + [Act(me, Select(LoopEnded, stopping))] && (ok <==> old(loop) == Sent(false) && stopping)
    {
      hide Traced;
      var stopping: bool := *;
      ok := !loop.failed && stopping;
      loop := Received;
      Did(Select(LoopEnded, stopping));
      LastExcuses(es, me);
    }

    method AskedToStop(branch: Branch) returns (ok: bool)
      requires Valid() && Mine().pc == Selecting && (branch == Signal || branch == Requested)
      modifies this
      ensures Valid() && old(es) <= es && Mine().pc == ShuttingDown && ok
    {
      hide Traced;
      ok := true;
      Did(Select(branch, true));
    }

    // ----- giving back -----

    method ShutDown() returns (ok: bool)
      requires Valid() && Mine().pc == ShuttingDown
      modifies this
      ensures Valid() && old(es) <= es && Mine().pc == if ok then Quieted else UnwindState
      ensures reliable ==> ok
    {
      hide Traced;
      ok := Succeeds();
      Did(ShutDownControl(ok));
    }

    method Cancel()
      requires Valid() && Mine().pc == Quieted
      modifies this
      ensures Valid() && old(es) <= es && Mine().pc == Canceling
    {
      hide Traced;
      Did(CancelLoop);
    }

    lemma Failure()
      requires Valid() && (control == Sent(true) || loop == Sent(true))
      ensures Excused(es, me)
    {
      hide Inv, Next, Enabled;
      FailureSent(ss, es, |es|, me);
      assert es[..|es|] == es;
    }

    method TakeControlResult() returns (ok: bool)
      requires Valid() && Mine().pc == Canceling && control.Sent?
      modifies this
      ensures Valid() && old(es) <= es && Mine().pc == if ok then ControlDone else UnwindState
      ensures !ok ==> Excused(es, me)
    {
      hide Traced;
      ok := !control.failed;
      if !ok { Failure(); }
      ghost var before := es;
      control := Received;
      Did(AwaitControl);
      if !ok { StaysExcused(before, es, me); }
    }

    /** A receive that does not get its value within `patience` turns of the others is still waiting. */
    method ReceiveControl(patience: nat) returns (received: bool, ok: bool)
      requires Valid() && Mine().pc == Canceling
      modifies this
      ensures Valid() && old(es) <= es
      ensures Mine().pc == if !received then Canceling else if ok then ControlDone else UnwindState
      ensures received && !ok ==> Excused(es, me)
    {
      hide Traced, Excused;
      for _ := 0 to patience
        invariant Valid() && old(es) <= es && Mine().pc == Canceling
      {
        Others();
        if control.Sent? {
          ok := TakeControlResult();
          return true, ok;
        }
      }
      return false, false;
    }

    method TakeLoopResult() returns (ok: bool)
      requires Valid() && Mine().pc == ControlDone && loop.Sent?
      modifies this
      ensures Valid() && old(es) <= es && Mine().pc == if ok then Drained else UnwindState
      ensures !ok ==> Excused(es, me)
    {
      hide Traced;
      ok := !loop.failed;
      if !ok { Failure(); }
      ghost var before := es;
      loop := Received;
      Did(AwaitLoop);
      if !ok { StaysExcused(before, es, me); }
    }

    method ReceiveLoop(patience: nat) returns (received: bool, ok: bool)
      requires Valid() && Mine().pc == ControlDone
      modifies this
      ensures Valid() && old(es) <= es
      ensures Mine().pc == if !received then ControlDone else if ok then Drained else UnwindState
      ensures received && !ok ==> Excused(es, me)
    {
      hide Traced, Excused;
      for _ := 0 to patience
        invariant Valid() && old(es) <= es && Mine().pc == ControlDone
      {
        Others();
        if loop.Sent? {
          ok := TakeLoopResult();
          return true, ok;
        }
      }
      return false, false;
    }

    method RemoveStateFile() returns (ok: bool)
      requires Valid() && Mine().pc == Drained
      modifies this
      ensures Valid() && old(es) <= es && Mine().pc == if ok then Unlisted else UnwindState
      ensures reliable ==> ok
    {
      hide Traced;
      Known();
      ok := Succeeds();
      if ok { file, stateWritten := None, false; }
      Did(RemoveState(ok));
    }

    method Release() returns (ok: bool)
      requires Valid() && Mine().pc == Unlisted
      modifies this
      ensures Valid() && old(es) <= es && Mine().pc == if ok then Released else UnwindState
      ensures reliable ==> ok
    {
      hide Traced;
      Known();
      ok := Succeeds();
      if ok { lock, lockHeld := None, false; }
      Did(ReleaseLock(ok));
    }

    method Close() returns (ok: bool)
      requires Valid() && Mine().pc == Released
      modifies this
      ensures Valid() && old(es) <= es && Mine().pc == if ok then Exited else UnwindState
      ensures ok ==> es != [] && es[|es| - 1] == Act(me, CloseDb(true))
      ensures reliable ==> ok
    {
      hide Traced;
      ok := Succeeds();
      if ok { dbOpen := false; }
      Did(CloseDb(ok));
    }

    // ----- deferred actions: what is no longer held is left alone -----

    method DeferredState()
      requires Valid() && Mine().pc == UnwindState
      modifies this`file, this`stateWritten, this`s, this`ss, this`es
      ensures Valid() && old(es) <= es && Mine().pc == UnwindListener
      ensures reliable ==> !stateWritten
    {
      hide Traced;
      var ok := Succeeds();
      if stateWritten && ok { file, stateWritten := None, false; }
      Did(Unwind(ok));
    }

    method DeferredListener()
      requires Valid() && Mine().pc == UnwindListener
      modifies this`listenerOpen, this`s, this`ss, this`es
      ensures Valid() && old(es) <= es && Mine().pc == UnwindDb && !listenerOpen
    {
      hide Traced;
      if listenerOpen { listenerOpen := false; }
      Did(Unwind(true));
    }

    method DeferredDb()
      requires Valid() && Mine().pc == UnwindDb
      modifies this`dbOpen, this`s, this`ss, this`es
      ensures Valid() && old(es) <= es && Mine().pc == UnwindLock && !dbOpen
    {
      hide Traced;
      if dbOpen { dbOpen := false; }
      Did(Unwind(true));
    }

    method DeferredLock()
      requires Valid() && Mine().pc == UnwindLock
      modifies this`lock, this`lockHeld, this`s, this`ss, this`es
      ensures Valid() && old(es) <= es && Mine().pc == Exited
      ensures reliable ==> !lockHeld
    {
      hide Traced;
      var ok := Succeeds();
      if lockHeld && ok { lock, lockHeld := None, false; }
      Did(Unwind(ok));
    }

    method Succeeds() returns (ok: bool)
      ensures reliable ==> ok
    {
      ok := *;
      if reliable { ok := true; }
    }

    /** The last registered runs first, and nothing is left behind. */
    method RunDeferred()
      requires Valid() && Mine().pc == UnwindState
      modifies this
      ensures Valid() && old(es) <= es && Mine().pc == Exited && !dbOpen && !listenerOpen
      ensures reliable ==> !lockHeld && !stateWritten
    {
      hide Valid, Mine;
      Others();
      DeferredState();
      Others();
      DeferredListener();
      Others();
      DeferredDb();
      Others();
      DeferredLock();
    }

    // ----- Serve -----

    /** Up to the metadata; false once an error has been met. */
    method Acquire() returns (ok: bool)
      requires Valid() && Mine().pc == Locked
      modifies this
      ensures Valid() && old(es) <= es && Mine().pc == if ok then Advertised else UnwindState
      ensures reliable ==> ok
    {
      hide Valid, Mine;
      Others();
      ok := Open();
      if !ok { return; }
      Others();
      ok := PrepareDb();
      if !ok { return; }
      Others();
      ok := ListenControl();
      if !ok { return; }
      Others();
      ok := UpsertMetadata();
    }

    /** The state file is there before anyone can be answered. */
    method Publish() returns (ok: bool)
      requires Valid() && Mine().pc == Advertised
      modifies this
      ensures Valid() && old(es) <= es && Mine().pc == if ok then ShuttingDown else UnwindState
      ensures reliable && !ok ==> Excused(es, me)
    {
      hide Valid, Mine;
      Others();
      ok := WriteStateFile();
      if !ok { return; }
      Others();
      ok := StartServing();
      if !ok { return; }
      Others();
      ok := Wait();
    }

    method Drain(patience: nat) returns (received: bool, ok: bool)
      requires Valid() && Mine().pc == ShuttingDown
      modifies this
      ensures Valid() && old(es) <= es
      ensures received ==> Mine().pc == if ok then Drained else UnwindState
      ensures reliable && received && !ok ==> Excused(es, me)
    {
      hide Valid, Mine;
      received := true;
      Others();
      ok := ShutDown();
      if !ok { return; }
      Others();
      Cancel();
      received, ok := ReceiveControl(patience);
      if !received || !ok { return; }
      received, ok := ReceiveLoop(patience);
    }

    /** State file, lock, database. */
    method GiveBack() returns (ok: bool)
      requires Valid() && Mine().pc == Drained
      modifies this
      ensures Valid() && old(es) <= es && Mine().pc == if ok then Exited else UnwindState
      ensures ok ==> es != [] && es[|es| - 1] == Act(me, CloseDb(true))
      ensures reliable ==> ok
    {
      hide Valid, Mine;
      Others();
      ok := RemoveStateFile();
      if !ok { return; }
      Others();
      ok := Release();
      if !ok { return; }
      Others();
      ok := Close();
    }

    /** All that is done under the lock; false once an error has been met. */
    method HoldingLock(patience: nat) returns (returned: bool, ok: bool)
      requires Valid() && Mine().pc == Locked
      modifies this
      ensures Valid() && old(es) <= es
      ensures returned ==> Mine().pc == if ok then Exited else UnwindState
      ensures returned && ok ==> es != [] && es[|es| - 1] == Act(me, CloseDb(true))
      ensures reliable && returned && !ok ==> Excused(es, me)
    {
      hide Valid, Mine;
      returned := true;
      ok := Acquire();
      if !ok { return; }
      ok := Publish();
      if !ok { return; }
      returned, ok := Drain(patience);
      if !returned || !ok { return; }
      ok := GiveBack();
    }

    /**
      Serve. When it returns, every deferred action has run. When it returns without an error, the
      loop has drained, and neither the lock nor a state file of this process is left.
     */
    method Serve(patience: nat) returns (returned: bool, ok: bool)
      requires Valid() && Mine().pc == Starting
      modifies this
      ensures Valid() && old(es) <= es
      ensures returned ==> Mine().pc == Exited && !dbOpen && !listenerOpen
      ensures returned && (ok || reliable) ==> !lockHeld && !stateWritten && lock != Some(me)
      ensures returned && ok ==> loop == Received
      ensures reliable && returned && !ok ==> Excused(es, me)
    {
      hide Valid, Mine;
      Others();
      ok := Lock();
      if !ok {
        Known();
        return true, false;
      }
      returned, ok := HoldingLock(patience);
      if !returned { return false, false; }
      if ok {
        Clean();
      } else {
        RunDeferred();
        Known();
      }
    }

    lemma Clean()
      requires Valid() && es != [] && es[|es| - 1] == Act(me, CloseDb(true))
      ensures loop == Received && !lockHeld && !stateWritten && lock != Some(me) && !dbOpen && !listenerOpen
    {
      hide Inv;
      ReturnsClean(ss, es, |es| - 1, me);
    }
  }
}
