/**
  Any number of serve processes on one instance: the lock, the state file, and the order in which
  a process acquires and gives back what it holds. A step is one action of one process.
 */
module Instance {
  import opened Domain

  type Pid = nat

  /** The case of the select that ended the wait. */
  datatype Branch = Signal | Requested | Control | LoopEnded

  /** A result channel of capacity one: its goroutine sends once, and the value is received once. */
  datatype Channel = Idle | Running | Sent(failed: bool) | Received

  datatype Pc =
    | Starting | Locked | Opened | Prepared | Listening | Advertised | Written
    | Selecting | ShuttingDown | Quieted | Canceling | ControlDone | Drained | Unlisted | Released
    | UnwindState | UnwindListener | UnwindDb | UnwindLock
    | Exited

  datatype Proc = Proc(
    pc: Pc,
    lockHeld: bool,
    dbOpen: bool,
    listenerOpen: bool,
    stateWritten: bool,
    branch: Option<Branch>,
    control: Channel,
    loop: Channel
  )

  /** `file` names the process that wrote the state file. */
  datatype State = State(lock: Option<Pid>, file: Option<Pid>, procs: map<Pid, Proc>)

  const NO_PROCESS := State(None, None, map[])

  datatype Action =
    | TryLock(ok: bool)
    | OpenDb(ok: bool)
    | Prepare(ok: bool)              // migrations and token
    | Listen(ok: bool)
    | Advertise(ok: bool)            // instance metadata
    | WriteState(ok: bool)
    | Launch(ok: bool)               // control server and loop
    | Select(branch: Branch, stopping: bool)
    | ShutDownControl(ok: bool)
    | CancelLoop
    | AwaitControl
    | AwaitLoop
    | RemoveState(ok: bool)
    | ReleaseLock(ok: bool)
    | CloseDb(ok: bool)
    | Unwind(ok: bool)               // the next deferred action
    | ControlReturns(failed: bool)
    | LoopReturns(failed: bool)      // the loop has drained

  datatype Step = Spawn(p: Pid) | Act(p: Pid, a: Action) | Crash(p: Pid)

  const FRESH := Proc(Starting, false, false, false, false, None, Channel.Idle, Channel.Idle)

  /** Deferred actions run last-registered first: state file, listener, database, lock. */
  function Failed(q: Proc): Proc { q.(pc := UnwindState) }

  predicate Ready(q: Proc, a: Action) {
    match a
    case TryLock(ok) => q.pc == Starting
    case OpenDb(ok) => q.pc == Locked
    case Prepare(ok) => q.pc == Opened
    case Listen(ok) => q.pc == Prepared
    case Advertise(ok) => q.pc == Listening
    case WriteState(ok) => q.pc == Advertised
    case Launch(ok) => q.pc == Written
    case Select(branch, stopping) =>
      q.pc == Selecting && (branch == Control ==> q.control.Sent?) && (branch == LoopEnded ==> q.loop.Sent?)
    case ShutDownControl(ok) => q.pc == ShuttingDown
    case CancelLoop => q.pc == Quieted
    case AwaitControl => q.pc == Canceling && q.control.Sent?
    case AwaitLoop => q.pc == ControlDone && q.loop.Sent?
    case RemoveState(ok) => q.pc == Drained
    case ReleaseLock(ok) => q.pc == Unlisted
    case CloseDb(ok) => q.pc == Released
    case Unwind(ok) => q.pc == UnwindState || q.pc == UnwindListener || q.pc == UnwindDb || q.pc == UnwindLock
    case ControlReturns(failed) => q.control == Channel.Running
    case LoopReturns(failed) => q.loop == Channel.Running
  }

  /** What an action does to the process itself. */
  function Acted(q: Proc, a: Action): Proc
    requires Ready(q, a)
  {
    match a
    case TryLock(ok) => if ok then q.(pc := Locked, lockHeld := true) else q.(pc := Exited)
    case OpenDb(ok) => if ok then q.(pc := Opened, dbOpen := true) else Failed(q)
    case Prepare(ok) => if ok then q.(pc := Prepared) else Failed(q)
    case Listen(ok) => if ok then q.(pc := Listening, listenerOpen := true) else Failed(q)
    case Advertise(ok) => if ok then q.(pc := Advertised) else Failed(q)
    case WriteState(ok) => if ok then q.(pc := Written, stateWritten := true) else Failed(q)
    case Launch(ok) =>
      if ok then q.(pc := Selecting, listenerOpen := false, control := Channel.Running, loop := Channel.Running)
        else Failed(q)
    case Select(branch, stopping) => Selected(q.(branch := Some(branch), pc := ShuttingDown), branch, stopping)
    case ShutDownControl(ok) => if ok then q.(pc := Quieted) else Failed(q)
    case CancelLoop => q.(pc := Canceling)
    case AwaitControl =>
      if q.control.failed then Failed(q.(control := Received)) else q.(pc := ControlDone, control := Received)
    case AwaitLoop =>
      if q.loop.failed then Failed(q.(loop := Received)) else q.(pc := Drained, loop := Received)
    case RemoveState(ok) => if ok then q.(pc := Unlisted, stateWritten := false) else Failed(q)
    case ReleaseLock(ok) => if ok then q.(pc := Released, lockHeld := false) else Failed(q)
    case CloseDb(ok) => if ok then q.(pc := Exited, dbOpen := false) else Failed(q)
    case Unwind(ok) => Unwound(q, ok)
    case ControlReturns(failed) => q.(control := Sent(failed))
    case LoopReturns(failed) => q.(loop := Sent(failed))
  }

  /** A result received in the select is gone; an error, or an end nobody asked for, returns at once. */
  function Selected(q: Proc, branch: Branch, stopping: bool): Proc
    requires (branch == Control ==> q.control.Sent?) && (branch == LoopEnded ==> q.loop.Sent?)
  {
    match branch
    case Control => if q.control.failed || !stopping then Failed(q.(control := Received)) else q.(control := Received)
    case LoopEnded => if q.loop.failed || !stopping then Failed(q.(loop := Received)) else q.(loop := Received)
    case _ => q
  }

  /** Errors of deferred actions are ignored. */
  function Unwound(q: Proc, ok: bool): Proc {
    match q.pc
    case UnwindState => q.(pc := UnwindListener, stateWritten := q.stateWritten && !ok)
    case UnwindListener => q.(pc := UnwindDb, listenerOpen := false)
    case UnwindDb => q.(pc := UnwindLock, dbOpen := false)
    case _ => q.(pc := Exited, lockHeld := q.lockHeld && !ok)
  }

  /** And what it does to what the processes share. */
  function LockAfter(lock: Option<Pid>, p: Pid, q: Proc, q': Proc): Option<Pid> {
    if q'.lockHeld == q.lockHeld then lock else if q'.lockHeld then Some(p) else None
  }

  function FileAfter(file: Option<Pid>, p: Pid, q: Proc, q': Proc): Option<Pid> {
    if q'.stateWritten == q.stateWritten then file else if q'.stateWritten then Some(p) else None
  }

  predicate Enabled(s: State, e: Step) {
    match e
    case Spawn(p) => p !in s.procs
    case Act(p, a) => p in s.procs && Ready(s.procs[p], a) && (a == TryLock(true) ==> s.lock == None)
    case Crash(p) => p in s.procs
  }

  /** A process that dies, or has returned and ends, leaves its state file and frees its lock. */
  function Next(s: State, e: Step): State
    requires Enabled(s, e)
  {
    match e
    case Spawn(p) => s.(procs := s.procs[p := FRESH])
    case Act(p, a) =>
      var q := s.procs[p];
      var q' := Acted(q, a);
      State(LockAfter(s.lock, p, q, q'), FileAfter(s.file, p, q, q'), s.procs[p := q'])
    case Crash(p) => s.(lock := if s.lock == Some(p) then None else s.lock, procs := s.procs - {p})
  }

  ghost predicate Behaviour(ss: seq<State>, es: seq<Step>) {
    && |ss| == |es| + 1
    && ss[0] == NO_PROCESS
    && forall i :: 0 <= i < |es| ==> Enabled(ss[i], es[i]) && ss[i + 1] == Next(ss[i], es[i])
  }

  // ----- the invariant -----

  predicate Asked(branch: Option<Branch>) { branch == Some(Signal) || branch == Some(Requested) }

  /** The value has been sent, or will be. */
  predicate Live(c: Channel) { c.Running? || c.Sent? }

  /** A value received in the select cannot be received again; the others are still to come or waiting. */
  predicate Spent(q: Proc) {
    && (if q.branch == Some(Control) then q.control == Received else Live(q.control))
    && (if q.branch == Some(LoopEnded) then q.loop == Received else Live(q.loop))
  }

  /** What one process knows of itself. */
  predicate Shape(q: Proc) {
    match q.pc
    case Starting => q == FRESH
    case Written => q.lockHeld && q.stateWritten && q.control.Idle? && q.loop.Idle? && q.branch == None
    case Selecting => !q.listenerOpen && q.lockHeld && q.stateWritten && q.branch == None && Live(q.control)
      && Live(q.loop)
    case ShuttingDown => !q.listenerOpen && q.lockHeld && q.stateWritten && q.branch != None && Spent(q)
    case Quieted => !q.listenerOpen && q.lockHeld && q.stateWritten && q.branch != None && Spent(q)
    case Canceling => !q.listenerOpen && q.lockHeld && q.stateWritten && q.branch != None && Spent(q)
    case ControlDone =>
      && !q.listenerOpen && q.lockHeld && q.stateWritten
      && ((Asked(q.branch) && Live(q.loop)) || (q.branch == Some(LoopEnded) && q.loop == Received))
    case Drained => !q.listenerOpen && q.lockHeld && q.stateWritten && Asked(q.branch) && q.loop == Received
    case Unlisted => !q.listenerOpen && q.lockHeld && !q.stateWritten && Asked(q.branch) && q.loop == Received
    case Released => !q.listenerOpen && !q.lockHeld && !q.stateWritten && Asked(q.branch) && q.loop == Received
    case Exited => true
    case UnwindState => q.stateWritten || q.loop == Channel.Running ==> q.lockHeld
    case UnwindListener => q.stateWritten || q.loop == Channel.Running ==> q.lockHeld
    case UnwindDb => q.stateWritten || q.loop == Channel.Running ==> q.lockHeld
    case UnwindLock => q.stateWritten || q.loop == Channel.Running ==> q.lockHeld
    case _ => q.lockHeld && !q.stateWritten && q.control.Idle? && q.loop.Idle? && q.branch == None
  }

  ghost predicate Inv(s: State) {
    && (forall p <- s.procs :: Shape(s.procs[p]))
    && (forall p <- s.procs :: s.procs[p].lockHeld <==> s.lock == Some(p))
    && (s.lock.Some? ==> s.lock.value in s.procs)
    && (forall p <- s.procs :: s.procs[p].stateWritten && s.procs[p].lockHeld ==> s.file == Some(p))
  }

  predicate Acquires(a: Action) {
    a.TryLock? || a.OpenDb? || a.Prepare? || a.Listen? || a.Advertise? || a.WriteState? || a.Launch?
  }

  predicate GivesBack(a: Action) {
    a.ShutDownControl? || a.CancelLoop? || a.RemoveState? || a.ReleaseLock? || a.CloseDb? || a.Unwind?
  }

  lemma AcquiringKeepsShape(q: Proc, a: Action)
    requires Ready(q, a) && Shape(q) && Acquires(a)
    ensures Shape(Acted(q, a))
  {
  }

  lemma GivingBackKeepsShape(q: Proc, a: Action)
    requires Ready(q, a) && Shape(q) && GivesBack(a)
    ensures Shape(Acted(q, a))
  {
  }

  lemma ReceivingKeepsShape(q: Proc, a: Action)
    requires Ready(q, a) && Shape(q) && (a.Select? || a.AwaitControl? || a.AwaitLoop?)
    ensures Shape(Acted(q, a))
  {
    assert q.branch.Some? ==> Asked(q.branch) || q.branch.value == Control || q.branch.value == LoopEnded;
  }

  lemma SendingKeepsShape(q: Proc, a: Action)
    requires Ready(q, a) && Shape(q) && (a.ControlReturns? || a.LoopReturns?)
    ensures Shape(Acted(q, a))
  {
  }

  lemma ShapeKept(q: Proc, a: Action)
    requires Ready(q, a) && Shape(q)
    ensures Shape(Acted(q, a))
  {
    hide Shape, Acted, Ready;
    if Acquires(a) {
      AcquiringKeepsShape(q, a);
    } else if GivesBack(a) {
      GivingBackKeepsShape(q, a);
    } else if a.ControlReturns? || a.LoopReturns? {
      SendingKeepsShape(q, a);
    } else {
      ReceivingKeepsShape(q, a);
    }
  }

  /**
    The flags a process sets and clears: the lock is taken by TryLock only, and a file of its own goes only while it
    holds the lock.
   */
  lemma FlagsChange(q: Proc, a: Action)
    requires Ready(q, a) && Shape(q)
    ensures var q' := Acted(q, a);
      && (q'.lockHeld && !q.lockHeld ==> a == TryLock(true))
      && (q'.stateWritten && !q.stateWritten ==> a == WriteState(true) && q.lockHeld && q'.lockHeld)
      && (q.stateWritten && !q'.stateWritten ==>
        q.lockHeld && q'.lockHeld && (a == RemoveState(true) || a == Unwind(true)))
      && (q.lockHeld && !q'.lockHeld ==>
            || (a == Unwind(true) && q.pc == UnwindLock)
            || (a == ReleaseLock(true) && Asked(q.branch) && q.loop == Received && !q.stateWritten))
  {
  }

  lemma StepKeeps(s: State, e: Step)
    requires Inv(s) && Enabled(s, e)
    ensures Inv(Next(s, e))
  {
    if e.Act? {
      var q := s.procs[e.p];
      ShapeKept(q, e.a);
      FlagsChange(q, e.a);
      hide Shape, Acted, Ready;
      assert forall r <- s.procs :: r != e.p ==> Next(s, e).procs[r] == s.procs[r];
    }
  }

  lemma {:induction false} Reachable(ss: seq<State>, es: seq<Step>, i: nat)
    requires Behaviour(ss, es) && i < |ss|
    ensures Inv(ss[i])
  {
    hide Next, Enabled, Inv;
    if i == 0 {
      InvHolds();
    } else {
      Reachable(ss, es, i - 1);
      StepKeeps(ss[i - 1], es[i - 1]);
    }
  }

  lemma InvHolds()
    ensures Inv(NO_PROCESS)
  {
  }

  // ----- what holds of every behaviour -----

  /** Only one process holds the lock, and only it may have a state file it wrote. */
  lemma OneHolder(ss: seq<State>, es: seq<Step>, i: nat, p: Pid, q: Pid)
    requires Behaviour(ss, es) && i < |ss| && p in ss[i].procs && q in ss[i].procs
    requires ss[i].procs[p].lockHeld && ss[i].procs[q].lockHeld
    ensures p == q
  {
    Reachable(ss, es, i);
  }

  /** Two loops run on one instance only while a process whose Serve has returned an error has not ended yet. */
  lemma OneLoop(ss: seq<State>, es: seq<Step>, i: nat, p: Pid, q: Pid)
    requires Behaviour(ss, es) && i < |ss| && p in ss[i].procs && q in ss[i].procs && p != q
    requires ss[i].procs[p].loop == Channel.Running && ss[i].procs[q].loop == Channel.Running
    ensures ss[i].procs[p].pc == Exited || ss[i].procs[q].pc == Exited
  {
    hide Next, Enabled;
    Reachable(ss, es, i);
    RunsUnderLock(ss[i].procs[p]);
    RunsUnderLock(ss[i].procs[q]);
    hide Shape;
  }

  lemma RunsUnderLock(q: Proc)
    requires Shape(q) && q.loop == Channel.Running
    ensures q.lockHeld || q.pc == Exited
  {
  }

  /** The state file goes only by an action of the process that wrote it, which then holds the lock. */
  lemma RemovesOnlyItsOwn(ss: seq<State>, es: seq<Step>, i: nat)
    requires Behaviour(ss, es) && i < |es| && ss[i].file.Some? && ss[i + 1].file.None?
    ensures es[i].Act? && ss[i].file == Some(es[i].p) && ss[i].lock == Some(es[i].p)
  {
    hide Shape, Acted, Ready;
    Reachable(ss, es, i);
    if es[i].Act? { FlagsChange(ss[i].procs[es[i].p], es[i].a); }
  }

  /** A state file is written only by a process that holds the lock. */
  lemma WritesUnderLock(ss: seq<State>, es: seq<Step>, i: nat)
    requires Behaviour(ss, es) && i < |es| && ss[i + 1].file.Some? && ss[i + 1].file != ss[i].file
    ensures es[i].Act? && es[i].a == WriteState(true)
    ensures ss[i + 1].file == Some(es[i].p) && ss[i].lock == Some(es[i].p)
  {
    hide Shape, Acted, Ready;
    Reachable(ss, es, i);
    if es[i].Act? { FlagsChange(ss[i].procs[es[i].p], es[i].a); }
  }

  /**
    A living process gives the lock back either while it returns an error, or on the way a signal or
    a shutdown request led to. There the loop has drained and the state file is gone before.
   */
  lemma DrainsBeforeRelease(ss: seq<State>, es: seq<Step>, i: nat)
    requires Behaviour(ss, es) && i < |es| && es[i].Act? && ss[i].lock == Some(es[i].p)
      && ss[i + 1].lock != Some(es[i].p)
    ensures var q := ss[i].procs[es[i].p];
      || (es[i].a == Unwind(true) && q.pc == UnwindLock)
      || (es[i].a == ReleaseLock(true) && Asked(q.branch) && q.loop == Received && !q.stateWritten)
  {
    hide Shape, Acted, Ready;
    Reachable(ss, es, i);
    FlagsChange(ss[i].procs[es[i].p], es[i].a);
  }

  /** Serve returns without an error only once its loop has drained, its state file is gone and the lock is back. */
  lemma ReturnsClean(ss: seq<State>, es: seq<Step>, i: nat, p: Pid)
    requires Behaviour(ss, es) && i < |es| && es[i] == Act(p, CloseDb(true))
    ensures var q := ss[i].procs[p];
      Asked(q.branch) && q.loop == Received && !q.stateWritten && !q.lockHeld && !q.listenerOpen
        && ss[i].lock != Some(p)
  {
    hide Acted;
    Reachable(ss, es, i);
    assert Shape(ss[i].procs[p]);
  }

  // ----- the life of a process that returns without an error -----

  /** How many actions lead to a place, unless an error has been met. */
  function Place(pc: Pc): Option<nat> {
    match pc
    case Starting => Some(0)
    case Locked => Some(1)
    case Opened => Some(2)
    case Prepared => Some(3)
    case Listening => Some(4)
    case Advertised => Some(5)
    case Written => Some(6)
    case Selecting => Some(7)
    case ShuttingDown => Some(8)
    case Quieted => Some(9)
    case Canceling => Some(10)
    case ControlDone => Some(11)
    case Drained => Some(12)
    case Unlisted => Some(13)
    case Released => Some(14)
    case _ => None
  }

  /** The n-th of its actions. */
  predicate Does(n: nat, a: Action) {
    match a
    case TryLock(ok) => n == 0 && ok
    case OpenDb(ok) => n == 1 && ok
    case Prepare(ok) => n == 2 && ok
    case Listen(ok) => n == 3 && ok
    case Advertise(ok) => n == 4 && ok
    case WriteState(ok) => n == 5 && ok
    case Launch(ok) => n == 6 && ok
    case Select(branch, stopping) => n == 7
    case ShutDownControl(ok) => n == 8 && ok
    case CancelLoop => n == 9
    case AwaitControl => n == 10
    case AwaitLoop => n == 11
    case RemoveState(ok) => n == 12 && ok
    case ReleaseLock(ok) => n == 13 && ok
    case CloseDb(ok) => n == 14 && ok
    case _ => false
  }

  ghost predicate Did(es: seq<Step>, ks: seq<nat>, i: nat, p: Pid)
    requires i <= |es|
  {
    && (forall n :: 0 <= n < |ks| ==> ks[n] < i && es[ks[n]].Act? && es[ks[n]].p == p && Does(n, es[ks[n]].a))
    && forall m, n :: 0 <= m < n < |ks| ==> ks[m] < ks[n]
  }

  /** A place is left by one action, and come to by the one before. */
  lemma ComesTo(q: Proc, a: Action, n: nat)
    requires Ready(q, a) && n > 0 && Place(Acted(q, a).pc) == Some(n)
    ensures Place(q.pc) == Some(n) || (Place(q.pc) == Some(n - 1) && Does(n - 1, a))
  {
    hide Ready, Acted, Does, Place;
    if Acquires(a) {
      AcquiringComesTo(q, a);
    } else if GivesBack(a) {
      GivingBackComesTo(q, a);
    } else {
      ReceivingComesTo(q, a);
    }
  }

  /** The place the action leads to, if any. */
  predicate Follows(q: Proc, a: Action)
    requires Ready(q, a)
  {
    match Place(Acted(q, a).pc)
    case None => true
    case Some(n) => n > 0 && (Place(q.pc) == Some(n) || (Place(q.pc) == Some(n - 1) && Does(n - 1, a)))
  }

  lemma AcquiringComesTo(q: Proc, a: Action)
    requires Ready(q, a) && Acquires(a)
    ensures Follows(q, a)
  {
    hide Selected, Unwound;
    if Place(Acted(q, a).pc).Some? { AcquiredPlace(q, a); }
    hide Acted;
  }

  lemma AcquiredPlace(q: Proc, a: Action)
    requires Ready(q, a) && Acquires(a) && Place(Acted(q, a).pc).Some?
    ensures Place(q.pc).Some? && Place(Acted(q, a).pc) == Some(Place(q.pc).value + 1)
  {
    hide Selected, Unwound, Does;
  }

  lemma GivingBackComesTo(q: Proc, a: Action)
    requires Ready(q, a) && GivesBack(a)
    ensures Follows(q, a)
  {
    hide Unwound, Selected;
    if a.Unwind? {
      UnwoundPlace(q, a.ok);
      hide Does;
    } else if Place(Acted(q, a).pc).Some? {
      GivenBackPlace(q, a);
    }
  }

  lemma GivenBackPlace(q: Proc, a: Action)
    requires Ready(q, a) && GivesBack(a) && !a.Unwind? && Place(Acted(q, a).pc).Some?
    ensures Place(q.pc).Some? && Place(Acted(q, a).pc) == Some(Place(q.pc).value + 1)
  {
    hide Selected, Unwound, Does;
  }

  lemma ReceivingComesTo(q: Proc, a: Action)
    requires Ready(q, a) && !Acquires(a) && !GivesBack(a)
    ensures Follows(q, a) || a.ControlReturns? || a.LoopReturns?
    ensures a.ControlReturns? || a.LoopReturns? ==> Acted(q, a).pc == q.pc
  {
    hide Selected;
    if a.Select? { SelectedPlace(q.(branch := Some(a.branch), pc := ShuttingDown), a.branch, a.stopping); }
  }

  lemma SelectedPlace(q: Proc, branch: Branch, stopping: bool)
    requires (branch == Control ==> q.control.Sent?) && (branch == LoopEnded ==> q.loop.Sent?)
    ensures Selected(q, branch, stopping).pc == q.pc || Selected(q, branch, stopping).pc == UnwindState
  {
  }

  lemma UnwoundPlace(q: Proc, ok: bool)
    ensures Place(Unwound(q, ok).pc) == None
  {
  }

  lemma Spawns()
    ensures Place(FRESH.pc) == Some(0)
  {
  }

  lemma {:induction false} Came(ss: seq<State>, es: seq<Step>, i: nat, p: Pid, n: nat) returns (ks: seq<nat>)
    requires Behaviour(ss, es) && i < |ss| && p in ss[i].procs && Place(ss[i].procs[p].pc) == Some(n)
    ensures |ks| == n && Did(es, ks, i, p)
  {
    hide Ready, Acted, Does, Place;
    if n == 0 { return []; }
    Spawns();
    var e := es[i - 1];
    assert Enabled(ss[i - 1], e) && ss[i] == Next(ss[i - 1], e);
    if e.Act? && e.p == p { ComesTo(ss[i - 1].procs[p], e.a, n); }
    if e.Act? && e.p == p && Place(ss[i - 1].procs[p].pc) == Some(n - 1) && Does(n - 1, e.a) {
      ks := Came(ss, es, i - 1, p, n - 1);
      ks := ks + [i - 1];
    } else {
      ks := Came(ss, es, i - 1, p, n);
    }
  }

  /**
    A process that returns without an error has done these fifteen things in this order: it took the lock, opened and
    prepared the database, listened, advertised itself, wrote the state file, started its goroutines and was asked to
    stop; it shut the control server down, told the loop to stop, took both results, removed the state file, and gave
    the lock and the database back.
   */
  lemma CleanLife(ss: seq<State>, es: seq<Step>, i: nat, p: Pid) returns (ks: seq<nat>)
    requires Behaviour(ss, es) && i < |es| && es[i] == Act(p, CloseDb(true))
    ensures |ks| == 15 && Did(es, ks, i + 1, p) && ks[14] == i
  {
    ks := Closing(ss, es, i, p);
    ks := ks + [i];
  }

  lemma Closing(ss: seq<State>, es: seq<Step>, i: nat, p: Pid) returns (ks: seq<nat>)
    requires Behaviour(ss, es) && i < |es| && es[i] == Act(p, CloseDb(true))
    ensures |ks| == 14 && Did(es, ks, i, p)
  {
    hide Acted, Does;
    assert Enabled(ss[i], es[i]);
    ks := Came(ss, es, i, p, 14);
  }

  // ----- the second receive -----

  /** The process waits for the value its select has already taken. */
  predicate Stuck(q: Proc) {
    (q.pc == Canceling && q.branch == Some(Control)) || (q.pc == ControlDone && q.branch == Some(LoopEnded))
  }

  lemma StaysStuck(q: Proc, a: Action)
    requires Ready(q, a) && Shape(q) && Stuck(q)
    ensures Stuck(Acted(q, a)) && Acted(q, a).pc == q.pc
  {
  }

  /** It waits for as long as it lives. */
  lemma {:induction false} SecondReceiveBlocks(ss: seq<State>, es: seq<Step>, i: nat, j: nat, p: Pid)
    requires Behaviour(ss, es) && i <= j < |ss| && p in ss[i].procs && Stuck(ss[i].procs[p])
    requires forall k :: i <= k < j ==> es[k] != Crash(p)
    ensures p in ss[j].procs && Stuck(ss[j].procs[p]) && ss[j].procs[p].pc == ss[i].procs[p].pc
  {
    hide Shape, Acted, Ready, Stuck;
    if i == j {
    } else {
      SecondReceiveBlocks(ss, es, i, j - 1, p);
      Reachable(ss, es, j - 1);
      if es[j - 1].Act? && es[j - 1].p == p { StaysStuck(ss[j - 1].procs[p], es[j - 1].a); }
    }
  }

  /** Asked to stop, it waits only until the goroutines have sent, which nothing it does has prevented. */
  lemma FirstReceiveIsReady(ss: seq<State>, es: seq<Step>, i: nat, p: Pid)
    requires Behaviour(ss, es) && i < |ss| && p in ss[i].procs && Asked(ss[i].procs[p].branch)
    ensures var q := ss[i].procs[p];
      q.pc == Canceling ==> Live(q.control) && (q.control.Sent? <==> Ready(q, AwaitControl))
    ensures var q := ss[i].procs[p];
      q.pc == ControlDone ==> Live(q.loop) && (q.loop.Sent? <==> Ready(q, AwaitLoop))
  {
    hide Next, Enabled, Acted;
    Reachable(ss, es, i);
    assert Shape(ss[i].procs[p]);
  }

  // ----- exactly when the lock is given back before the loop has drained -----

  predicate Unwinding(pc: Pc) {
    pc == UnwindState || pc == UnwindListener || pc == UnwindDb || pc == UnwindLock
  }

  /** An error of the control server, met while the loop runs, on the way out or in the select. */
  predicate ControlFails(q: Proc, a: Action)
    requires Ready(q, a)
  {
    && q.loop == Channel.Running && Acted(q, a).pc == UnwindState
    && ((a.Select? && a.branch == Control) || a == ShutDownControl(false) || a == AwaitControl)
  }

  /** Step k is such an error of p, and up to i the process lives and its loop has not returned. */
  ghost predicate Escapes(ss: seq<State>, es: seq<Step>, k: nat, i: nat, p: Pid)
    requires Behaviour(ss, es) && i < |ss|
  {
    && k < i && p in ss[k].procs && es[k].Act? && es[k].p == p && Ready(ss[k].procs[p], es[k].a)
    && ControlFails(ss[k].procs[p], es[k].a)
    && forall j :: k < j < i ==> es[j] != Crash(p) && !(es[j].Act? && es[j].p == p && es[j].a.LoopReturns?)
  }

  /** Only such an error leads into the deferred actions with the loop running. */
  lemma EntersRunning(q: Proc, a: Action)
    requires Ready(q, a) && Shape(q) && !Unwinding(q.pc) && Unwinding(Acted(q, a).pc)
      && Acted(q, a).loop == Channel.Running
    ensures ControlFails(q, a)
  {
  }

  lemma UnwindsRunning(q: Proc, a: Action)
    requires Ready(q, a) && (Unwinding(q.pc) || q.pc == Exited)
    ensures Unwinding(Acted(q, a).pc) || Acted(q, a).pc == Exited
    ensures Acted(q, a).loop == Channel.Running <==> q.loop == Channel.Running && !a.LoopReturns?
  {
  }

  lemma {:induction false} EscapedBefore(ss: seq<State>, es: seq<Step>, i: nat, p: Pid) returns (k: nat)
    requires Behaviour(ss, es) && i < |ss| && p in ss[i].procs
    requires Unwinding(ss[i].procs[p].pc) && ss[i].procs[p].loop == Channel.Running
    ensures Escapes(ss, es, k, i, p)
  {
    hide Shape, Acted, Ready, ControlFails, Unwinding;
    NotUnwinding();
    var e := es[i - 1];
    Reachable(ss, es, i - 1);
    if e.Act? && e.p == p {
      var q := ss[i - 1].procs[p];
      if Unwinding(q.pc) {
        UnwindsRunning(q, e.a);
        k := EscapedBefore(ss, es, i - 1, p);
      } else {
        EntersRunning(q, e.a);
        k := i - 1;
      }
    } else {
      k := EscapedBefore(ss, es, i - 1, p);
    }
  }

  lemma NotUnwinding()
    ensures !Unwinding(FRESH.pc)
  {
  }

  lemma {:induction false} EscapedSince(ss: seq<State>, es: seq<Step>, k: nat, i: nat, p: Pid)
    requires Behaviour(ss, es) && i < |ss| && Escapes(ss, es, k, i, p)
    ensures p in ss[i].procs && ss[i].procs[p].loop == Channel.Running
    ensures Unwinding(ss[i].procs[p].pc) || ss[i].procs[p].pc == Exited
  {
    hide Shape, Ready;
    if i == k + 1 {
      ControlFailing(ss[k].procs[p], es[k].a);
    } else {
      hide Acted, ControlFails, Unwinding;
      EscapedSince(ss, es, k, i - 1, p);
      var e := es[i - 1];
      if e.Act? && e.p == p { UnwindsRunning(ss[i - 1].procs[p], e.a); }
    }
  }

  lemma ControlFailing(q: Proc, a: Action)
    requires Ready(q, a) && ControlFails(q, a)
    ensures Acted(q, a).loop == Channel.Running && Acted(q, a).pc == UnwindState && Acted(q, a).lockHeld == q.lockHeld
  {
  }

  /**
    A living process gives the lock back with its loop still running if and only if the control server
    failed in the select, in its shutdown, or on the way out, and the loop has not returned since.
   */
  lemma UndrainedIff(ss: seq<State>, es: seq<Step>, i: nat, p: Pid)
    requires Behaviour(ss, es) && i < |es| && es[i].Act? && es[i].p == p
    requires ss[i].lock == Some(p) && ss[i + 1].lock != Some(p)
    ensures ss[i].procs[p].loop == Channel.Running <==> exists k :: Escapes(ss, es, k, i, p)
  {
    hide Shape, Acted, Ready;
    DrainsBeforeRelease(ss, es, i);
    if ss[i].procs[p].loop == Channel.Running {
      var k := EscapedBefore(ss, es, i, p);
    }
    if exists k :: Escapes(ss, es, k, i, p) {
      var k :| Escapes(ss, es, k, i, p);
      EscapedSince(ss, es, k, i, p);
    }
  }

  /** And each such error does lead there: the four deferred actions can follow at once. */
  lemma EscapeReleases(s: State, p: Pid, a: Action)
    requires Inv(s) && p in s.procs && Ready(s.procs[p], a) && ControlFails(s.procs[p], a)
    ensures var s1 := Next(s, Act(p, a));
      && Enabled(s1, Act(p, Unwind(true)))
      && var s2 := Next(s1, Act(p, Unwind(true)));
      && Enabled(s2, Act(p, Unwind(true)))
      && var s3 := Next(s2, Act(p, Unwind(true)));
      && Enabled(s3, Act(p, Unwind(true)))
      && var s4 := Next(s3, Act(p, Unwind(true)));
      && Enabled(s4, Act(p, Unwind(true)))
      && var s5 := Next(s4, Act(p, Unwind(true)));
      s4.lock == Some(p) && s5.lock == None && s5.procs[p].loop == Channel.Running
  {
    assert Shape(s.procs[p]) && s.procs[p].lockHeld;
    ControlFailing(s.procs[p], a);
    FourActions(Acted(s.procs[p], a));
    hide Acted, Ready, Shape, ControlFails;
  }

  lemma FourActions(q: Proc)
    requires q.pc == UnwindState
    ensures var u := Unwind(true);
      && Ready(q, u) && Ready(Acted(q, u), u) && Ready(Acted(Acted(q, u), u), u)
        && Ready(Acted(Acted(Acted(q, u), u), u), u)
      && Acted(Acted(Acted(q, u), u), u).lockHeld == Acted(Acted(q, u), u).lockHeld == Acted(q, u).lockHeld
      && Acted(q, u).lockHeld == q.lockHeld
      && var q' := Acted(Acted(Acted(Acted(q, u), u), u), u);
      !q'.lockHeld && q'.loop == q.loop
  {
  }

  // ----- an error on the way out -----

  /** A behaviour in which process 0, alone, has come to q. */
  ghost predicate Alone(ss: seq<State>, es: seq<Step>, q: Proc) {
    && Behaviour(ss, es)
    && ss[|es|].procs == map[0 := q] && ss[|es|].lock == (if q.lockHeld then Some(0) else None)
  }

  lemma ActsOn(ss: seq<State>, es: seq<Step>, q: Proc, a: Action) returns (ss': seq<State>, es': seq<Step>, q': Proc)
    requires Alone(ss, es, q) && Ready(q, a) && (a == TryLock(true) ==> !q.lockHeld)
    ensures Alone(ss', es', q') && q' == Acted(q, a)
  {
    hide Ready, Acted;
    var s' := Next(ss[|es|], Act(0, a));
    ss', es', q' := ss + [s'], es + [Act(0, a)], Acted(q, a);
    assert s'.procs == map[0 := Acted(q, a)];
  }

  /** Process 0 has come up and waits. */
  lemma StartedUp() returns (ss: seq<State>, es: seq<Step>, q: Proc)
    ensures Alone(ss, es, q) && q == Proc(Selecting, true, true, false, true, None, Channel.Running, Channel.Running)
  {
    hide Alone;
    ss, es, q := Spawned();
    ss, es, q := ActsOn(ss, es, q, TryLock(true));
    ss, es, q := ActsOn(ss, es, q, OpenDb(true));
    ss, es, q := ActsOn(ss, es, q, Prepare(true));
    ss, es, q := ActsOn(ss, es, q, Listen(true));
    ss, es, q := ActsOn(ss, es, q, Advertise(true));
    ss, es, q := ActsOn(ss, es, q, WriteState(true));
    ss, es, q := ActsOn(ss, es, q, Launch(true));
  }

  /**
    Asked to stop, process 0 fails to shut its control server down, and gives the lock back while its loop is running.
   */
  lemma ErrorReleasesUndrained() returns (ss: seq<State>, es: seq<Step>, q: Proc)
    ensures Alone(ss, es, q) && q.pc == Exited && q.branch == Some(Signal) && q.loop == Channel.Running && !q.lockHeld
  {
    hide Alone;
    ss, es, q := StartedUp();
    ss, es, q := ActsOn(ss, es, q, Select(Signal, true));
    ss, es, q := ActsOn(ss, es, q, ShutDownControl(false));
    ss, es, q := ActsOn(ss, es, q, Unwind(true));
    ss, es, q := ActsOn(ss, es, q, Unwind(true));
    ss, es, q := ActsOn(ss, es, q, Unwind(true));
    ss, es, q := ActsOn(ss, es, q, Unwind(true));
  }

  lemma Spawned() returns (ss: seq<State>, es: seq<Step>, q: Proc)
    ensures Alone(ss, es, q) && q == FRESH
  {
    var s := Next(NO_PROCESS, Spawn(0));
    ss, es, q := [NO_PROCESS, s], [Spawn(0)], FRESH;
  }
}
