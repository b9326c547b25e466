/**
  Any number of loops on the same tables, each taking runs from listings however old. That a run is
  started at most once rests on the claim alone: neither a lock nor any other order among the loops is used.
 */
module ManyLoops {
  import opened Domain
  import R = RunsStore

  type LoopId = nat

  /** The run a loop is handling, and how far it has come with it. */
  datatype Hand = Empty | Claiming(id: RunId) | Marking(id: RunId) | Starting(id: RunId)

  datatype State = State(runs: R.Table, nextRun: RunId, hands: map<LoopId, Hand>, starts: seq<RunId>)

  const NO_LOOPS := State(map[], 1, map[], [])

  datatype Step =
    | Begin(l: LoopId)
    | Die(l: LoopId)
    | Take(l: LoopId, id: RunId)
    | Claim(l: LoopId, ok: bool, runner: nat)
    | Mark(l: LoopId, ok: bool, at: Second)
    | Start(l: LoopId)
    | Insert(job: JobId, scheduledFor: Option<Second>, at: Second)
    | Cancel(job: JobId, at: Second)
    | Finish(id: RunId, o: Outcome)    // any completion goroutine, on a row of any status
    | Remove(job: JobId)

  predicate Enabled(s: State, e: Step) {
    match e
    case Begin(l) => l !in s.hands
    case Die(l) => l in s.hands
    case Take(l, id) => l in s.hands && s.hands[l].Empty? && id < s.nextRun
    case Claim(l, ok, runner) => l in s.hands && s.hands[l].Claiming?
    case Mark(l, ok, at) => l in s.hands && s.hands[l].Marking?
    case Start(l) => l in s.hands && s.hands[l].Starting?
    case Finish(id, o) => o.status.Terminal()
    case _ => true
  }

  function Next(s: State, e: Step): State
    requires Enabled(s, e)
  {
    match e
    case Begin(l) => s.(hands := s.hands[l := Empty])
    case Die(l) => s.(hands := s.hands - {l})
    case Take(l, id) => s.(hands := s.hands[l := Claiming(id)])
    case Claim(l, ok, runner) =>
      var id := s.hands[l].id;
      if ok && R.Claimable(s.runs, id) then
        s.(runs := R.Claimed(s.runs, id, runner), hands := s.hands[l := Marking(id)])
      else s.(hands := s.hands[l := Empty])
    case Mark(l, ok, at) =>
      var id := s.hands[l].id;
      if ok && id in s.runs && s.runs[id].status == Pending then
        s.(runs := R.Started(s.runs, id, at), hands := s.hands[l := Starting(id)])
      else s.(hands := s.hands[l := Empty])
    case Start(l) => s.(hands := s.hands[l := Empty], starts := s.starts + [s.hands[l].id])
    case Insert(job, scheduledFor, at) =>
      s.(runs := R.Inserted(s.runs, s.nextRun, job, scheduledFor, at), nextRun := s.nextRun + 1)
    case Cancel(job, at) => s.(runs := R.PendingCanceled(s.runs, job, at))
    case Finish(id, o) => s.(runs := R.Finished(s.runs, id, o))
    case Remove(job) => s.(runs := R.JobRemoved(s.runs, job))
  }

  ghost predicate Behaviour(ss: seq<State>, es: seq<Step>) {
    && |ss| == |es| + 1
    && ss[0] == NO_LOOPS
    && forall i :: 0 <= i < |es| ==> Enabled(ss[i], es[i]) && ss[i + 1] == Next(ss[i], es[i])
  }

  // ----- the invariant -----

  /** The id has been claimed before, or its row is past claiming: it will never be claimable again. */
  predicate Used(runs: R.Table, next: RunId, id: RunId) {
    id < next && !R.Claimable(runs, id)
  }

  /** The loop has won the claim of the run. */
  predicate Won(h: Hand) { h.Marking? || h.Starting? }

  ghost predicate StartsUsed(s: State) {
    && (forall i :: 0 <= i < |s.starts| ==> Used(s.runs, s.nextRun, s.starts[i]))
    && (forall i, j :: 0 <= i < j < |s.starts| ==> s.starts[i] != s.starts[j])
  }

  ghost predicate HandsUsed(s: State) {
    && (forall l <- s.hands :: s.hands[l].Claiming? ==> s.hands[l].id < s.nextRun)
    && (forall l <- s.hands :: Won(s.hands[l]) ==> Used(s.runs, s.nextRun, s.hands[l].id) && s.hands[l].id !in s.starts)
    && (forall l <- s.hands, m <- s.hands | l != m && Won(s.hands[l]) && Won(s.hands[m]) ::
      s.hands[l].id != s.hands[m].id)
  }

  ghost predicate Inv(s: State) {
    && (forall id <- s.runs :: id < s.nextRun)
    && StartsUsed(s) && HandsUsed(s)
  }

  /** No statement makes a used id claimable again. */
  lemma StaysUsed(s: State, e: Step, id: RunId)
    requires Enabled(s, e) && Used(s.runs, s.nextRun, id)
    ensures Used(Next(s, e).runs, Next(s, e).nextRun, id)
  {
  }

  lemma StaysUsedAll(s: State, e: Step)
    requires Enabled(s, e)
    ensures forall id :: Used(s.runs, s.nextRun, id) ==> Used(Next(s, e).runs, Next(s, e).nextRun, id)
  {
    forall id | Used(s.runs, s.nextRun, id) ensures Used(Next(s, e).runs, Next(s, e).nextRun, id) {
      StaysUsed(s, e, id);
    }
  }

  lemma ClaimUses(runs: R.Table, next: RunId, id: RunId, runner: nat)
    requires R.Claimable(runs, id) && id < next
    ensures !Used(runs, next, id) && Used(R.Claimed(runs, id, runner), next, id)
  {
  }

  lemma KeysBelow(s: State, e: Step)
    requires (forall id <- s.runs :: id < s.nextRun) && Enabled(s, e)
    ensures s.nextRun <= Next(s, e).nextRun && forall id <- Next(s, e).runs :: id < Next(s, e).nextRun
  {
  }

  /** Who claims a run has it alone: its id was not used before. */
  lemma StepKeeps(s: State, e: Step)
    requires Inv(s) && Enabled(s, e)
    ensures Inv(Next(s, e))
  {
    hide Used, R.Claimable, R.Claimed, R.Started, R.Finished, R.PendingCanceled, R.JobRemoved, R.Inserted;
    StaysUsedAll(s, e);
    KeysBelow(s, e);
    if e.Claim? && R.Claimable(s.runs, s.hands[e.l].id) { ClaimUses(s.runs, s.nextRun, s.hands[e.l].id, e.runner); }
    StartsKeep(s, e);
    hide StartsUsed;
  }

  lemma StartsKeep(s: State, e: Step)
    requires Inv(s) && Enabled(s, e)
    requires forall id :: Used(s.runs, s.nextRun, id) ==> Used(Next(s, e).runs, Next(s, e).nextRun, id)
    ensures StartsUsed(Next(s, e))
  {
    hide Used, R.Claimable, R.Claimed, R.Started, R.Finished, R.PendingCanceled, R.JobRemoved, R.Inserted;
  }

  lemma {:induction false} Reachable(ss: seq<State>, es: seq<Step>, i: nat)
    requires Behaviour(ss, es) && i < |ss|
    ensures Inv(ss[i])
  {
    hide Next, Enabled;
    if i == 0 {
    } else {
      hide Inv;
      Reachable(ss, es, i - 1);
      StepKeeps(ss[i - 1], es[i - 1]);
    }
  }

  /** No two starts, by whichever loops, are of the same run. */
  lemma StartedAtMostOnce(ss: seq<State>, es: seq<Step>, i: nat, a: nat, b: nat)
    requires Behaviour(ss, es) && i < |ss| && a < b < |ss[i].starts|
    ensures ss[i].starts[a] != ss[i].starts[b]
  {
    Reachable(ss, es, i);
  }
}
