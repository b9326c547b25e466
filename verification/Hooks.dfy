/** Delivery of the on_finish hook: which configuration applies, how an attempt is judged, and the retry loop. */
module Hooks {
  import opened Domain

  datatype Delivery = Delivered | Undelivered | TimedOut

  /** How one attempt ended. */
  datatype Attempt = Attempt(status: Delivery, retryable: bool)

  // ----- which configuration -----

  /** What reading the instance metadata gives. */
  datatype Metadata = NoReader | NotFound | Unreadable | Found(config: Option<OnFinish>)

  datatype Resolved = Config(config: OnFinish) | NoHook | Error

  function Normalized(normalize: OnFinish -> Option<OnFinish>, config: Option<OnFinish>): Resolved {
    if config.None? then NoHook
    else match normalize(config.value)
      case None => Error
      case Some(c) => Config(c)
  }

  /** The job's own override, unless there is none: then the instance's, unless inheritance is disabled. */
  function ResolveConfig(normalize: OnFinish -> Option<OnFinish>, job: Job, meta: Metadata): Resolved {
    if job.onFinish.Some? then Normalized(normalize, job.onFinish)
    else if job.disableInherited then NoHook
    else match meta
      case NoReader => NoHook
      case NotFound => NoHook
      case Unreadable => Error
      case Found(config) => Normalized(normalize, config)
  }

  /** The instance's metadata matters exactly to a job that neither overrides nor disables its hook. */
  lemma InheritsIff(normalize: OnFinish -> Option<OnFinish>, job: Job)
    ensures (exists meta, meta' :: ResolveConfig(normalize, job, meta) != ResolveConfig(normalize, job, meta'))
            <==> job.onFinish.None? && !job.disableInherited
  {
    if job.onFinish.None? && !job.disableInherited {
      assert ResolveConfig(normalize, job, NoReader) != ResolveConfig(normalize, job, Unreadable);
    }
  }

  // ----- how an attempt is judged -----

  /** The answer of an HTTP hook; `late` says that the attempt's deadline had passed when the error was seen. */
  datatype HttpAnswer = BadRequest | NoResponse(late: bool) | StatusCode(code: int)

  datatype CommandAnswer = Exited | CommandError(late: bool)

  function DeliverCommand(a: CommandAnswer): Attempt {
    match a
    case Exited => Attempt(Delivered, false)
    case CommandError(late) => Attempt(if late then TimedOut else Undelivered, true)
  }

  function DeliverHttp(a: HttpAnswer): Attempt {
    match a
    case BadRequest => Attempt(Undelivered, false)
    case NoResponse(late) => Attempt(if late then TimedOut else Undelivered, true)
    case StatusCode(code) =>
      if 200 <= code < 300 then Attempt(Delivered, false)
      else Attempt(Undelivered, code >= 500)
  }

  /**
    An HTTP attempt succeeds on a status from 200 to 299 only, and may be repeated after no answer or one from 500 up.
   */
  lemma HttpJudged(a: HttpAnswer)
    ensures DeliverHttp(a).status == Delivered <==> a.StatusCode? && a.code / 100 == 2
    ensures DeliverHttp(a).status == TimedOut <==> a == NoResponse(true)
    ensures DeliverHttp(a).retryable <==> a.NoResponse? || (a.StatusCode? && a.code >= 500)
  {
  }

  lemma CommandJudged(a: CommandAnswer)
    ensures DeliverCommand(a).status == Delivered <==> a == Exited
    ensures DeliverCommand(a).status == TimedOut <==> a == CommandError(true)
    ensures DeliverCommand(a).retryable <==> a != Exited
  {
  }

  // ----- the retry loop -----

  /** What delivering a hook does, in order. */
  datatype Effect = Deliver(attempt: nat) | Record(attempt: nat, ok: bool) | Sleep(ms: nat)

  ghost predicate Stops(a: Attempt) {
    a.status == Delivered || !a.retryable
  }

  /** The attempts end with k: the first that succeeds or may not be retried, or the last one allowed. */
  ghost predicate EndsWith(outcome: nat -> Attempt, limit: nat, k: nat) {
    && 1 <= k <= limit
    && (forall i :: 1 <= i < k ==> !Stops(outcome(i)))
    && (k == limit || Stops(outcome(k)))
  }

  /** Only one number of attempts is right, and it does not depend on what was recorded. */
  lemma EndsOnce(outcome: nat -> Attempt, limit: nat, k: nat, k': nat)
    requires EndsWith(outcome, limit, k) && EndsWith(outcome, limit, k')
    ensures k == k'
  {
  }

  /** The effects of the attempts 1 to k: each delivered and recorded, with a backoff before the next. */
  function Rounds(recorder: bool, recorded: nat -> bool, backoff: nat, k: nat): seq<Effect> {
    if k == 0 then []
    else Rounds(recorder, recorded, backoff, k - 1) + (if k == 1 then [] else [Sleep(backoff)])
         + [Deliver(k)] + (if recorder then [Record(k, recorded(k))] else [])
  }

  /**
    What a delivery under a configuration does: attempts up to its retry count and one, with its backoff between them.
   */
  ghost predicate Delivers(config: OnFinish, outcome: nat -> Attempt, recorder: bool, recorded: nat -> bool,
      effects: seq<Effect>, attempts: nat) {
    EndsWith(outcome, config.retryCount + 1, attempts)
    && effects == Rounds(recorder, recorded, config.retryBackoffMs, attempts)
  }

  /** The configuration that applies to the job: its own, or without one the instance's if it is inherited. */
  ghost predicate Applies(job: Job, meta: Metadata, config: OnFinish) {
    job.onFinish == Some(config)
    || (job.onFinish == None && !job.disableInherited && meta == Found(Some(config)))
  }

  /**
    Delivers the hook that applies, with what the normaliser makes of it, whatever the other settings say. Without one
    nothing is done. It fails, without an attempt, exactly when the one that applies is refused, or the instance's
    cannot be read although it is inherited.
   */
  method Notify(normalize: OnFinish -> Option<OnFinish>, job: Job, meta: Metadata,
                outcome: nat -> Attempt, recorder: bool, recorded: nat -> bool)
      returns (effects: seq<Effect>, attempts: nat, ok: bool)
    ensures forall c | Applies(job, meta, c) && normalize(c).Some? ::
      ok && Delivers(normalize(c).value, outcome, recorder, recorded, effects, attempts)
    ensures (forall c | Applies(job, meta, c) :: normalize(c).None?) ==> effects == [] && attempts == 0
    ensures !ok <==>
      || (exists c | Applies(job, meta, c) :: normalize(c).None?)
      || (job.onFinish == None && !job.disableInherited && meta == Unreadable)
  {
    effects, attempts := [], 0;
    var resolved := ResolveConfig(normalize, job, meta);
    if resolved.Error? { return effects, attempts, false; }
    if resolved.NoHook? { return effects, attempts, true; }
    var config := resolved.config;
    var limit := config.retryCount + 1;
    ghost var rounds := Rounds(recorder, recorded, config.retryBackoffMs, 0);
    var attempt := 1;
    while true
      invariant 1 <= attempt <= limit
      invariant forall i :: 1 <= i < attempt ==> !Stops(outcome(i))
      invariant effects ==
        Rounds(recorder, recorded, config.retryBackoffMs, attempt - 1)
        + (if attempt == 1 then [] else [Sleep(config.retryBackoffMs)])
      decreases limit - attempt
    {
      effects := effects + [Deliver(attempt)];
      var result := outcome(attempt);
      if recorder { effects := effects + [Record(attempt, recorded(attempt))]; }
      if result.status == Delivered { return effects, attempt, true; }
      if !result.retryable || attempt == limit { return effects, attempt, true; }
      effects := effects + [Sleep(config.retryBackoffMs)];
      attempt := attempt + 1;
    }
  }

  // ----- what the effects of k attempts are -----

  datatype Part = Attempts | Records | Sleeps

  function PartOf(part: Part, e: Effect): seq<nat> {
    match e
    case Deliver(attempt) => if part == Attempts then [attempt] else []
    case Record(attempt, ok) => if part == Records then [attempt] else []
    case Sleep(ms) => if part == Sleeps then [ms] else []
  }

  /** The attempt numbers, the recorded numbers, or the pauses, in order. */
  function Pick(part: Part, effects: seq<Effect>): seq<nat> {
    if effects == [] then [] else Pick(part, effects[..|effects| - 1]) + PartOf(part, effects[|effects| - 1])
  }

  lemma Picked(part: Part, effects: seq<Effect>, e: Effect)
    ensures Pick(part, effects + [e]) == Pick(part, effects) + PartOf(part, e)
  {
    assert (effects + [e])[..|effects|] == effects;
  }

  function Repeated(n: nat, k: nat): (r: seq<nat>)
    ensures |r| == k && forall i :: 0 <= i < k ==> r[i] == n
  {
    if k == 0 then [] else Repeated(n, k - 1) + [n]
  }

  /** The numbers 1 to k. */
  function Counting(k: nat): (r: seq<nat>)
    ensures |r| == k && forall i :: 0 <= i < k ==> r[i] == i + 1
  {
    if k == 0 then [] else Counting(k - 1) + [k]
  }

  /** Attempts are numbered 1 to k, each is recorded under its number, and k - 1 backoffs lie between them. */
  lemma {:induction false} RoundsAre(part: Part, recorder: bool, recorded: nat -> bool, backoff: nat, k: nat)
    ensures Pick(part, Rounds(recorder, recorded, backoff, k)) ==
      match part
      case Attempts => Counting(k)
      case Records => if recorder then Counting(k) else []
      case Sleeps => Repeated(backoff, if k == 0 then 0 else k - 1)
  {
    hide Pick, Rounds;
    if k == 0 {
      NothingPicked(part);
      NoRounds(recorder, recorded, backoff);
    } else {
      RoundsAre(part, recorder, recorded, backoff, k - 1);
      LastRound(part, recorder, recorded, backoff, k);
    }
  }

  lemma NoRounds(recorder: bool, recorded: nat -> bool, backoff: nat)
    ensures Rounds(recorder, recorded, backoff, 0) == []
  {
  }

  /** What the k-th round adds. */
  lemma LastRound(part: Part, recorder: bool, recorded: nat -> bool, backoff: nat, k: nat)
    requires k > 0
    ensures Pick(part, Rounds(recorder, recorded, backoff, k)) == Pick(part, Rounds(recorder, recorded, backoff, k - 1))
      + (if k == 1 then [] else PartOf(part, Sleep(backoff))) + PartOf(part, Deliver(k))
      + (if recorder then PartOf(part, Record(k, recorded(k))) else [])
  {
    hide Pick, PartOf;
    var before := Rounds(recorder, recorded, backoff, k - 1);
    var paused := if k == 1 then before else before + [Sleep(backoff)];
    RoundIs(recorder, recorded, backoff, k);
    hide Rounds;
    Picked(part, before, Sleep(backoff));
    Picked(part, paused, Deliver(k));
    Picked(part, paused + [Deliver(k)], Record(k, recorded(k)));
  }

  lemma RoundIs(recorder: bool, recorded: nat -> bool, backoff: nat, k: nat)
    requires k > 0
    ensures var before := Rounds(recorder, recorded, backoff, k - 1);
      var paused := if k == 1 then before else before + [Sleep(backoff)];
      Rounds(recorder, recorded, backoff, k) ==
        if recorder then paused + [Deliver(k)] + [Record(k, recorded(k))] else paused + [Deliver(k)]
  {
  }

  /** Where each effect of k attempts stands: delivered, recorded, and then a pause before the next. */
  lemma {:induction false} RoundsAt(recorder: bool, recorded: nat -> bool, backoff: nat, k: nat, i: nat)
    requires 1 <= i <= k
    ensures var r, n := Rounds(recorder, recorded, backoff, k), if recorder then 3 else 2;
      && |r| == n * k - 1 && r[n * (i - 1)] == Deliver(i)
      && (recorder ==> r[n * (i - 1) + 1] == Record(i, recorded(i)))
      && (i < k ==> r[n * i - 1] == Sleep(backoff))
  {
    if k == 1 {
      assert Rounds(recorder, recorded, backoff, 0) == [];
    } else {
      RoundsAt(recorder, recorded, backoff, k - 1, if i < k then i else k - 1);
    }
  }

  lemma NothingPicked(part: Part)
    ensures Pick(part, []) == []
  {
  }

  /** An HTTP hook is attempted again exactly after no answer or a status from 500 up. */
  lemma HttpAttempts(answers: nat -> HttpAnswer, limit: nat, k: nat)
    requires EndsWith((i: nat) => DeliverHttp(answers(i)), limit, k)
    ensures forall i :: 1 <= i < k ==> answers(i).NoResponse? || (answers(i).StatusCode? && answers(i).code >= 500)
    ensures k < limit ==> answers(k).BadRequest? || (answers(k).StatusCode? && answers(k).code < 500)
  {
    forall i | 1 <= i < k ensures answers(i).NoResponse? || (answers(i).StatusCode? && answers(i).code >= 500) {
      assert !Stops(((j: nat) => DeliverHttp(answers(j)))(i));
    }
  }

  /** A command hook is attempted again after every failure, timeouts included. */
  lemma CommandAttempts(answers: nat -> CommandAnswer, limit: nat, k: nat)
    requires EndsWith((i: nat) => DeliverCommand(answers(i)), limit, k)
    ensures forall i :: 1 <= i < k ==> answers(i).CommandError?
    ensures k < limit ==> answers(k).Exited?
  {
    forall i | 1 <= i < k ensures answers(i).CommandError? {
      assert !Stops(((j: nat) => DeliverCommand(answers(j)))(i));
    }
  }
}
