/** One job's row and its scheduled occurrences, under the commands and the scheduler's due processing. */
module Jobs {
  import opened Domain
  import opened Storage
  import opened Schedule

  // ----- update -----

  /** The flags of `job update`; a present value or a true marks a flag that was given. */
  datatype Flags = Flags(
    newName: Option<string>,
    command: Option<string>,
    schedule: Option<string>,
    timezone: Option<string>,
    policy: Option<Policy>,
    onFinish: Option<Option<OnFinish>>,
    clearOnFinish: bool,
    disableInherited: bool,
    inheritOnFinish: bool,
    enable: bool,
    disable: bool
  )

  datatype Refusal = NothingToUpdate | Conflict | Blank | BadSchedule(error: Error)

  datatype Answer<+T> = Done(value: T) | Refused(refusal: Refusal)

  predicate BlankText(s: Option<string>) {
    s.Some? && TrimSpace(s.value) == ""
  }

  predicate Conflicting(f: Flags) {
    || (f.enable && f.disable)
    || (f.onFinish.Some? && f.clearOnFinish)
    || (f.disableInherited && f.inheritOnFinish)
    || (f.onFinish.Some? && f.disableInherited)
  }

  const NO_FLAGS := Flags(None, None, None, None, None, None, false, false, false, false, false)

  function SpecOf(row: Job): Spec { Spec(row.kind, row.expr) }

  /** computeNextRun: the next occurrence after an instant. */
  function NextRun(lib: Library, spec: Spec, timezone: string, now: Time): Result<Time> {
    var zone := LoadZone(lib, timezone);
    if zone.Err? then Err(zone.error) else Next(lib, spec, now, Some(zone.value))
  }

  /** The schedule the flags ask for, or the row's own. */
  function AskedSpec(lib: Library, row: Job, f: Flags): Result<Spec> {
    if f.schedule.Some? then Parse(lib, f.schedule.value) else Ok(SpecOf(row))
  }

  /** Every column an update may set, apart from next_run_at: the flag's value if given, the old one if not. */
  function Edited(row: Job, f: Flags, spec: Spec): Job {
    row.(
      name := if f.newName.Some? then f.newName.value else row.name,
      command := if f.command.Some? then f.command.value else row.command,
      kind := spec.kind,
      expr := spec.expr,
      timezone := if f.timezone.Some? then f.timezone.value else row.timezone,
      policy := if f.policy.Some? then f.policy.value else row.policy,
      onFinish := if f.onFinish.Some? then f.onFinish.value
                  else if f.clearOnFinish || f.disableInherited then None
                  else row.onFinish,
      disableInherited := f.disableInherited || (row.disableInherited && f.onFinish.None? && !f.inheritOnFinish),
      enabled := !f.disable && (f.enable || row.enabled))
  }

  /** The schedule has to be computed afresh. */
  predicate Rearms(row: Job, edited: Job) {
    edited.kind != row.kind || edited.expr != row.expr || edited.timezone != row.timezone
      || edited.enabled != row.enabled
  }

  /** The row `job update` writes; None when nothing changes. */
  function Update(lib: Library, row: Job, f: Flags, now: Time): Answer<Option<Job>> {
    if f == NO_FLAGS then Refused(NothingToUpdate)
    else if Conflicting(f) then Refused(Conflict)
    else if BlankText(f.newName) || BlankText(f.command) || BlankText(f.schedule) then Refused(Blank)
    else
      var spec := AskedSpec(lib, row, f);
      if spec.Err? then Refused(BadSchedule(spec.error))
      else if BlankText(f.timezone) then Refused(Blank)
      else if f.timezone.Some? && LoadZone(lib, f.timezone.value).Err? then Refused(BadSchedule(BadTimezone))
      else
        var edited := Edited(row, f, spec.value);
        if edited == row then Done(None)
        else if !Rearms(row, edited) then Done(Some(edited))
        else if !edited.enabled then Done(Some(edited.(nextRunAt := None)))
        else
          var next := NextRun(lib, SpecOf(edited), edited.timezone, now);
          if next.Err? then Refused(BadSchedule(next.error))
          else Done(Some(edited.(nextRunAt := Some(Seconds(next.value)))))
  }

  /** The fields set one by one, with `changed` and `recompute` accumulating: first the texts. */
  method ApplyTexts(job: Job, f: Flags) returns (updated: Job, changed: bool)
    ensures updated == Edited(job, NO_FLAGS.(newName := f.newName, command := f.command), SpecOf(job))
    ensures changed <==> updated != job
  {
    updated, changed := job, false;
    if f.newName.Some? {
      updated := updated.(name := f.newName.value);
      changed := changed || updated.name != job.name;
    }
    if f.command.Some? {
      updated := updated.(command := f.command.value);
      changed := changed || updated.command != job.command;
    }
  }

  /** Then the schedule, the timezone and the policy. */
  method ApplyTiming(job: Job, f: Flags, parsed: Spec, before: Job, changedBefore: bool)
      returns (updated: Job, changed: bool, recompute: bool)
    requires job.timezone != "" && f.timezone != Some("")
    requires f.schedule.None? ==> parsed == SpecOf(job)
    requires before == job.(name := before.name, command := before.command)
    ensures updated == Edited(before, NO_FLAGS.(timezone := f.timezone, policy := f.policy), parsed)
    ensures recompute <==> Rearms(job, updated)
    ensures changed <==> changedBefore || updated != before
  {
    updated, changed, recompute := before, changedBefore, false;
    if f.schedule.Some? {
      updated := updated.(kind := parsed.kind, expr := parsed.expr);
      var differs := updated.kind != job.kind || updated.expr != job.expr;
      recompute := recompute || differs;
      changed := changed || differs;
    }
    if f.timezone.Some? {
      updated := updated.(timezone := f.timezone.value);
      var differs := NormalizedTimezone(updated.timezone) != NormalizedTimezone(job.timezone);
      recompute := recompute || differs;
      changed := changed || differs;
    }
    if f.policy.Some? {
      updated := updated.(policy := f.policy.value);
      changed := changed || updated.policy != job.policy;
    }
  }

  /** Then the hook settings and the enabled flag. */
  method ApplySettings(job: Job, f: Flags, before: Job, changedBefore: bool, recomputeBefore: bool)
      returns (updated: Job, changed: bool, recompute: bool)
    requires !Conflicting(f) && before.onFinish == job.onFinish
    requires before.disableInherited == job.disableInherited && before.enabled == job.enabled
    ensures updated == Edited(before, NO_FLAGS.(onFinish := f.onFinish, clearOnFinish := f.clearOnFinish,
              disableInherited := f.disableInherited, inheritOnFinish := f.inheritOnFinish,
              enable := f.enable, disable := f.disable),
              SpecOf(before))
    ensures recompute <==> recomputeBefore || updated.enabled != job.enabled
    ensures changed <==> changedBefore || updated != before
  {
    updated, changed, recompute := before, changedBefore, recomputeBefore;
    if f.onFinish.Some? {
      updated := updated.(onFinish := f.onFinish.value, disableInherited := false);
      changed := changed || updated.onFinish != job.onFinish || updated.disableInherited != job.disableInherited;
    }
    if f.clearOnFinish {
      updated := updated.(onFinish := None);
      changed := changed || job.onFinish != None;
    }
    if f.disableInherited {
      updated := updated.(disableInherited := true);
      if updated.onFinish != None { updated := updated.(onFinish := None); }
      changed := changed || updated.disableInherited != job.disableInherited || job.onFinish != None;
    }
    if f.inheritOnFinish {
      updated := updated.(disableInherited := false);
      changed := changed || updated.disableInherited != job.disableInherited;
    }
    if f.enable {
      updated := updated.(enabled := true);
      recompute := recompute || updated.enabled != job.enabled;
      changed := changed || updated.enabled != job.enabled;
    }
    if f.disable {
      updated := updated.(enabled := false);
      recompute := recompute || updated.enabled != job.enabled;
      changed := changed || updated.enabled != job.enabled;
    }
  }

  method ApplyFlags(job: Job, f: Flags, parsed: Spec) returns (updated: Job, changed: bool, recompute: bool)
    requires job.timezone != "" && f.timezone != Some("") && !Conflicting(f)
    requires f.schedule.None? ==> parsed == SpecOf(job)
    ensures updated == Edited(job, f, parsed)
    ensures recompute <==> Rearms(job, updated)
    ensures changed <==> updated != job
  {
    updated, changed := ApplyTexts(job, f);
    updated, changed, recompute := ApplyTiming(job, f, parsed, updated, changed);
    updated, changed, recompute := ApplySettings(job, f, updated, changed, recompute);
  }

  /** The command: checks, then the fields, then the schedule when it has to be computed afresh. */
  method UpdateCommand(lib: Library, job: Job, f: Flags, now: Time) returns (r: Answer<Option<Job>>)
    requires job.timezone != ""
    ensures r == Update(lib, job, f, now)
  {
    hide TrimSpace, Parse, LoadZone, Edited, Next;
    if f == NO_FLAGS { return Refused(NothingToUpdate); }
    if f.enable && f.disable { return Refused(Conflict); }
    if f.onFinish.Some? && f.clearOnFinish { return Refused(Conflict); }
    if f.disableInherited && f.inheritOnFinish { return Refused(Conflict); }
    if f.onFinish.Some? && f.disableInherited { return Refused(Conflict); }

    var parsed := SpecOf(job);
    if BlankText(f.newName) { return Refused(Blank); }
    if BlankText(f.command) { return Refused(Blank); }
    if f.schedule.Some? {
      if BlankText(f.schedule) { return Refused(Blank); }
      var p := Parse(lib, f.schedule.value);
      if p.Err? { return Refused(BadSchedule(p.error)); }
      parsed := p.value;
    }
    if f.timezone.Some? {
      if BlankText(f.timezone) { return Refused(Blank); }
      if LoadZone(lib, f.timezone.value).Err? { return Refused(BadSchedule(BadTimezone)); }
    }

    EmptyIsBlank(f.timezone);
    var updated, changed, recompute := ApplyFlags(job, f, parsed);
    if recompute {
      if !updated.enabled {
        updated := updated.(nextRunAt := None);
      } else {
        var next := NextRun(lib, SpecOf(updated), updated.timezone, now);
        if next.Err? { return Refused(BadSchedule(next.error)); }
        updated := updated.(nextRunAt := Some(Seconds(next.value)));
      }
    }
    if !changed && !recompute { return Done(None); }
    return Done(Some(updated));
  }

  lemma EmptyIsBlank(s: Option<string>)
    ensures s == Some("") ==> BlankText(s)
  {
  }

  // ----- the other commands, and the scheduler -----

  /** `job pause`; an already disabled job is left alone. */
  function Paused(row: Job): Job {
    if row.enabled then row.(enabled := false, nextRunAt := None) else row
  }

  /** `job resume`; an already enabled job is left alone. */
  function Resumed(lib: Library, row: Job, now: Time): Result<Job> {
    if row.enabled then Ok(row)
    else
      var next := NextRun(lib, SpecOf(row), row.timezone, now);
      if next.Err? then Err(next.error)
      else Ok(row.(enabled := true, nextRunAt := Some(Seconds(next.value))))
  }

  /** The next run a command computes, for each form of stored expression: in the job's own zone, from now. */
  lemma CronNextRun(lib: Library, words: seq<string>, timezone: string, now: Time)
    requires |words| == 5 && AreWords(words) && lib.cron(CronFields(words)).Some? && ZoneKnown(lib, timezone)
    ensures NextRun(lib, Spec(Cron, "cron " + CronFields(words)), timezone, now) ==
      Ok(lib.cron(CronFields(words)).value(NormalizedTimezone(timezone), now))
  {
    hide LoadZone, Parse, Next, CronFields, Reparsed;
    CronTexts(lib, words);
    LoadedZone(lib, timezone);
  }

  lemma DurationNextRun(lib: Library, kind: Kind, word: string, timezone: string, now: Time)
    requires kind != Cron && IsWord(word) && lib.duration(word).Some? && lib.duration(word).value > 0
    requires ZoneKnown(lib, timezone)
    ensures NextRun(lib, Spec(kind, (if kind == Interval then "every " else "after ") + word), timezone, now) ==
      Ok(now + lib.duration(word).value)
  {
    hide LoadZone, Parse, Next, Reparsed;
    DurationText(lib, kind, word);
    LoadedZone(lib, timezone);
  }

  /** For a schedule the parser made, it fails exactly in an unknown zone. */
  lemma NextRunFailsIff(lib: Library, spec: Spec, timezone: string, now: Time)
    requires Parsed(lib, spec)
    ensures NextRun(lib, spec, timezone, now).Err? <==> !ZoneKnown(lib, timezone)
  {
    hide LoadZone, Parsed, Next;
    LoadedZone(lib, timezone);
    NextOfParsed(lib, spec, now, Some(NormalizedTimezone(timezone)));
  }

  /** What an update writes, column by column, apart from the schedule's. */
  lemma UpdatedColumns(lib: Library, row: Job, f: Flags, now: Time)
    requires Update(lib, row, f, now).Done? && Update(lib, row, f, now).value.Some?
    ensures var edited := Update(lib, row, f, now).value.value;
      && edited.id == row.id && edited.lastRunAt == row.lastRunAt && edited.lastRunStatus == row.lastRunStatus
      && edited.name == (match f.newName case Some(name) => name case None => row.name)
      && edited.command == (match f.command case Some(command) => command case None => row.command)
      && edited.policy == (match f.policy case Some(policy) => policy case None => row.policy)
      && (f.onFinish.Some? ==> edited.onFinish == f.onFinish.value && !edited.disableInherited)
      && (f.clearOnFinish || f.disableInherited ==> edited.onFinish == None)
      && (f.disableInherited ==> edited.disableInherited)
      && (f.inheritOnFinish ==> !edited.disableInherited)
      && (f.onFinish.None? && !f.clearOnFinish && !f.disableInherited ==> edited.onFinish == row.onFinish)
      && (f.onFinish.None? && !f.disableInherited && !f.inheritOnFinish ==>
        edited.disableInherited == row.disableInherited)
  {
    hide Parse, LoadZone, NextRun, TrimSpace;
  }

  /** And those of the schedule: the next run is computed afresh exactly when one of them changes. */
  lemma UpdatedSchedule(lib: Library, row: Job, f: Flags, now: Time)
    requires Update(lib, row, f, now).Done? && Update(lib, row, f, now).value.Some?
    ensures var edited := Update(lib, row, f, now).value.value;
      && (f.schedule.Some? ==> Parse(lib, f.schedule.value) == Ok(Spec(edited.kind, edited.expr)))
      && (f.schedule.None? ==> edited.kind == row.kind && edited.expr == row.expr)
      && edited.timezone == (match f.timezone case Some(timezone) => timezone case None => row.timezone)
      && (f.enable ==> edited.enabled) && (f.disable ==> !edited.enabled)
      && (!f.enable && !f.disable ==> edited.enabled == row.enabled)
    ensures var edited := Update(lib, row, f, now).value.value;
      if edited.kind == row.kind && edited.expr == row.expr && edited.timezone == row.timezone
        && edited.enabled == row.enabled
      then edited.nextRunAt == row.nextRunAt
      else if !edited.enabled then edited.nextRunAt == None
      else NextRun(lib, Spec(edited.kind, edited.expr), edited.timezone, now).Ok?
           && edited.nextRunAt ==
             Some(Seconds(NextRun(lib, Spec(edited.kind, edited.expr), edited.timezone, now).value))
  {
    hide Parse, LoadZone, NextRun, TrimSpace;
  }

  /** A flag with nothing but spaces. */
  predicate OnlySpaces(s: Option<string>) { s.Some? && IsBlank(s.value) }

  lemma BlankIsEmpty(s: Option<string>)
    ensures BlankText(s) <==> OnlySpaces(s)
  {
    if s.Some? { TrimSpaceIs(s.value); }
    hide TrimSpace, IsBlank;
  }

  /** When an update of a stored row is refused. */
  lemma RefusedIff(lib: Library, row: Job, f: Flags, now: Time)
    requires RowOk(lib, row)
    ensures Update(lib, row, f, now).Refused? <==>
      || f == Flags(None, None, None, None, None, None, false, false, false, false, false)
      || (f.enable && f.disable) || (f.onFinish.Some? && f.clearOnFinish)
      || (f.disableInherited && (f.inheritOnFinish || f.onFinish.Some?))
      || OnlySpaces(f.newName) || OnlySpaces(f.command) || OnlySpaces(f.schedule) || OnlySpaces(f.timezone)
      || (f.schedule.Some? && Parse(lib, f.schedule.value).Err?)
      || (f.timezone.Some? && !ZoneKnown(lib, f.timezone.value))
  {
    hide Parse, LoadZone, NextRun, TrimSpace, RowOk, Edited, Rearms, BlankText, ZoneKnown, OnlySpaces;
    BlankIsEmpty(f.newName);
    BlankIsEmpty(f.command);
    BlankIsEmpty(f.schedule);
    BlankIsEmpty(f.timezone);
    if f.timezone.Some? { LoadedZone(lib, f.timezone.value); }
    if AskedSpec(lib, row, f).Ok? { AskedHasNext(lib, row, f, now); }
  }

  lemma AskedHasNext(lib: Library, row: Job, f: Flags, now: Time)
    requires RowOk(lib, row) && AskedSpec(lib, row, f).Ok?
    ensures var edited := Edited(row, f, AskedSpec(lib, row, f).value);
      f.timezone.None? || ZoneKnown(lib, f.timezone.value) ==> NextRun(lib, SpecOf(edited), edited.timezone, now).Ok?
  {
    var spec := AskedSpec(lib, row, f).value;
    LoadedZone(lib, row.timezone);
    AskedIsParsed(lib, row, f);
    hide RowOk, Parse, LoadZone, NextRun;
    NextRunFailsIff(lib, spec, Edited(row, f, spec).timezone, now);
  }

  lemma AskedIsParsed(lib: Library, row: Job, f: Flags)
    requires RowOk(lib, row) && AskedSpec(lib, row, f).Ok?
    ensures Parsed(lib, AskedSpec(lib, row, f).value)
  {
  }

  /** The settings of `job add`. */
  datatype Settings = Settings(
    name: string,
    command: string,
    schedule: string,
    timezone: string,
    disabled: bool,
    policy: Policy,
    onFinish: Option<OnFinish>,
    disableInherited: bool
  )

  function Added(lib: Library, id: JobId, a: Settings, now: Time): Answer<Job> {
    if TrimSpace(a.name) == "" || TrimSpace(a.schedule) == "" || TrimSpace(a.command) == "" then Refused(Blank)
    else
      var spec := Parse(lib, a.schedule);
      var timezone := NormalizedTimezone(a.timezone);
      if spec.Err? then Refused(BadSchedule(spec.error))
      else if LoadZone(lib, timezone).Err? then Refused(BadSchedule(BadTimezone))
      else if a.onFinish.Some? && a.disableInherited then Refused(Conflict)
      else
        var row := Job(id, a.name, a.command, spec.value.kind, spec.value.expr, timezone, false, a.policy, a.onFinish,
                       a.disableInherited, None, None, None);
        if a.disabled then Done(row)
        else
          var enabled := Resumed(lib, row, now);
          if enabled.Err? then Refused(BadSchedule(enabled.error)) else Done(enabled.value)
  }

  /** When a job can be added, and what its row is then. */
  lemma AddedIs(lib: Library, id: JobId, a: Settings, now: Time)
    ensures Added(lib, id, a, now).Done? <==>
      && !IsBlank(a.name) && !IsBlank(a.schedule) && !IsBlank(a.command)
      && Parse(lib, a.schedule).Ok? && ZoneKnown(lib, a.timezone) && !(a.onFinish.Some? && a.disableInherited)
    ensures Added(lib, id, a, now).Done? ==>
      var row := Added(lib, id, a, now).value;
      && row.id == id && row.name == a.name && row.command == a.command && row.policy == a.policy
      && row.onFinish == a.onFinish && row.disableInherited == a.disableInherited
      && row.lastRunAt == None && row.lastRunStatus == None
      && Parse(lib, a.schedule) == Ok(Spec(row.kind, row.expr))
      && row.timezone == (if a.timezone == "" then "Local" else a.timezone)
      && (row.enabled <==> !a.disabled)
      && NextRun(lib, Spec(row.kind, row.expr), row.timezone, now).Ok?
      && row.nextRunAt ==
         if a.disabled then None else Some(Seconds(NextRun(lib, Spec(row.kind, row.expr), row.timezone, now).value))
  {
    TrimSpaceIs(a.name);
    TrimSpaceIs(a.schedule);
    TrimSpaceIs(a.command);
    LoadedZone(lib, NormalizedTimezone(a.timezone));
    if Parse(lib, a.schedule).Ok? {
      NextRunFailsIff(lib, Parse(lib, a.schedule).value, NormalizedTimezone(a.timezone), now);
    }
    hide Parse, LoadZone, NextRun, TrimSpace, IsBlank;
  }

  /** Due in ListDue's sense: the stored texts are compared, which compares seconds. */
  predicate DueAt(row: Job, now: Time) {
    row.enabled && row.nextRunAt.Some? && row.nextRunAt.value <= Seconds(now)
  }

  /** What every stored row satisfies. */
  ghost predicate RowOk(lib: Library, row: Job) {
    && (row.enabled <==> row.nextRunAt.Some?)
    && !(row.onFinish.Some? && row.disableInherited)
    && row.timezone != "" && LoadZone(lib, row.timezone).Ok?
    && Parsed(lib, SpecOf(row))
  }

  /** The step the row's schedule takes. */
  function RowStep(lib: Library, row: Job): Time -> Time
    requires LoadZone(lib, row.timezone).Ok?
  {
    StoredStep(lib, SpecOf(row), LoadZone(lib, row.timezone).value)
  }

  lemma RowSteps(lib: Library, row: Job)
    requires RowOk(lib, row)
    ensures Reparsed(lib, SpecOf(row)) == Ok(SpecOf(row))
    ensures forall now :: NextRun(lib, SpecOf(row), row.timezone, now) == Ok(RowStep(lib, row)(now))
    ensures row.kind != Cron ==> forall t :: RowStep(lib, row)(t) == t + DurationOf(lib, SpecOf(row))
  {
    hide Parse, NormalWords, Next, DurationOf, CronOf, StoredStep;
    ParsedShape(lib, SpecOf(row));
    StoredSteps(lib, SpecOf(row), LoadZone(lib, row.timezone).value);
  }

  /** A job with its history: `scheduled` lists the scheduled_for of its scheduled rows, in order. */
  datatype Account = Account(row: Job, clock: Time, scheduled: seq<Second>)

  datatype Event =
    | Edit(flags: Flags)
    | Pause
    | Resume
    | Process(unfinished: bool)      // the scheduler, with what the forbid check would find
    | Pass(elapsed: nat)             // the clock moves on

  /** The catch-up of a processed row ends; a once job has none. */
  ghost predicate Completes(lib: Library, a: Account, e: Event)
    requires RowOk(lib, a.row)
  {
    e.Process? && DueAt(a.row, a.clock) && a.row.kind != Once ==>
      Ends(RowStep(lib, a.row), Instant(a.row.nextRunAt.value), a.clock)
  }

  /** The scheduler processes the due job: the policy decides about the row, then the schedule advances. */
  ghost function Processed(lib: Library, a: Account, unfinished: bool): Account
    requires RowOk(lib, a.row) && Completes(lib, a, Process(unfinished))
  {
    if !DueAt(a.row, a.clock) then a
    else
      var skip := a.row.policy == Forbid && unfinished;
      var due := a.row.nextRunAt.value;
      a.(row := if a.row.kind == Once then a.row.(enabled := false, nextRunAt := None)
                else a.row.(nextRunAt := Some(StoredNext(RowStep(lib, a.row), due, a.clock))),
         scheduled := if skip then a.scheduled else a.scheduled + [due])
  }

  /** Each command, and each processing of the due job, as one step. */
  ghost function After(lib: Library, a: Account, e: Event): (b: Account)
    requires RowOk(lib, a.row) && Completes(lib, a, e)
    ensures RowOk(lib, b.row)
  {
    match e
    case Edit(f) =>
      EditKeepsRow(lib, a.row, f, a.clock);
      var r := Update(lib, a.row, f, a.clock);
      if r.Done? && r.value.Some? then a.(row := r.value.value) else a
    case Pause => a.(row := Paused(a.row))
    case Resume =>
      var r := Resumed(lib, a.row, a.clock);
      if r.Ok? then a.(row := r.value) else a
    case Process(unfinished) => Processed(lib, a, unfinished)
    case Pass(elapsed) => a.(clock := a.clock + elapsed)
  }

  /** Each of the events completes in its turn. */
  ghost predicate AllComplete(lib: Library, a: Account, es: seq<Event>)
    requires RowOk(lib, a.row)
    decreases |es|
  {
    es != [] ==> Completes(lib, a, es[0]) && AllComplete(lib, After(lib, a, es[0]), es[1..])
  }

  /** The account of a job after any commands and processings, in any order. */
  ghost function History(lib: Library, a: Account, es: seq<Event>): (b: Account)
    requires RowOk(lib, a.row) && AllComplete(lib, a, es)
    ensures RowOk(lib, b.row)
    decreases |es|
  {
    if es == [] then a else History(lib, After(lib, a, es[0]), es[1..])
  }

  /** The store's validation has nothing to object to in a row an update built. */
  lemma EditKeepsRow(lib: Library, row: Job, f: Flags, now: Time)
    requires RowOk(lib, row)
    ensures var r := Update(lib, row, f, now); r.Done? && r.value.Some? ==> RowOk(lib, r.value.value)
  {
    hide Parse, Next, LoadZone;
    EmptyIsBlank(f.timezone);
  }

  lemma AddedKeepsRow(lib: Library, id: JobId, settings: Settings, now: Time)
    ensures var r := Added(lib, id, settings, now); r.Done? ==> RowOk(lib, r.value)
  {
    hide Parse, Next, TrimSpace;
  }

  // ----- occurrences -----

  /** An interval or once job waits at least a second, and a cron expression has a later occurrence, a whole second. */
  ghost predicate Spaced(lib: Library, row: Job)
    requires RowOk(lib, row)
  {
    && (row.kind != Cron ==> DurationOf(lib, SpecOf(row)) >= NANOS)
    && Regular(lib, SpecOf(row), LoadZone(lib, row.timezone).value)
  }

  ghost predicate AlwaysSpaced(lib: Library, a: Account, es: seq<Event>)
    requires RowOk(lib, a.row) && AllComplete(lib, a, es)
    decreases |es|
  {
    Spaced(lib, a.row) && (es != [] ==> AlwaysSpaced(lib, After(lib, a, es[0]), es[1..]))
  }

  /** The occurrences enqueued increase, have passed, and lie below the next one. */
  ghost predicate Increasing(a: Account) {
    && (forall i, j :: 0 <= i < j < |a.scheduled| ==> a.scheduled[i] < a.scheduled[j])
    && (forall i :: 0 <= i < |a.scheduled| ==>
          a.scheduled[i] <= Seconds(a.clock) && (a.row.nextRunAt.Some? ==> a.scheduled[i] < a.row.nextRunAt.value))
  }

  /** A next run computed by a command lies in a later second. */
  lemma ArmedLater(lib: Library, row: Job, now: Time)
    requires RowOk(lib, row) && Spaced(lib, row)
    ensures NextRun(lib, SpecOf(row), row.timezone, now).Ok?
    ensures Seconds(now) < Seconds(NextRun(lib, SpecOf(row), row.timezone, now).value)
  {
    hide Parse, Parsed, LoadZone, DurationOf, Next, NextRun, StoredStep;
    RowSteps(lib, row);
    if row.kind == Cron {
      assert now < RowStep(lib, row)(now) && RowStep(lib, row)(now) % NANOS == 0;
    }
  }

  lemma UpdateArms(lib: Library, row: Job, f: Flags, now: Time)
    requires RowOk(lib, row)
    requires var r := Update(lib, row, f, now);
      r.Done? && r.value.Some? && r.value.value.nextRunAt != row.nextRunAt && r.value.value.enabled
    ensures var row' := Update(lib, row, f, now).value.value;
      var next := NextRun(lib, SpecOf(row'), row'.timezone, now);
      next.Ok? && row'.nextRunAt == Some(Seconds(next.value))
  {
    hide Parse, LoadZone, Next, NextRun;
  }

  /** Processing a spaced job ends, and moves its next run to a later second. */
  lemma AdvancedLater(lib: Library, row: Job, now: Time)
    requires RowOk(lib, row) && Spaced(lib, row) && DueAt(row, now)
    ensures Ends(RowStep(lib, row), Instant(row.nextRunAt.value), now)
    ensures row.nextRunAt.value < StoredNext(RowStep(lib, row), row.nextRunAt.value, now)
  {
    hide Parse, Parsed, LoadZone, DurationOf, Next, StoredStep, Ends;
    RowSteps(lib, row);
    if row.kind == Cron {
      CronNotDueAgain(RowStep(lib, row), row.nextRunAt.value, now);
    } else {
      IntervalNextIs(RowStep(lib, row), DurationOf(lib, SpecOf(row)), row.nextRunAt.value, now);
      StrictlyIncreasingIff(DurationOf(lib, SpecOf(row)));
    }
  }

  lemma StepKeepsIncreasing(lib: Library, a: Account, e: Event)
    requires RowOk(lib, a.row) && Completes(lib, a, e)
    requires Spaced(lib, a.row) && Spaced(lib, After(lib, a, e).row)
    requires Increasing(a)
    ensures Increasing(After(lib, a, e))
  {
    hide Parse, Parsed, LoadZone, DurationOf, Next, NextRun, Edited, Rearms, RowStep, Regular, StoredNext, Ends;
    var b := After(lib, a, e);
    match e
    case Edit(f) =>
      if b.row.nextRunAt != a.row.nextRunAt && b.row.enabled {
        UpdateArms(lib, a.row, f, a.clock);
        ArmedLater(lib, b.row, a.clock);
      }
    case Pause =>
    case Resume => if !a.row.enabled && b.row.enabled { ArmedLater(lib, b.row, a.clock); }
    case Process(unfinished) => if DueAt(a.row, a.clock) { AdvancedLater(lib, a.row, a.clock); }
    case Pass(elapsed) =>
  }

  /**
    Over the whole life of a job its scheduled rows are strictly increasing, so no occurrence is
    enqueued twice, and all lie below its next run.
   */
  lemma {:induction false} OccurrencesIncrease(lib: Library, a: Account, es: seq<Event>)
    requires RowOk(lib, a.row) && AllComplete(lib, a, es) && AlwaysSpaced(lib, a, es) && Increasing(a)
    ensures Increasing(History(lib, a, es))
    decreases |es|
  {
    if es == [] {
    } else {
      StepKeepsIncreasing(lib, a, es[0]);
      OccurrencesIncrease(lib, After(lib, a, es[0]), es[1..]);
    }
  }

  // ----- once jobs -----

  /** No step of es arms the job: none leaves it enabled with a next run computed afresh by a command. */
  ghost predicate NeverArmed(lib: Library, a: Account, es: seq<Event>)
    requires RowOk(lib, a.row) && AllComplete(lib, a, es)
    decreases |es|
  {
    es != [] ==>
      var b := After(lib, a, es[0]);
      (b.row.enabled ==> !Rearms(a.row, b.row)) && NeverArmed(lib, b, es[1..])
  }

  /**
    Until it is armed again, an enabled once job yields one scheduled row at most, for the next run it
    was armed with; disabled, it yields none and stays disabled.
   */
  lemma {:induction false} OncePerArming(lib: Library, a: Account, es: seq<Event>)
    requires RowOk(lib, a.row) && AllComplete(lib, a, es) && NeverArmed(lib, a, es)
    requires a.row.enabled ==> a.row.kind == Once
    ensures var b := History(lib, a, es);
      && (!a.row.enabled ==> !b.row.enabled && b.scheduled == a.scheduled)
      && (a.row.enabled ==> b.scheduled == a.scheduled || b.scheduled == a.scheduled + [a.row.nextRunAt.value])
      && (b.row.enabled ==> b.row.kind == Once && b.row.nextRunAt == a.row.nextRunAt && b.scheduled == a.scheduled)
    decreases |es|
  {
    hide Parse, Parsed, LoadZone, Next, NextRun, Resumed, Edited, RowStep, Ends;
    if es == [] {
    } else {
      KeepsArming(lib, a, es[0]);
      hide Update, Rearms;
      OncePerArming(lib, After(lib, a, es[0]), es[1..]);
    }
  }

  /** One step that does not arm a job that is disabled or of kind once. */
  lemma KeepsArming(lib: Library, a: Account, e: Event)
    requires RowOk(lib, a.row) && Completes(lib, a, e) && (a.row.enabled ==> a.row.kind == Once)
    requires var b := After(lib, a, e); b.row.enabled ==> !Rearms(a.row, b.row)
    ensures var b := After(lib, a, e);
      && (b.row.enabled ==>
        a.row.enabled && b.row.kind == Once && b.row.nextRunAt == a.row.nextRunAt && b.scheduled == a.scheduled)
      && (!a.row.enabled ==> b.scheduled == a.scheduled)
      && (a.row.enabled ==> b.scheduled == a.scheduled || b.scheduled == a.scheduled + [a.row.nextRunAt.value])
  {
    hide Parse, Parsed, LoadZone, Next, NextRun, RowStep, Ends;
  }

  /**
    Processed while due, a once job has had its run: whatever follows, until it is armed again, its
    scheduled rows are those it had and the one for its due time, or without that one if forbid skipped it.
   */
  lemma ProcessedOnce(lib: Library, a: Account, unfinished: bool, es: seq<Event>)
    requires RowOk(lib, a.row) && a.row.kind == Once && DueAt(a.row, a.clock)
    requires AllComplete(lib, After(lib, a, Process(unfinished)), es)
      && NeverArmed(lib, After(lib, a, Process(unfinished)), es)
    ensures var b := History(lib, After(lib, a, Process(unfinished)), es);
      && !b.row.enabled
      && b.scheduled == if a.row.policy == Forbid && unfinished then a.scheduled
        else a.scheduled + [a.row.nextRunAt.value]
  {
    hide Parse, Parsed, LoadZone, NeverArmed, AllComplete, History;
    OncePerArming(lib, After(lib, a, Process(unfinished)), es);
  }
}
