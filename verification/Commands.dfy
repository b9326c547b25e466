/** The job commands run against the database: read the row, change its fields, write it back. */
module Commands {
  import opened Domain
  import opened Storage
  import opened Schedule
  import opened Jobs
  import J = JobsStore
  import D = Database

  /** Every stored row is enabled exactly when it has a next run, and can be scheduled. */
  ghost predicate RowsOk(lib: Library, jobs: J.Table) {
    forall id <- jobs :: RowOk(lib, jobs[id])
  }

  lemma WriteKeepsRows(lib: Library, jobs: J.Table, row: Job)
    requires RowsOk(lib, jobs) && RowOk(lib, row)
    ensures RowsOk(lib, jobs[row.id := row])
  {
    hide RowOk;
  }

  method AddJob(lib: Library, db: D.Database, settings: Settings, now: Time, up: bool) returns (ok: bool)
    requires db.Valid() && RowsOk(lib, db.jobs)
    modifies db`jobs, db`nextJob
    ensures db.Valid() && RowsOk(lib, db.jobs)
    ensures ok <==> up && Added(lib, old(db.nextJob), settings, now).Done?
    ensures db.jobs == if ok then old(db.jobs)[old(db.nextJob) := Added(lib, old(db.nextJob), settings, now).value]
      else old(db.jobs)
  {
    hide RowOk, Parse, Next, LoadZone, TrimSpace;
    var row := Added(lib, db.nextJob, settings, now);
    AddedKeepsRow(lib, db.nextJob, settings, now);
    if row.Refused? { return false; }
    Acceptable(lib, row.value);
    ok := db.Create(row.value, up);
    WriteKeepsRows(lib, old(db.jobs), row.value);
  }

  /** The store's own check never rejects a row that is ok. */
  lemma Acceptable(lib: Library, row: Job)
    requires RowOk(lib, row)
    ensures !(row.onFinish.Some? && row.disableInherited)
  {
  }

  method UpdateJob(lib: Library, db: D.Database, id: JobId, f: Flags, now: Time, up: bool) returns (ok: bool)
    requires db.Valid() && RowsOk(lib, db.jobs)
    modifies db`jobs
    ensures db.Valid() && RowsOk(lib, db.jobs)
    ensures ok <==> id in old(db.jobs) && Update(lib, old(db.jobs)[id], f, now).Done?
                    && (up || Update(lib, old(db.jobs)[id], f, now).value.None?)
    ensures db.jobs ==
      if ok && Update(lib, old(db.jobs)[id], f, now).value.Some?
      then old(db.jobs)[id := Update(lib, old(db.jobs)[id], f, now).value.value] else old(db.jobs)
  {
    hide Update, Parse, Next, LoadZone, TrimSpace;
    if id !in db.jobs { return false; }
    var job := db.jobs[id];
    EditKeepsRow(lib, job, f, now);
    var answer := UpdateCommand(lib, job, f, now);
    if answer.Refused? { return false; }
    if answer.value.None? { return true; }
    UpdateKeepsId(lib, job, f, now);
    ok := db.Update(answer.value.value, up);
    WriteKeepsRows(lib, old(db.jobs), answer.value.value);
  }

  lemma UpdateKeepsId(lib: Library, job: Job, f: Flags, now: Time)
    ensures var r := Update(lib, job, f, now); r.Done? && r.value.Some? ==> r.value.value.id == job.id
  {
    hide Parse, NextRun, LoadZone, TrimSpace;
  }

  method PauseJob(lib: Library, db: D.Database, id: JobId, up: bool) returns (ok: bool)
    requires db.Valid() && RowsOk(lib, db.jobs)
    modifies db`jobs
    ensures db.Valid() && RowsOk(lib, db.jobs)
    ensures ok <==> id in old(db.jobs) && (up || !old(db.jobs)[id].enabled)
    ensures db.jobs ==
      if ok then old(db.jobs)[id := old(db.jobs)[id].(enabled := false, nextRunAt := None)] else old(db.jobs)
    ensures ok ==> Paused(old(db.jobs)[id]) == db.jobs[id]
  {
    hide Parse, LoadZone;
    if id !in db.jobs { return false; }
    var job := db.jobs[id];
    if !job.enabled { return true; }
    job := job.(enabled := false);
    job := job.(nextRunAt := None);
    ok := db.Update(job, up);
    WriteKeepsRows(lib, old(db.jobs), job);
  }

  method ResumeJob(lib: Library, db: D.Database, id: JobId, now: Time, up: bool) returns (ok: bool)
    requires db.Valid() && RowsOk(lib, db.jobs)
    modifies db`jobs
    ensures db.Valid() && RowsOk(lib, db.jobs)
    ensures ok <==> id in old(db.jobs) && (up || old(db.jobs)[id].enabled)
    ensures !ok || old(db.jobs)[id].enabled ==> db.jobs == old(db.jobs)
    ensures ok && !old(db.jobs)[id].enabled ==>
      var job := old(db.jobs)[id];
      var next := NextRun(lib, Spec(job.kind, job.expr), job.timezone, now);
      next.Ok? && db.jobs == old(db.jobs)[id := job.(enabled := true, nextRunAt := Some(Seconds(next.value)))]
    ensures ok ==> Resumed(lib, old(db.jobs)[id], now) == Ok(db.jobs[id])
  {
    hide Parse, LoadZone, Next;
    if id !in db.jobs { return false; }
    var job := db.jobs[id];
    if job.enabled { return true; }
    RowSteps(lib, job);
    var next := NextRun(lib, SpecOf(job), job.timezone, now);
    if next.Err? { return false; }
    job := job.(enabled := true);
    job := job.(nextRunAt := Some(Seconds(next.value)));
    ok := db.Update(job, up);
    WriteKeepsRows(lib, old(db.jobs), job);
  }
}
