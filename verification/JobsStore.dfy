/** The jobs table: one function per SQL statement. */
module JobsStore {
  import opened Domain

  type Table = map<JobId, Job>

  predicate Keyed(t: Table) {
    forall id <- t :: t[id].id == id
  }

  predicate Due(j: Job, now: Second) {
    j.enabled && j.nextRunAt.Some? && j.nextRunAt.value <= now
  }

  /** The order of the due query: next_run_at, then id. */
  predicate Before(a: Job, b: Job)
    requires a.nextRunAt.Some? && b.nextRunAt.Some?
  {
    a.nextRunAt.value < b.nextRunAt.value || (a.nextRunAt == b.nextRunAt && a.id < b.id)
  }

  /** The answer of ListDue: every due row, in query order. */
  predicate IsDueList(t: Table, now: Second, due: seq<Job>) {
    && (forall i :: 0 <= i < |due| ==> due[i].id in t && t[due[i].id] == due[i] && Due(due[i], now))
    && (forall i, j :: 0 <= i < j < |due| ==> Before(due[i], due[j]))
    && (forall id <- t :: Due(t[id], now) ==> t[id] in due)
  }

  /** Update writes every column of an existing row. */
  function Updated(t: Table, row: Job): Table {
    if row.id in t then t[row.id := row] else t
  }

  function NextRunUpdated(t: Table, id: JobId, next: Option<Second>): Table {
    if id in t then t[id := t[id].(nextRunAt := next)] else t
  }

  function SummaryUpdated(t: Table, id: JobId, at: Second, status: Status): Table {
    if id in t then t[id := t[id].(lastRunAt := Some(at), lastRunStatus := Some(status))] else t
  }
}
