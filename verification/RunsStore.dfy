/** The job_runs table: one function per SQL statement, and the store that runs the statements. */
module RunsStore {
  import opened Domain

  type Table = map<RunId, Run>

  /** Rows are filed under their own id. */
  predicate Keyed(t: Table) {
    forall id <- t :: t[id].id == id
  }

  /** The order of the pending query: queued_at, then id. */
  predicate Before(a: Run, b: Run) {
    a.queuedAt < b.queuedAt || (a.queuedAt == b.queuedAt && a.id < b.id)
  }

  /** A row a loop may still claim: pending and without a runner. */
  predicate Claimable(t: Table, id: RunId) {
    id in t && t[id].status == Pending && t[id].runner == None
  }

  predicate HasUnfinished(t: Table, job: JobId) {
    exists id <- t :: t[id].jobId == job && t[id].status.Unfinished()
  }

  function NewRun(id: RunId, job: JobId, scheduledFor: Option<Second>, queuedAt: Second): Run {
    Run(id, job, if scheduledFor.Some? then Scheduled else Manual, Pending, scheduledFor, queuedAt,
        None, None, None, None, None)
  }

  function Inserted(t: Table, id: RunId, job: JobId, scheduledFor: Option<Second>, queuedAt: Second): Table {
    t[id := NewRun(id, job, scheduledFor, queuedAt)]
  }

  function Claimed(t: Table, id: RunId, runner: nat): Table {
    if Claimable(t, id) then t[id := t[id].(runner := Some(runner))] else t
  }

  function Started(t: Table, id: RunId, at: Second): Table {
    if id in t && t[id].status == Pending then t[id := t[id].(status := Running, startedAt := Some(at))] else t
  }

  /** MarkFinished has no condition on the status it overwrites. */
  function Finished(t: Table, id: RunId, o: Outcome): Table {
    if id in t then
      t[id := t[id].(status := o.status, finishedAt := Some(o.finishedAt), exitCode := o.exitCode,
                     errorMessage := o.message, runner := None)]
    else t
  }

  function CanceledRow(r: Run, at: Second): Run {
    r.(status := Canceled, finishedAt := Some(at), runner := None)
  }

  function PendingCanceled(t: Table, job: JobId, at: Second): Table {
    map id <- t :: if t[id].jobId == job && t[id].status == Pending then CanceledRow(t[id], at) else t[id]
  }

  /** ON DELETE CASCADE. */
  function JobRemoved(t: Table, job: JobId): Table {
    map id <- t | t[id].jobId != job :: t[id]
  }

  /** The answer of ListPending: the first `limit` claimable rows in query order. */
  predicate IsPage(t: Table, limit: nat, page: seq<Run>) {
    && |page| <= limit
    && (forall i :: 0 <= i < |page| ==> Claimable(t, page[i].id) && t[page[i].id] == page[i])
    && (forall i, j :: 0 <= i < j < |page| ==> Before(page[i], page[j]))
    && (forall id <- t :: Claimable(t, id) && t[id] !in page ==>
          |page| == limit && forall i :: 0 <= i < |page| ==> Before(page[i], t[id]))
  }

  /** The answer of ListUnfinishedByJob: the job's pending and running rows, in the same order. */
  predicate IsUnfinishedList(t: Table, job: JobId, rows: seq<Run>) {
    && (forall i :: 0 <= i < |rows| ==>
          rows[i].id in t && t[rows[i].id] == rows[i] && rows[i].jobId == job && rows[i].status.Unfinished())
    && (forall i, j :: 0 <= i < j < |rows| ==> Before(rows[i], rows[j]))
    && (forall id <- t :: t[id].jobId == job && t[id].status.Unfinished() ==> t[id] in rows)
  }

  /** The rows of a page, claimed. */
  function PageClaimed(t: Table, page: seq<Run>, runner: nat): Table {
    map id <- t :: if t[id] in page then t[id].(runner := Some(runner)) else t[id]
  }

  /** Claiming the rows of a page one by one claims the page. */
  lemma ClaimNext(t: Table, limit: nat, page: seq<Run>, i: nat, runner: nat)
    requires Keyed(t) && IsPage(t, limit, page) && i < |page|
    ensures var sofar := PageClaimed(t, page[..i], runner);
      Claimable(sofar, page[i].id) && Claimed(sofar, page[i].id, runner) == PageClaimed(t, page[..i + 1], runner)
  {
    assert page[..i + 1] == page[..i] + [page[i]];
    assert t[page[i].id] !in page[..i];
  }

  lemma NoneClaimed(t: Table, runner: nat)
    ensures PageClaimed(t, [], runner) == t
  {
  }
}
