/**
  The SQLite database of an instance. Each method is one call of a store; `up` says whether the
  database carries the statement out, and a call that fails changes nothing.
 */
module Database {
  import opened Domain
  import Query
  import R = RunsStore
  import J = JobsStore

  function Rows<T>(t: map<nat, T>, ids: seq<nat>): (rows: seq<T>)
    requires forall i :: 0 <= i < |ids| ==> ids[i] in t
    ensures |rows| == |ids| && forall i :: 0 <= i < |ids| ==> rows[i] == t[ids[i]]
  {
    if ids == [] then [] else [t[ids[0]]] + Rows(t, ids[1..])
  }

  /** The three queries of the stores: which rows, sorted by which column. */
  function ClaimableColumn(t: R.Table): Query.Column {
    map id <- t | R.Claimable(t, id) :: t[id].queuedAt
  }

  function UnfinishedColumn(t: R.Table, job: JobId): Query.Column {
    map id <- t | t[id].jobId == job && t[id].status.Unfinished() :: t[id].queuedAt
  }

  function DueColumn(t: J.Table, now: Second): Query.Column {
    map id <- t | J.Due(t[id], now) :: t[id].nextRunAt.value
  }

  /** Where a listed id stands. */
  lemma Position(c: Query.Column, bound: nat, ids: seq<nat>, id: nat) returns (k: nat)
    requires Query.Lists(c, bound, ids) && id in c && id < bound
    ensures k < |ids| && ids[k] == id
    ensures forall i :: 0 <= i < k ==> Query.Before(c, ids[i], id)
  {
    k :| 0 <= k < |ids| && ids[k] == id;
  }

  lemma FirstIsPage(t: R.Table, bound: nat, limit: nat, ids: seq<nat>)
    requires R.Keyed(t) && (forall id <- t :: id < bound) && Query.Lists(ClaimableColumn(t), bound, ids)
    ensures R.IsPage(t, limit, Rows(t, if |ids| <= limit then ids else ids[..limit]))
  {
    var n := if |ids| <= limit then |ids| else limit;
    ListedAreClaimable(t, bound, ids);
    forall id <- t | R.Claimable(t, id) && forall i :: 0 <= i < n ==> ids[i] != id
      ensures n == limit && forall i :: 0 <= i < n ==> R.Before(t[ids[i]], t[id])
    {
      LeftOut(t, bound, ids, n, id);
    }
    hide R.IsPage, R.Claimable, R.Before, Query.Lists, R.Keyed;
    assert ids[..|ids|] == ids;
    RowsArePage(t, limit, ids[..n], Rows(t, ids[..n]));
  }

  lemma RowsArePage(t: R.Table, limit: nat, ids: seq<nat>, page: seq<Run>)
    requires |page| == |ids| <= limit
    requires forall i :: 0 <= i < |ids| ==> ids[i] in t && t[ids[i]].id == ids[i] && R.Claimable(t, ids[i])
    requires forall i :: 0 <= i < |ids| ==> page[i] == t[ids[i]]
    requires forall i, j :: 0 <= i < j < |ids| ==> R.Before(t[ids[i]], t[ids[j]])
    requires forall id <- t :: R.Claimable(t, id) && id !in ids ==>
      |ids| == limit && forall i :: 0 <= i < |ids| ==> R.Before(t[ids[i]], t[id])
    ensures R.IsPage(t, limit, page)
  {
    hide R.Claimable, R.Before;
    forall id <- ids ensures t[id] in page {
      var i :| 0 <= i < |ids| && ids[i] == id;
      assert page[i] == t[id];
    }
  }

  lemma ListedAreClaimable(t: R.Table, bound: nat, ids: seq<nat>)
    requires R.Keyed(t) && Query.Lists(ClaimableColumn(t), bound, ids)
    ensures forall i :: 0 <= i < |ids| ==> ids[i] in t && R.Claimable(t, ids[i]) && t[ids[i]].id == ids[i]
    ensures forall i, j :: 0 <= i < j < |ids| ==> R.Before(t[ids[i]], t[ids[j]])
  {
    forall i, j | 0 <= i < j < |ids| ensures R.Before(t[ids[i]], t[ids[j]]) {
      assert Query.Before(ClaimableColumn(t), ids[i], ids[j]);
    }
  }

  lemma LeftOut(t: R.Table, bound: nat, ids: seq<nat>, n: nat, id: nat)
    requires R.Keyed(t) && Query.Lists(ClaimableColumn(t), bound, ids) && n <= |ids|
    requires id in t && id < bound && R.Claimable(t, id) && forall i :: 0 <= i < n ==> ids[i] != id
    ensures n < |ids| && forall i :: 0 <= i < n ==> R.Before(t[ids[i]], t[id])
  {
    var c := ClaimableColumn(t);
    var k := Position(c, bound, ids, id);
    forall i | 0 <= i < n ensures R.Before(t[ids[i]], t[id]) {
      assert Query.Before(c, ids[i], id);
    }
  }

  lemma PageIs(t: R.Table, limit: nat, page: seq<Run>)
    requires R.Keyed(t) && R.IsPage(t, limit, page)
    ensures |page| <= limit && forall r <- page :: r.status == Pending && r.runner == None
    ensures forall i, j :: 0 <= i < j < |page| ==>
      page[i].queuedAt < page[j].queuedAt || (page[i].queuedAt == page[j].queuedAt && page[i].id < page[j].id)
    ensures |page| < limit ==> forall id <- t :: t[id].status == Pending && t[id].runner == None ==> t[id] in page
    ensures forall id <- t, r <- page :: t[id].status == Pending && t[id].runner == None && t[id] !in page ==>
      r.queuedAt < t[id].queuedAt || (r.queuedAt == t[id].queuedAt && r.id < id)
  {
  }

  lemma ListedAreUnfinished(t: R.Table, bound: nat, job: JobId, ids: seq<nat>)
    requires R.Keyed(t) && (forall id <- t :: id < bound) && Query.Lists(UnfinishedColumn(t, job), bound, ids)
    ensures R.IsUnfinishedList(t, job, Rows(t, ids)) && (ids == [] <==> !R.HasUnfinished(t, job))
  {
    var c := UnfinishedColumn(t, job);
    var rows := Rows(t, ids);
    forall i, j | 0 <= i < j < |rows| ensures R.Before(rows[i], rows[j]) {
      assert Query.Before(c, ids[i], ids[j]);
    }
    forall id <- t | t[id].jobId == job && t[id].status.Unfinished() ensures t[id] in rows {
      var k := Position(c, bound, ids, id);
      assert rows[k] == t[id];
    }
    if ids != [] { assert ids[0] in c; }
  }

  lemma ListedAreDue(t: J.Table, bound: nat, now: Second, ids: seq<nat>)
    requires J.Keyed(t) && (forall id <- t :: id < bound) && Query.Lists(DueColumn(t, now), bound, ids)
    ensures J.IsDueList(t, now, Rows(t, ids))
  {
    var c := DueColumn(t, now);
    var rows := Rows(t, ids);
    forall i, j | 0 <= i < j < |rows| ensures J.Due(rows[i], now) && J.Due(rows[j], now) && J.Before(rows[i], rows[j]) {
      assert Query.Before(c, ids[i], ids[j]);
    }
    forall id <- t | J.Due(t[id], now) ensures t[id] in rows {
      var k := Position(c, bound, ids, id);
      assert rows[k] == t[id];
    }
  }

  class Database {
    var jobs: J.Table
    var runs: R.Table
    var nextJob: JobId
    var nextRun: RunId

    predicate Valid()
      reads this
    {
      && R.Keyed(runs) && (forall id <- runs :: id < nextRun)
      && J.Keyed(jobs) && (forall id <- jobs :: id < nextJob)
    }

    constructor ()
      ensures Valid() && jobs == map[] && runs == map[] && nextJob == 1 && nextRun == 1
    {
      jobs, runs, nextJob, nextRun := map[], map[], 1, 1;
    }

    // ----- job_runs -----

    /** INSERT of a pending row, which the foreign key allows for an existing job only. */
    method Insert(job: JobId, scheduledFor: Option<Second>, queuedAt: Second, up: bool) returns (ok: bool)
      requires Valid()
      modifies this`runs, this`nextRun
      ensures Valid()
      ensures ok <==> up && job in jobs
      ensures ok ==>
        runs == R.Inserted(old(runs), old(nextRun), job, scheduledFor, queuedAt) && nextRun == old(nextRun) + 1
      ensures ok ==> runs == old(runs)[old(nextRun) := Run(old(nextRun), job,
        if scheduledFor == None then Manual
          else Scheduled, Pending, scheduledFor, queuedAt, None, None, None, None, None)]
      ensures !ok ==> runs == old(runs) && nextRun == old(nextRun)
    {
      if !up || job !in jobs { return false; }
      runs := runs[nextRun := R.NewRun(nextRun, job, scheduledFor, queuedAt)];
      nextRun := nextRun + 1;
      return true;
    }

    /** The first claimable rows; with a limit that is not positive the database is not asked. */
    method ListPending(limit: int, up: bool) returns (page: Option<seq<Run>>)
      requires Valid()
      ensures page.Some? <==> up || limit <= 0
      ensures page.Some? ==> R.IsPage(runs, if limit <= 0 then 0 else limit, page.value)
      ensures page.Some? ==> forall r <- page.value :: r.status == Pending && r.runner == None
      ensures page.Some? ==> forall i, j :: 0 <= i < j < |page.value| ==>
        page.value[i].queuedAt < page.value[j].queuedAt
        || (page.value[i].queuedAt == page.value[j].queuedAt && page.value[i].id < page.value[j].id)
      ensures page.Some? && limit > 0 && |page.value| < limit ==>
        forall id <- runs :: runs[id].status == Pending && runs[id].runner == None ==> runs[id] in page.value
      ensures page.Some? ==> forall id <- runs, r <- page.value ::
        runs[id].status == Pending && runs[id].runner == None && runs[id] !in page.value ==>
          r.queuedAt < runs[id].queuedAt || (r.queuedAt == runs[id].queuedAt && r.id < id)
    {
      if limit <= 0 { return Some([]); }
      if !up { return None; }
      var ids := Query.Sorted(ClaimableColumn(runs), nextRun);
      FirstIsPage(runs, nextRun, limit, ids);
      PageIs(runs, limit, Rows(runs, if |ids| <= limit then ids else ids[..limit]));
      hide R.IsPage;
      return Some(Rows(runs, if |ids| <= limit then ids else ids[..limit]));
    }

    method ListUnfinishedByJob(job: JobId, up: bool) returns (rows: Option<seq<Run>>)
      requires Valid()
      ensures rows.Some? <==> up
      ensures rows.Some? ==>
        R.IsUnfinishedList(runs, job, rows.value) && (rows.value == [] <==> !R.HasUnfinished(runs, job))
      ensures rows.Some? ==> forall id <- runs ::
        runs[id] in rows.value <==> runs[id].jobId == job && (runs[id].status == Pending || runs[id].status == Running)
    {
      if !up { return None; }
      var ids := Query.Sorted(UnfinishedColumn(runs, job), nextRun);
      ListedAreUnfinished(runs, nextRun, job, ids);
      return Some(Rows(runs, ids));
    }

    /** The compare-and-set that decides who runs a row. */
    method TryClaimPending(id: RunId, runner: nat, up: bool) returns (claimed: bool)
      requires Valid()
      modifies this`runs
      ensures Valid()
      ensures claimed <==> up && R.Claimable(old(runs), id)
      ensures runs == if up then R.Claimed(old(runs), id, runner) else old(runs)
      ensures claimed ==> old(runs)[id].status == Pending && old(runs)[id].runner == None
      ensures claimed ==> runs == old(runs)[id := old(runs)[id].(runner := Some(runner))]
    {
      if !up || id !in runs || runs[id].status != Pending || runs[id].runner != None { return false; }
      runs := runs[id := runs[id].(runner := Some(runner))];
      return true;
    }

    /** One transaction that claims the first rows of the query: all of them, or none if it fails on the way. */
    method ClaimPending(runner: nat, limit: int, failsAt: Option<nat>) returns (claimed: Option<seq<Run>>)
      requires Valid()
      modifies this`runs
      ensures Valid()
      ensures claimed.None? ==> runs == old(runs) && failsAt.Some?
      ensures claimed.Some? ==> exists page: seq<Run> ::
        && R.IsPage(old(runs), if limit <= 0 then 0 else limit, page)
        && runs == R.PageClaimed(old(runs), page, runner)
        && |claimed.value| == |page|
        && (forall i :: 0 <= i < |page| ==> claimed.value[i] == page[i].(runner := Some(runner)))
    {
      hide R.IsPage, R.PageClaimed;
      var listed := ListPending(limit, true);
      if listed.None? { return None; }
      var page := listed.value;
      var rows: seq<Run> := [];
      var before := runs;
      R.NoneClaimed(before, runner);
      for i := 0 to |page|
        invariant Valid() && runs == R.PageClaimed(before, page[..i], runner)
        invariant |rows| == i && forall k :: 0 <= k < i ==> rows[k] == page[k].(runner := Some(runner))
      {
        if failsAt == Some(i) {
          runs := before;
          return None;
        }
        R.ClaimNext(before, if limit <= 0 then 0 else limit, page, i, runner);
        var won := TryClaimPending(page[i].id, runner, true);
        if won { rows := rows + [page[i].(runner := Some(runner))]; }
      }
      if failsAt == Some(|page|) {
        runs := before;
        return None;
      }
      assert page[..|page|] == page;
      return Some(rows);
    }

    method MarkRunning(id: RunId, startedAt: Second, up: bool) returns (ok: bool)
      requires Valid()
      modifies this`runs
      ensures Valid()
      ensures ok <==> up && id in old(runs) && old(runs)[id].status == Pending
      ensures runs == if ok then R.Started(old(runs), id, startedAt) else old(runs)
      ensures ok ==> runs == old(runs)[id := old(runs)[id].(status := Running, startedAt := Some(startedAt))]
    {
      if !up || id !in runs || runs[id].status != Pending { return false; }
      runs := runs[id := runs[id].(status := Running, startedAt := Some(startedAt))];
      return true;
    }

    /** Any status is overwritten, but only by a terminal one. */
    method MarkFinished(id: RunId, o: Outcome, up: bool) returns (ok: bool)
      requires Valid()
      modifies this`runs
      ensures Valid()
      ensures ok <==> up && (o.status == Succeeded || o.status == Failed || o.status == Canceled) && id in old(runs)
      ensures runs == if ok then R.Finished(old(runs), id, o) else old(runs)
      ensures ok ==> runs == old(runs)[id := old(runs)[id].(status := o.status, finishedAt := Some(o.finishedAt),
        exitCode := o.exitCode, errorMessage := o.message, runner := None)]
    {
      if o.status == Pending || o.status == Running { return false; }
      if !up || id !in runs { return false; }
      runs := runs[id := runs[id].(status := o.status, finishedAt := Some(o.finishedAt), exitCode := o.exitCode,
                                   errorMessage := o.message, runner := None)];
      return true;
    }

    method CancelPendingByJob(job: JobId, canceledAt: Second, up: bool)
      requires Valid()
      modifies this`runs
      ensures Valid()
      ensures runs == if up then R.PendingCanceled(old(runs), job, canceledAt) else old(runs)
      ensures runs.Keys == old(runs).Keys
      ensures forall id <- runs ::
        if up && old(runs)[id].jobId == job && old(runs)[id].status == Pending
        then runs[id] == old(runs)[id].(status := Canceled, finishedAt := Some(canceledAt), runner := None)
        else runs[id] == old(runs)[id]
    {
      if up {
        runs := map id <- runs ::
          if runs[id].jobId == job && runs[id].status == Pending then R.CanceledRow(runs[id], canceledAt) else runs[id];
      }
    }

    // ----- jobs -----

    /** The due jobs, ordered by next_run_at and id. */
    method ListDue(now: Second, up: bool) returns (due: Option<seq<Job>>)
      requires Valid()
      ensures due.Some? <==> up
      ensures due.Some? ==> J.IsDueList(jobs, now, due.value)
      ensures due.Some? ==> forall id <- jobs ::
        jobs[id] in due.value <==> jobs[id].enabled && jobs[id].nextRunAt.Some? && jobs[id].nextRunAt.value <= now
      ensures due.Some? ==> forall j <- due.value :: j.nextRunAt.Some?
      ensures due.Some? ==> forall i, j :: 0 <= i < j < |due.value| ==>
        due.value[i].nextRunAt.value < due.value[j].nextRunAt.value
        || (due.value[i].nextRunAt == due.value[j].nextRunAt && due.value[i].id < due.value[j].id)
    {
      if !up { return None; }
      var ids := Query.Sorted(DueColumn(jobs, now), nextJob);
      ListedAreDue(jobs, nextJob, now, ids);
      return Some(Rows(jobs, ids));
    }

    method Create(row: Job, up: bool) returns (ok: bool)
      requires Valid() && row.id == nextJob
      modifies this`jobs, this`nextJob
      ensures Valid()
      ensures ok <==> up && !(row.onFinish.Some? && row.disableInherited)
      ensures jobs == if ok then old(jobs)[row.id := row] else old(jobs)
      ensures nextJob == if ok then old(nextJob) + 1 else old(nextJob)
    {
      if row.onFinish.Some? && row.disableInherited { return false; }
      if !up { return false; }
      jobs, nextJob := jobs[row.id := row], nextJob + 1;
      return true;
    }

    /** Writes the whole row, whatever changed in the table since it was read. */
    method Update(row: Job, up: bool) returns (ok: bool)
      requires Valid()
      modifies this`jobs
      ensures Valid()
      ensures ok <==> up && row.id in old(jobs) && !(row.onFinish.Some? && row.disableInherited)
      ensures jobs == if ok then J.Updated(old(jobs), row) else old(jobs)
      ensures ok ==> jobs == old(jobs)[row.id := row]
    {
      if row.onFinish.Some? && row.disableInherited { return false; }
      if !up || row.id !in jobs { return false; }
      jobs := jobs[row.id := row];
      return true;
    }

    method UpdateNextRun(id: JobId, next: Option<Second>, up: bool) returns (ok: bool)
      requires Valid()
      modifies this`jobs
      ensures Valid()
      ensures ok <==> up && id in old(jobs)
      ensures jobs == if ok then J.NextRunUpdated(old(jobs), id, next) else old(jobs)
      ensures ok ==> jobs == old(jobs)[id := old(jobs)[id].(nextRunAt := next)]
    {
      if !up || id !in jobs { return false; }
      jobs := jobs[id := jobs[id].(nextRunAt := next)];
      return true;
    }

    method UpdateLastRunSummary(id: JobId, at: Second, status: Status, up: bool) returns (ok: bool)
      requires Valid()
      modifies this`jobs
      ensures Valid()
      ensures ok <==> up && id in old(jobs)
      ensures jobs == if ok then J.SummaryUpdated(old(jobs), id, at, status) else old(jobs)
      ensures ok ==> jobs == old(jobs)[id := old(jobs)[id].(lastRunAt := Some(at), lastRunStatus := Some(status))]
    {
      if !up || id !in jobs { return false; }
      jobs := jobs[id := jobs[id].(lastRunAt := Some(at), lastRunStatus := Some(status))];
      return true;
    }

    /** The runs of the job go with it. */
    method Delete(job: JobId, up: bool) returns (ok: bool)
      requires Valid()
      modifies this`jobs, this`runs
      ensures Valid()
      ensures ok <==> up && job in old(jobs)
      ensures jobs == if ok then old(jobs) - {job} else old(jobs)
      ensures runs == if ok then R.JobRemoved(old(runs), job) else old(runs)
      ensures ok ==> forall id :: id in runs <==> id in old(runs) && old(runs)[id].jobId != job
      ensures forall id <- runs :: id in old(runs) && runs[id] == old(runs)[id]
    {
      if !up || job !in jobs { return false; }
      jobs := jobs - {job};
      runs := map id <- runs | runs[id].jobId != job :: runs[id];
      return true;
    }
  }
}
