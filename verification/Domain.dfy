/** The rows and enumerations shared by the stores, the daemon and the command line. */
module Domain {

  datatype Option<+T> = None | Some(value: T)

  /** An instant as the database keeps it: whole seconds, in UTC. */
  type Second = int

  type JobId = nat
  type RunId = nat

  datatype Status = Pending | Running | Succeeded | Failed | Canceled {
    predicate Terminal() { Succeeded? || Failed? || Canceled? }
    predicate Unfinished() { Pending? || Running? }
  }

  datatype Policy = Forbid | Queue | Replace

  datatype Trigger = Manual | Scheduled

  datatype Kind = Interval | Cron | Once

  /** A hook configuration; only the retry settings matter to the daemon's control flow. */
  datatype OnFinish = OnFinish(retryCount: nat, retryBackoffMs: nat)

  /** A row of the jobs table. */
  datatype Job = Job(
    id: JobId,
    name: string,
    command: string,
    kind: Kind,
    expr: string,
    timezone: string,
    enabled: bool,
    policy: Policy,
    onFinish: Option<OnFinish>,
    disableInherited: bool,
    nextRunAt: Option<Second>,
    lastRunAt: Option<Second>,
    lastRunStatus: Option<Status>
  )

  /** A row of the job_runs table. */
  datatype Run = Run(
    id: RunId,
    jobId: JobId,
    trigger: Trigger,
    status: Status,
    scheduledFor: Option<Second>,
    queuedAt: Second,
    startedAt: Option<Second>,
    finishedAt: Option<Second>,
    exitCode: Option<int>,
    errorMessage: Option<string>,
    runner: Option<nat>
  )

  /** How a run ended: what the executor returns and what MarkFinished stores. */
  datatype Outcome = Outcome(status: Status, finishedAt: Second, exitCode: Option<int>, message: Option<string>)
}
