/**
 One row of the executions table and the SQL updates that change it.
 Every update is split into its WHERE clause (Matches) and its SET clause (Assign);
 a statement runs atomically at one reading of the database clock.
 */
module JobRows {
  import opened Domain
  import opened Options

  /** Database time in microseconds, the resolution of TIMESTAMPTZ. */
  type Time = int

  type JobId = string
  type WorkerName = string

  const SECOND: Time := 1_000_000
  const LEASE_DURATION: Time := 30 * SECOND
  const FAIL_BACKOFF: Time := 2 * SECOND
  const DISPATCH_GAP: Time := 5 * SECOND

  datatype Status = Queued | Claimed | Running | Completed | DeadLettered

  datatype Row = Row(
    inputs: seq<string>,
    status: Status,
    results: Option<seq<ExecutionResult>>,
    createdAt: Time,
    claimedAt: Option<Time>,
    startedAt: Option<Time>,
    completedAt: Option<Time>,
    workerId: Option<WorkerName>,
    attemptCount: nat,
    maxAttempts: int,
    nextRetryAt: Option<Time>,
    leaseExpiresAt: Option<Time>,
    lastError: Option<string>,
    deadLetteredAt: Option<Time>,
    lastDispatchedAt: Option<Time>)

  /** The row that the INSERT of a new job leaves behind. */
  function NewRow(inputs: seq<string>, createdAt: Time, maxAttempts: int): Row {
    Row(inputs, Queued, None, createdAt, None, None, None, None, 0, maxAttempts, None, None, None, None, None)
  }

  datatype Update =
    | Claim(worker: WorkerName, lease: Time)
    | MarkRunning(worker: WorkerName)
    | Complete(worker: WorkerName, results: seq<ExecutionResult>)
    | FailJob(worker: WorkerName, error: string, backoff: Time)
    | RenewLease(worker: WorkerName, lease: Time)
    | ExpireLease
    | MarkDispatched

  /** CLAIMED or RUNNING. */
  predicate Held(row: Row) {
    row.status.Claimed? || row.status.Running?
  }

  predicate Terminal(row: Row) {
    row.status.Completed? || row.status.DeadLettered?
  }

  predicate RetryDue(row: Row, now: Time) {
    row.nextRetryAt.None? || row.nextRetryAt.value <= now
  }

  predicate LeaseExpired(row: Row, now: Time) {
    row.leaseExpiresAt.Some? && row.leaseExpiresAt.value < now
  }

  /** The WHERE clause of an update, apart from its job id. */
  predicate Matches(u: Update, row: Row, now: Time) {
    match u
    case Claim(_, _) => row.status.Queued? && RetryDue(row, now)
    case MarkRunning(w) => row.status.Claimed? && row.workerId == Some(w)
    case Complete(w, _) => row.status.Running? && row.workerId == Some(w)
    case FailJob(w, _, _) => Held(row) && row.workerId == Some(w)
    case RenewLease(w, _) => Held(row) && row.workerId == Some(w)
    case ExpireLease => Held(row) && LeaseExpired(row, now)
    case MarkDispatched => true
  }

  /** Take the job from its worker: retry at retryAt while attempts remain, else dead-letter it. */
  function Release(row: Row, error: string, retryAt: Time, now: Time): Row {
    var again := row.attemptCount < row.maxAttempts;
    row.(status := if again then Queued else DeadLettered,
         workerId := None,
         leaseExpiresAt := None,
         lastError := Some(error),
         nextRetryAt := if again then Some(retryAt) else None,
         deadLetteredAt := if again then None else Some(now))
  }

  /** The SET clause of an update. */
  function Assign(u: Update, row: Row, now: Time): Row {
    match u
    case Claim(w, lease) =>
      row.(status := Claimed, workerId := Some(w), claimedAt := Some(now),
           leaseExpiresAt := Some(now + lease), attemptCount := row.attemptCount + 1)
    case MarkRunning(_) => row.(status := Running, startedAt := Some(now))
    case Complete(_, results) =>
      row.(status := Completed, results := Some(results), completedAt := Some(now),
           workerId := None, leaseExpiresAt := None)
    case FailJob(_, error, backoff) => Release(row, error, now + backoff, now)
    case RenewLease(_, lease) => row.(leaseExpiresAt := Some(now + lease))
    case ExpireLease => Release(row, "worker lease expired", now, now)
    case MarkDispatched => row.(lastDispatchedAt := Some(now))
  }

  /** What the statement leaves in the row: the SET clause if the WHERE clause holds. */
  function Fire(u: Update, row: Row, now: Time): Row {
    if Matches(u, row, now) then Assign(u, row, now) else row
  }

  // ----- What every update keeps -----

  /** The number of attempts a job can get: the guard is tested after an attempt, so one is always made. */
  function AttemptBound(row: Row): nat {
    if row.maxAttempts < 1 then 1 else row.maxAttempts
  }

  /** The columns of a row agree with its status, and the attempt counter is within its bound. */
  ghost predicate RowOk(row: Row) {
    && (Held(row) <==> row.workerId.Some?)
    && (Held(row) <==> row.leaseExpiresAt.Some?)
    && (row.status.Completed? <==> row.completedAt.Some?)
    && (row.status.Completed? <==> row.results.Some?)
    && (row.status.DeadLettered? <==> row.deadLetteredAt.Some?)
    && (row.status.DeadLettered? ==> row.attemptCount >= row.maxAttempts)
    && (row.attemptCount > 0 <==> row.claimedAt.Some?)
    && (row.attemptCount == 0 ==> row.status.Queued?)
    && (row.status.Queued? && row.attemptCount > 0 ==> row.attemptCount < row.maxAttempts)
    && row.attemptCount <= AttemptBound(row)
  }

  lemma FireKeepsRowOk(u: Update, row: Row, now: Time)
    requires RowOk(row)
    ensures RowOk(Fire(u, row, now))
    ensures Fire(u, row, now).inputs == row.inputs && Fire(u, row, now).maxAttempts == row.maxAttempts
    ensures Terminal(row) ==> Fire(u, row, now).(lastDispatchedAt := row.lastDispatchedAt) == row
  {
  }

  /** The bound on the times a row can hold relative to the clock, under the lease and backoffs of the worker pool. */
  ghost predicate Timely(row: Row, now: Time) {
    && (row.nextRetryAt.Some? ==> row.nextRetryAt.value <= now + FAIL_BACKOFF)
    && (row.leaseExpiresAt.Some? ==> row.leaseExpiresAt.value <= now + LEASE_DURATION)
    && (row.lastDispatchedAt.Some? ==> row.lastDispatchedAt.value <= now)
  }

  /** An update with the lease and a backoff of the worker pool. */
  predicate PoolUpdate(u: Update) {
    && (u.Claim? || u.RenewLease? ==> u.lease == LEASE_DURATION)
    && (u.FailJob? ==> u.backoff <= FAIL_BACKOFF)
  }

  lemma FireKeepsTimely(u: Update, row: Row, now: Time)
    requires Timely(row, now) && PoolUpdate(u)
    ensures Timely(Fire(u, row, now), now)
  {
  }

  // ----- The lifecycle measure -----

  /** Falls at every change of status: three per attempt that is left, plus what is left of the current one. */
  function Potential(row: Row): int {
    3 * (AttemptBound(row) - row.attemptCount) + if row.status.Claimed? then 2 else if row.status.Running? then 1 else 0
  }

  lemma StatusChangeLowersPotential(u: Update, row: Row, now: Time)
    requires RowOk(row)
    ensures 0 <= Potential(Fire(u, row, now)) <= Potential(row) <= 3 * AttemptBound(row)
    ensures Fire(u, row, now).status != row.status ==> Potential(Fire(u, row, now)) < Potential(row)
  {
    FireKeepsRowOk(u, row, now);
  }
}
