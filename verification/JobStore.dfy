/**
 The executions table behind PostgresJobStore. Each method is one guarded statement at one
 clock reading, written branch by branch and proved equal to the update it stands for.
 */
module JobStore {
  import opened Domain
  import opened JobRows
  import opened Options

  type Table = map<JobId, Row>

  datatype Outcome = Ok | ErrInvalidState | ErrDuplicateKey

  /** The table after a statement addressed to one id: at most that row changes. */
  function Apply(rows: Table, id: JobId, u: Update, now: Time): Table {
    if id in rows then rows[id := Fire(u, rows[id], now)] else rows
  }

  /** One row is affected. */
  predicate Affects(rows: Table, id: JobId, u: Update, now: Time) {
    id in rows && Matches(u, rows[id], now)
  }

  /** The table after the multi-row update that releases every job whose lease has expired. */
  function ExpireAll(rows: Table, now: Time): Table {
    map id | id in rows :: Fire(ExpireLease, rows[id], now)
  }

  /** One ExpireLease statement per listed id, in that order. */
  function ExpireInOrder(rows: Table, ids: seq<JobId>, now: Time): Table {
    if ids == [] then rows else ExpireInOrder(Apply(rows, ids[0], ExpireLease, now), ids[1..], now)
  }

  /** The effect of ExpireInOrder on each row, whichever ids are listed and how often. */
  lemma {:induction false} ExpireInOrderPointwise(rows: Table, ids: seq<JobId>, now: Time)
    ensures ExpireInOrder(rows, ids, now).Keys == rows.Keys
    ensures forall id :: id in rows ==>
      ExpireInOrder(rows, ids, now)[id] == if id in ids then Fire(ExpireLease, rows[id], now) else rows[id]
  {
    if ids != [] {
      ExpireInOrderPointwise(Apply(rows, ids[0], ExpireLease, now), ids[1..], now);
    }
  }

  /** The multi-row expiry equals expiring the rows one at a time, in any order and even with repetitions. */
  lemma ExpireAllInAnyOrder(rows: Table, ids: seq<JobId>, now: Time)
    requires forall id :: id in rows ==> id in ids
    ensures ExpireInOrder(rows, ids, now) == ExpireAll(rows, now)
  {
    ExpireInOrderPointwise(rows, ids, now);
  }

  // ----- The dispatch query -----

  const DISPATCH_LIMIT: nat := 100

  predicate Dispatchable(row: Row, now: Time) {
    && row.status.Queued?
    && RetryDue(row, now)
    && (row.lastDispatchedAt.None? || row.lastDispatchedAt.value < now - DISPATCH_GAP)
  }

  function Eligible(rows: Table, now: Time): set<JobId> {
    set id | id in rows && Dispatchable(rows[id], now)
  }

  /** No id occurs twice. */
  predicate Distinct(ids: seq<JobId>) {
    forall i, k :: 0 <= i < k < |ids| ==> ids[i] != ids[k]
  }

  /** The ids the dispatch query may return: without ORDER BY, any DISPATCH_LIMIT of the eligible rows. */
  predicate Selection(rows: Table, now: Time, ids: seq<JobId>) {
    && Distinct(ids)
    && (forall id :: id in ids ==> id in Eligible(rows, now))
    && |ids| == if |Eligible(rows, now)| < DISPATCH_LIMIT then |Eligible(rows, now)| else DISPATCH_LIMIT
  }

  class PostgresJobStore {
    var rows: Table

    constructor ()
      ensures rows == map[]
    {
      rows := map[];
    }

    /** INSERT; the primary key refuses an id that exists, and the caller's status must be QUEUED. */
    method Create(id: JobId, inputs: seq<string>, status: Status, createdAt: Time,
            maxAttempts: int) returns (outcome: Outcome)
      modifies this
      ensures outcome == if !status.Queued? then ErrInvalidState else if id in old(rows) then ErrDuplicateKey else Ok
      ensures rows == if outcome.Ok? then old(rows)[id := NewRow(inputs, createdAt, maxAttempts)] else old(rows)
    {
      if !status.Queued? {
        return ErrInvalidState;
      }
      if id in rows {
        return ErrDuplicateKey;
      }
      rows := rows[id := NewRow(inputs, createdAt, maxAttempts)];
      outcome := Ok;
    }

    method Get(id: JobId) returns (row: Option<Row>)
      ensures row == if id in rows then Some(rows[id]) else None
    {
      if id !in rows {
        return None;
      }
      row := Some(rows[id]);
    }

    method Claim(id: JobId, worker: WorkerName, lease: Time, now: Time) returns (outcome: Outcome)
      modifies this
      ensures outcome == if Affects(old(rows), id, Update.Claim(worker, lease), now) then Ok else ErrInvalidState
      ensures rows == Apply(old(rows), id, Update.Claim(worker, lease), now)
    {
      if id !in rows || !rows[id].status.Queued? {
        return ErrInvalidState;
      }
      var row := rows[id];
      if row.nextRetryAt.Some? && now < row.nextRetryAt.value {
        return ErrInvalidState;
      }
      row := row.(status := Claimed, workerId := Some(worker), claimedAt := Some(now));
      row := row.(leaseExpiresAt := Some(now + lease), attemptCount := row.attemptCount + 1);
      rows := rows[id := row];
      outcome := Ok;
    }

    method MarkRunning(id: JobId, worker: WorkerName, now: Time) returns (outcome: Outcome)
      modifies this
      ensures outcome == if Affects(old(rows), id, Update.MarkRunning(worker), now) then Ok else ErrInvalidState
      ensures rows == Apply(old(rows), id, Update.MarkRunning(worker), now)
    {
      if id !in rows || !rows[id].status.Claimed? || rows[id].workerId != Some(worker) {
        return ErrInvalidState;
      }
      rows := rows[id := rows[id].(status := Running, startedAt := Some(now))];
      outcome := Ok;
    }

    method Complete(id: JobId, worker: WorkerName, results: seq<ExecutionResult>, now: Time) returns (outcome: Outcome)
      modifies this
      ensures outcome == if Affects(old(rows), id, Update.Complete(worker, results), now) then Ok else ErrInvalidState
      ensures rows == Apply(old(rows), id, Update.Complete(worker, results), now)
    {
      if id !in rows || !rows[id].status.Running? || rows[id].workerId != Some(worker) {
        return ErrInvalidState;
      }
      var row := rows[id].(status := Completed, results := Some(results), completedAt := Some(now));
      rows := rows[id := row.(workerId := None, leaseExpiresAt := None)];
      outcome := Ok;
    }

    method FailJob(id: JobId, worker: WorkerName, error: string, backoff: Time, now: Time) returns (outcome: Outcome)
      modifies this
      ensures outcome == if Affects(old(rows), id, Update.FailJob(worker, error, backoff), now) then Ok
          else ErrInvalidState
      ensures rows == Apply(old(rows), id, Update.FailJob(worker, error, backoff), now)
    {
      if id !in rows || rows[id].workerId != Some(worker) {
        return ErrInvalidState;
      }
      var row := rows[id];
      if !row.status.Claimed? && !row.status.Running? {
        return ErrInvalidState;
      }
      row := row.(workerId := None, leaseExpiresAt := None, lastError := Some(error));
      if row.attemptCount < row.maxAttempts {
        row := row.(status := Queued, nextRetryAt := Some(now + backoff), deadLetteredAt := None);
      } else {
        row := row.(status := DeadLettered, nextRetryAt := None, deadLetteredAt := Some(now));
      }
      rows := rows[id := row];
      outcome := Ok;
    }

    method RenewLease(id: JobId, worker: WorkerName, lease: Time, now: Time) returns (outcome: Outcome)
      modifies this
      ensures outcome == if Affects(old(rows), id, Update.RenewLease(worker, lease), now) then Ok else ErrInvalidState
      ensures rows == Apply(old(rows), id, Update.RenewLease(worker, lease), now)
    {
      if id !in rows || rows[id].workerId != Some(worker) || rows[id].status !in {Claimed, Running} {
        return ErrInvalidState;
      }
      rows := rows[id := rows[id].(leaseExpiresAt := Some(now + lease))];
      outcome := Ok;
    }
  }
}
