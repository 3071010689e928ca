/** The recovery service: expiring leases in bulk, and dispatching waiting jobs at a limited rate. */
module RecoveryService {
  import opened JobRows
  import opened JobStore
  import opened Options
  import opened RedisQueue

  /** The table after the dispatch markers of the listed jobs are written. */
  function Dispatched(rows: Table, ids: seq<JobId>, now: Time): Table {
    map id | id in rows :: if id in ids then Fire(MarkDispatched, rows[id], now) else rows[id]
  }

  /** The same when the markers of some jobs cannot be written. */
  function DispatchedWhere(rows: Table, ids: seq<JobId>, writable: set<JobId>, now: Time): Table {
    map id | id in rows :: if id in ids && id in writable then Fire(MarkDispatched, rows[id], now) else rows[id]
  }

  lemma AllMarkersWritten(rows: Table, ids: seq<JobId>, writable: set<JobId>, now: Time)
    requires forall id :: id in ids ==> id in writable
    ensures DispatchedWhere(rows, ids, writable, now) == Dispatched(rows, ids, now)
  {
  }

  lemma DispatchedInSteps(rows: Table, ids: seq<JobId>, i: nat, writable: set<JobId>, now: Time)
    requires i < |ids|
    ensures DispatchedWhere(DispatchedWhere(rows, ids[..i], writable, now), [ids[i]], writable, now) ==
      DispatchedWhere(rows, ids[..i + 1], writable, now)
  {
    assert forall id :: id in ids[..i + 1] <==> id in ids[..i] || id == ids[i];
  }

  /** The stream after one "run" message per listed job. */
  function SendAll(st: Stream, ids: seq<JobId>, maxLen: int): Stream {
    if ids == [] then st else XAdd(SendAll(st, ids[..|ids| - 1], maxLen), maxLen, Some(ids[|ids| - 1]), Some("run"))
  }

  class Service {
    const store: PostgresJobStore
    const queue: Queue

    constructor (store: PostgresJobStore, queue: Queue)
      ensures this.store == store && this.queue == queue
    {
      this.store, this.queue := store, queue;
    }

    /** The bulk update visits the rows in an order of the database's choosing. */
    method RecoverAbandonedJobs(now: Time) returns (recovered: set<JobId>)
      modifies store
      ensures store.rows == ExpireAll(old(store.rows), now)
      ensures forall id :: id in recovered <==> Affects(old(store.rows), id, ExpireLease, now)
    {
      var todo := store.rows.Keys;
      recovered := {};
      while todo != {}
        invariant todo <= store.rows.Keys == old(store.rows).Keys
        invariant forall id :: id in store.rows ==>
          store.rows[id] == if id in todo then old(store.rows)[id] else ExpireAll(old(store.rows), now)[id]
        invariant forall id :: id in recovered <==> id !in todo && Affects(old(store.rows), id, ExpireLease, now)
      {
        var id :| id in todo;
        var row := store.rows[id];
        if (row.status.Claimed? || row.status.Running?) && row.leaseExpiresAt.Some? && row.leaseExpiresAt.value < now {
          row := row.(workerId := None, leaseExpiresAt := None, lastError := Some("worker lease expired"));
          if row.attemptCount < row.maxAttempts {
            row := row.(status := Queued, nextRetryAt := Some(now), deadLetteredAt := None);
          } else {
            row := row.(status := DeadLettered, nextRetryAt := None, deadLetteredAt := Some(now));
          }
          store.rows := store.rows[id := row];
          recovered := recovered + {id};
        }
        todo := todo - {id};
      }
    }

    /** The dispatch query; which rows it returns when more than its limit are eligible is left open. */
    method SelectDispatchable(now: Time) returns (ids: seq<JobId>)
      ensures Selection(store.rows, now, ids)
    {
      var rest := Eligible(store.rows, now);
      ids := [];
      while rest != {} && |ids| < DISPATCH_LIMIT
        invariant rest <= Eligible(store.rows, now) && |ids| + |rest| == |Eligible(store.rows, now)|
        invariant Distinct(ids) && |ids| <= DISPATCH_LIMIT
        invariant forall id :: id in ids ==> id in Eligible(store.rows, now) && id !in rest
        decreases rest
      {
        var id :| id in rest;
        ids, rest := ids + [id], rest - {id};
      }
    }

    /** One selected job: its message, and its marker if both the message and the marker can be written. */
    method DispatchOne(id: JobId, now: Time, writable: set<JobId>)
      modifies store, queue.server
      ensures store.rows == if queue.closed then old(store.rows)
          else DispatchedWhere(old(store.rows), [id], writable, now)
      ensures queue.server.st == if queue.closed then old(queue.server.st)
          else XAdd(old(queue.server.st), queue.maxLen, Some(id), Some("run"))
    {
      var ok := queue.Enqueue(id, "run");
      if ok && id in writable && id in store.rows {
        store.rows := store.rows[id := store.rows[id].(lastDispatchedAt := Some(now))];
      }
    }

    /**
     One call at one clock reading. With a closed queue every Enqueue fails and nothing is marked;
     a job whose marker cannot be written has its message all the same.
     */
    method DispatchDelayedJobs(now: Time, writable: set<JobId>) returns (ids: seq<JobId>)
      modifies store, queue.server
      ensures Selection(old(store.rows), now, ids)
      ensures store.rows == if queue.closed then old(store.rows)
          else DispatchedWhere(old(store.rows), ids, writable, now)
      ensures queue.server.st == if queue.closed then old(queue.server.st)
          else SendAll(old(queue.server.st), ids, queue.maxLen)
    {
      ids := SelectDispatchable(now);
      ghost var rows := store.rows;
      for i := 0 to |ids|
        invariant store.rows == if queue.closed then rows else DispatchedWhere(rows, ids[..i], writable, now)
        invariant queue.server.st == if queue.closed then old(queue.server.st)
            else SendAll(old(queue.server.st), ids[..i], queue.maxLen)
      {
        assert ids[..i + 1][..i] == ids[..i];
        DispatchedInSteps(rows, ids, i, writable, now);
        DispatchOne(ids[i], now, writable);
      }
      assert ids[..|ids|] == ids;
    }
  }
}
