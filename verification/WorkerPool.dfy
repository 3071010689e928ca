/**
 processRun as a program: between any two of its statements the rest of the system takes any
 number of steps. Every statement is one action of the protocol, so all that is proved about
 runs holds for it.
 */
module WorkerPool {
  import opened Domain
  import opened JobRows
  import opened JobStore
  import opened Options
  import opened Protocol
  import opened ProtocolSafety

  /** The worker whose processRun takes the action; the lease renewal goroutine is on its own. */
  function ActorOf(a: Action): Option<WorkerName> {
    if a.Deliver? || a.ClaimJob? || a.MarkJob? || a.FetchJob? || a.RunInput? || a.CompleteJob? || a.FailRun?
      || a.Panic? || a.Abandon?
    then Some(a.w) else None
  }

  /** The table after an action whose only statement is addressed to one job. */
  lemma StatementRows(s: State, a: Action, job: JobId, u: Update)
    requires !a.CreateJob? && UpdateFor(s, a, job) == Some(u) && forall j :: j != job ==> UpdateFor(s, a, j).None?
    ensures NextRows(s, a) == Apply(s.rows, job, u, s.now)
    ensures Hits(s, a, job) <==> Affects(s.rows, job, u, s.now)
  {
  }

  /** The store holds the table; s is the whole state of which it is a part. */
  class System {
    const store: PostgresJobStore
    var s: State
    ghost var states: seq<State>
    ghost var acts: seq<Action>

    ghost predicate Valid()
      reads this, store
    {
      IsRun(states, acts) && s == states[|acts|] && s.rows == store.rows
    }

    constructor (now: Time)
      ensures Valid() && acts == [] && fresh(store)
    {
      store := new PostgresJobStore();
      s := State(now, map[], map[], [], false, map[], map[], {}, map[]);
      new;
      states, acts := [s], [];
    }

    /** A step of the rest of the system, or one that has no statement. */
    method Act(a: Action)
      requires Valid() && Enabled(s, a)
      modifies this, store
      ensures Valid() && s == Next(old(s), a)
      ensures acts == old(acts) + [a] && states == old(states) + [s]
    {
      store.rows := NextRows(s, a);
      Record(a);
    }

    /** The rest of an action whose statement the store has just run. */
    method Record(a: Action)
      requires IsRun(states, acts) && s == states[|acts|] && Enabled(s, a) && store.rows == NextRows(s, a)
      modifies this
      ensures Valid() && s == Next(old(s), a)
      ensures acts == old(acts) + [a] && states == old(states) + [s]
    {
      s := Next(s, a);
      states, acts := states + [s], acts + [a];
    }

    /** One tick of a lease renewal goroutine. */
    method Renew(w: WorkerName, job: JobId)
      requires Valid()
      modifies this, store
      ensures Valid() && s == Next(old(s), Action.Renew(w, job))
      ensures acts == old(acts) + [Action.Renew(w, job)] && states == old(states) + [s]
    {
      StatementRows(s, Action.Renew(w, job), job, Update.RenewLease(w, LEASE_DURATION));
      var _ := store.RenewLease(job, w, LEASE_DURATION, s.now);
      Record(Action.Renew(w, job));
    }

    /** The other workers, the sweeps, the renewals and the clock take whatever steps of the schedule are enabled. */
    method Others(w: WorkerName, schedule: seq<Action>)
      requires Valid()
      modifies this, store
      ensures Valid() && At(s, w) == At(old(s), w)
      ensures old(acts) <= acts && old(states) <= states
    {
      for i := 0 to |schedule|
        invariant Valid() && At(s, w) == At(old(s), w)
        invariant old(acts) <= acts && old(states) <= states
      {
        if schedule[i].Renew? {
          Renew(schedule[i].w, schedule[i].job);
        } else if Enabled(s, schedule[i]) && ActorOf(schedule[i]) != Some(w) {
          Act(schedule[i]);
        }
      }
    }

    // ----- The statements of processRun, each after any steps of the others, as their caller sees them -----
    // A statement that fails is not run at all; one that is lost is run, but its caller sees an error.

    method Claim(w: WorkerName, job: JobId, schedule: seq<Action>, fails: bool, lost: bool) returns (ok: bool)
      requires Valid() && At(s, w) == Received(job)
      modifies this, store
      ensures Valid() && old(acts) <= acts && old(states) <= states
      ensures if ok then At(s, w).Holding? && At(s, w).job == job else At(s, w).Idle?
    {
      Others(w, schedule);
      if fails {
        Act(Abandon(w));
        return false;
      }
      StatementRows(s, ClaimJob(w, lost), job, Update.Claim(w, LEASE_DURATION));
      var outcome := store.Claim(job, w, LEASE_DURATION, s.now);
      Record(ClaimJob(w, lost));
      ok := outcome.Ok? && !lost;
    }

    method MarkRunning(w: WorkerName, job: JobId, schedule: seq<Action>, fails: bool, lost: bool) returns (ok: bool)
      requires Valid() && At(s, w).Holding? && At(s, w).job == job
      modifies this, store
      ensures Valid() && old(acts) <= acts && old(states) <= states
      ensures if ok then At(s, w).Marked? && At(s, w).job == job else At(s, w).Idle?
    {
      Others(w, schedule);
      if fails {
        Act(Abandon(w));
        return false;
      }
      StatementRows(s, MarkJob(w, lost), job, Update.MarkRunning(w));
      var outcome := store.MarkRunning(job, w, s.now);
      Record(MarkJob(w, lost));
      ok := outcome.Ok? && !lost;
    }

    method Fetch(w: WorkerName, job: JobId, schedule: seq<Action>, fails: bool) returns (ok: bool)
      requires Valid() && At(s, w).Marked? && At(s, w).job == job
      modifies this, store
      ensures Valid() && old(acts) <= acts && old(states) <= states
      ensures if ok then At(s, w).Executing? && At(s, w).job == job && At(s, w).results == [] else At(s, w).Idle?
    {
      Others(w, schedule);
      var row := store.Get(job);
      ok := !fails && row.Some?;
      if ok {
        Act(FetchJob(w));
      } else {
        Act(Abandon(w));
      }
    }

    method RunOne(w: WorkerName, job: JobId, result: ExecutionResult)
      requires Valid() && At(s, w).Executing? && At(s, w).job == job && |At(s, w).results| < |At(s, w).inputs|
      modifies this, store
      ensures Valid() && old(acts) <= acts && old(states) <= states
      ensures At(s, w) == At(old(s), w).(results := At(old(s), w).results + [result])
    {
      Act(RunInput(w, result));
    }

    method FetchAndRun(w: WorkerName, job: JobId) returns (ok: bool)
      requires Valid() && At(s, w).Marked? && At(s, w).job == job
      modifies this, store
      ensures Valid() && old(acts) <= acts && old(states) <= states
      ensures if ok then At(s, w).Executing? && At(s, w).job == job
          && |At(s, w).results| == |At(s, w).inputs| else At(s, w).Idle?
    {
      var schedule: seq<Action>, fails: bool := *, *;
      ok := Fetch(w, job, schedule, fails);
      if ok {
        ok := RunInputs(w, job);
      }
    }

    method Complete(w: WorkerName, job: JobId, schedule: seq<Action>, fails: bool, lost: bool) returns (ok: bool)
      requires Valid() && At(s, w).Executing? && At(s, w).job == job && |At(s, w).results| == |At(s, w).inputs|
      modifies this, store
      ensures Valid() && old(acts) <= acts && old(states) <= states
      ensures if ok then At(s, w).Finishing? && job in s.rows && s.rows[job].status.Completed? else At(s, w).Idle?
    {
      Others(w, schedule);
      if fails {
        Act(Abandon(w));
        return false;
      }
      var results := At(s, w).results;
      StatementRows(s, CompleteJob(w, lost), job, Update.Complete(w, results));
      var outcome := store.Complete(job, w, results, s.now);
      Record(CompleteJob(w, lost));
      ok := outcome.Ok? && !lost;
    }

    /** processRun ends without completing the job: it returns, fails the job or panics. */
    method Leave(w: WorkerName, a: Action)
      requires Valid() && Enabled(s, a) && (a.Abandon? || a.FailRun? || a.Panic?) && a.w == w
      modifies this, store
      ensures Valid() && old(acts) <= acts && old(states) <= states && At(s, w).Idle?
    {
      var job := At(s, w).job;
      if a.FailRun? {
        StatementRows(s, a, job, Update.FailJob(w, a.error, FAIL_BACKOFF));
        var _ := store.FailJob(job, w, a.error, FAIL_BACKOFF, s.now);
        Record(a);
      } else if a.Panic? {
        StatementRows(s, a, job, Update.FailJob(w, "Worker crashed during execution", 0));
        var _ := store.FailJob(job, w, "Worker crashed during execution", 0, s.now);
        Record(a);
      } else {
        Act(a);
      }
    }

    /** The results of all inputs in order, unless the run ends early. */
    method RunInputs(w: WorkerName, job: JobId) returns (ok: bool)
      requires Valid() && At(s, w).Executing? && At(s, w).job == job && At(s, w).results == []
      modifies this, store
      ensures Valid() && old(acts) <= acts && old(states) <= states
      ensures if ok then At(s, w).Executing? && At(s, w).job == job
          && |At(s, w).results| == |At(s, w).inputs| else At(s, w).Idle?
    {
      var inputs := At(s, w).inputs;
      for i := 0 to |inputs|
        invariant Valid() && old(acts) <= acts && old(states) <= states
        invariant At(s, w).Executing? && At(s, w).job == job && At(s, w).inputs == inputs && |At(s, w).results| == i
      {
        var schedule: seq<Action>, fails: bool, cancelled: bool, panics: bool := *, *, *, *;
        var result: ExecutionResult := *;
        Others(w, schedule);
        if panics {
          Leave(w, Panic(w));
          return false;
        }
        if fails {
          Leave(w, if cancelled then Abandon(w) else FailRun(w, "platform execution failed"));
          return false;
        }
        RunOne(w, job, result);
      }
      ok := true;
    }

    /** On ErrInvalidState, and no other error, the job is read to decide about the message. */
    method AckIfSettled(w: WorkerName, job: JobId, otherError: bool) returns (acked: bool)
      requires Valid() && At(s, w).Idle?
      modifies this, store
      ensures Valid() && At(s, w).Idle? && old(acts) <= acts && old(states) <= states
      ensures acked ==> job in s.rows && Terminal(s.rows[job])
    {
      var schedule: seq<Action> := *;
      Others(w, schedule);
      var row := store.Get(job);
      acked := !otherError && row.Some? && (row.value.status.Completed? || row.value.status.DeadLettered?);
    }

    method AckCompleted(w: WorkerName, job: JobId) returns (acked: bool)
      requires Valid() && At(s, w).Finishing? && job in s.rows && s.rows[job].status.Completed?
      modifies this, store
      ensures Valid() && At(s, w).Idle? && old(acts) <= acts && old(states) <= states
      ensures acked && job in s.rows && Terminal(s.rows[job])
    {
      ghost var settled := |acts|;
      var schedule: seq<Action> := *;
      Others(w, schedule);
      Leave(w, Abandon(w));
      acked := true;
      TerminalRowsAreFrozen(states, acts, settled, |acts|, job);
    }

    /**
     The message for job is handled; acked tells whether processRun acknowledges it.
     It does so only for a job that is settled for good.
     */
    method ProcessRun(w: WorkerName, job: JobId) returns (acked: bool)
      requires Valid() && At(s, w) == Received(job)
      modifies this, store
      ensures Valid() && At(s, w).Idle?
      ensures old(acts) <= acts && old(states) <= states
      ensures acked ==> job in s.rows && Terminal(s.rows[job])
    {
      var schedule: seq<Action>, fails: bool, lost: bool := *, *, *;
      var ok := Claim(w, job, schedule, fails, lost);
      if !ok {
        acked := AckIfSettled(w, job, fails || lost);
        return;
      }
      acked := false;
      schedule, fails, lost := *, *, *;
      ok := MarkRunning(w, job, schedule, fails, lost);
      if !ok {
        return;
      }
      ok := FetchAndRun(w, job);
      if !ok {
        return;
      }
      schedule, fails, lost := *, *, *;
      ok := Complete(w, job, schedule, fails, lost);
      if ok {
        acked := AckCompleted(w, job);
      }
    }
  }
}
