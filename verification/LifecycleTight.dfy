/** The bound of three status changes per attempt is reached, for every max_attempts. */
module LifecycleTight {
  import opened JobRows
  import opened Options
  import opened Protocol
  import opened ProtocolSafety

  lemma {:induction false} StatusChangesOfPrefix(states: seq<State>, more: seq<State>, j: JobId, n: nat)
    requires n < |states|
    ensures StatusChanges(states + more, j, n) == StatusChanges(states, j, n)
  {
    if n > 0 {
      StatusChangesOfPrefix(states, more, j, n - 1);
    }
  }

  /** A run goes on with any enabled action. */
  lemma Extend(states: seq<State>, acts: seq<Action>, a: Action, j: JobId) returns (states': seq<State>,
          acts': seq<Action>)
    requires IsRun(states, acts) && Enabled(states[|acts|], a)
    ensures IsRun(states', acts') && states'[|acts'|] == Next(states[|acts|], a)
    ensures StatusChanges(states', j, |acts'|) ==
      StatusChanges(states, j, |acts|) + if StatusChanged(states[|acts|], Next(states[|acts|], a), j) then 1 else 0
  {
    var t := Next(states[|acts|], a);
    states', acts' := states + [t], acts + [a];
    StatusChangesOfPrefix(states, [t], j, |acts|);
  }

  /** Where worker w and job j stand: the row has this status and attempt, and w may take its next step on it. */
  ghost predicate Stage(s: State, w: WorkerName, j: JobId, l: Local, status: Status, attempts: nat, maxAttempts: int) {
    && At(s, w) == l && j in s.rows && s.rows[j].status == status
    && s.rows[j].attemptCount == attempts && s.rows[j].maxAttempts == maxAttempts
    && (Held(s.rows[j]) ==> s.rows[j].workerId == Some(w))
    && (status.Queued? ==> RetryDue(s.rows[j], s.now))
  }

  ghost predicate Claimable(s: State, w: WorkerName, j: JobId, attempts: nat, maxAttempts: int) {
    Stage(s, w, j, Idle, Queued, attempts, maxAttempts)
  }

  lemma DeliverStage(s: State, w: WorkerName, j: JobId, n: nat, m: int)
    requires Stage(s, w, j, Idle, Queued, n, m)
    ensures Enabled(s, Deliver(w, j)) && Stage(Next(s, Deliver(w, j)), w, j, Received(j), Queued, n, m)
  {
  }

  lemma ClaimStage(s: State, w: WorkerName, j: JobId, n: nat, m: int)
    requires Stage(s, w, j, Received(j), Queued, n, m)
    ensures Enabled(s, ClaimJob(w, false))
    ensures Stage(Next(s, ClaimJob(w, false)), w, j, Holding(j, n + 1), Claimed, n + 1, m)
  {
    assert Hits(s, ClaimJob(w, false), j);
  }

  lemma MarkStage(s: State, w: WorkerName, j: JobId, n: nat, m: int)
    requires Stage(s, w, j, Holding(j, n), Claimed, n, m)
    ensures Enabled(s, MarkJob(w, false)) && Stage(Next(s, MarkJob(w, false)), w, j, Marked(j, n), Running, n, m)
  {
    assert Hits(s, MarkJob(w, false), j);
  }

  lemma PanicStage(s: State, w: WorkerName, j: JobId, n: nat, m: int)
    requires Stage(s, w, j, Marked(j, n), Running, n, m)
    ensures Enabled(s, Panic(w))
    ensures Stage(Next(s, Panic(w)), w, j, Idle, if n < m then Queued else DeadLettered, n, m)
  {
    assert Hits(s, Panic(w), j);
  }

  /** One attempt that is claimed, started and fails: three status changes. */
  lemma FailedAttempt(states: seq<State>, acts: seq<Action>, w: WorkerName, j: JobId, n: nat, m: int)
    returns (states': seq<State>, acts': seq<Action>)
    requires IsRun(states, acts) && Claimable(states[|acts|], w, j, n, m)
    ensures IsRun(states', acts')
    ensures StatusChanges(states', j, |acts'|) == StatusChanges(states, j, |acts|) + 3
    ensures Stage(states'[|acts'|], w, j, Idle, if n + 1 < m then Queued else DeadLettered, n + 1, m)
  {
    DeliverStage(states[|acts|], w, j, n, m);
    states', acts' := Extend(states, acts, Deliver(w, j), j);
    ClaimStage(states'[|acts'|], w, j, n, m);
    states', acts' := Extend(states', acts', ClaimJob(w, false), j);
    MarkStage(states'[|acts'|], w, j, n + 1, m);
    states', acts' := Extend(states', acts', MarkJob(w, false), j);
    PanicStage(states'[|acts'|], w, j, n + 1, m);
    states', acts' := Extend(states', acts', Panic(w), j);
  }

  lemma {:induction false} FailedAttempts(w: WorkerName, j: JobId, maxAttempts: int, n: nat)
    returns (states: seq<State>, acts: seq<Action>)
    requires n < maxAttempts || n == 0
    ensures IsRun(states, acts) && Claimable(states[|acts|], w, j, n, maxAttempts)
    ensures StatusChanges(states, j, |acts|) == 3 * n
  {
    if n == 0 {
      var s := State(0, map[], map[], [], false, map[], map[], {}, map[]);
      states, acts := Extend([s], [], CreateJob(j, [], maxAttempts), j);
    } else {
      states, acts := FailedAttempts(w, j, maxAttempts, n - 1);
      states, acts := FailedAttempt(states, acts, w, j, n - 1, maxAttempts);
    }
  }

  ghost predicate ReachesAttempt(states: seq<State>, acts: seq<Action>, j: JobId, maxAttempts: int, n: nat) {
    && IsRun(states, acts)
    && var rows := states[|acts|].rows;
    && j in rows && rows[j].maxAttempts == maxAttempts && rows[j].attemptCount == n
  }

  /**
   Some run brings a job to its n-th attempt if and only if n is at most max(1, max_attempts); so
   a second attempt needs max_attempts of 2 or more.
   */
  lemma AttemptIsReachedIff(j: JobId, w: WorkerName, maxAttempts: int, n: nat)
    ensures (exists states: seq<State>, acts: seq<Action> :: ReachesAttempt(states, acts, j, maxAttempts, n)) <==>
      n <= if maxAttempts < 1 then 1 else maxAttempts
  {
    if states: seq<State>, acts: seq<Action> :| ReachesAttempt(states, acts, j, maxAttempts, n) {
      RunInv(states, acts, |acts|);
    }
    if n == 0 {
      var states, acts := FailedAttempts(w, j, maxAttempts, 0);
      assert ReachesAttempt(states, acts, j, maxAttempts, n);
    } else if n <= if maxAttempts < 1 then 1 else maxAttempts {
      var states, acts := FailedAttempts(w, j, maxAttempts, n - 1);
      states, acts := FailedAttempt(states, acts, w, j, n - 1, maxAttempts);
      assert ReachesAttempt(states, acts, j, maxAttempts, n);
    }
  }

  ghost predicate ReachesBound(states: seq<State>, acts: seq<Action>, j: JobId, maxAttempts: int) {
    && IsRun(states, acts)
    && var rows := states[|acts|].rows;
    && j in rows && rows[j].maxAttempts == maxAttempts
    && StatusChanges(states, j, |acts|) == 3 * AttemptBound(rows[j])
  }

  /** For every max_attempts some run makes exactly as many status changes as LifecycleBound allows. */
  lemma LifecycleBoundIsReached(j: JobId, w: WorkerName, maxAttempts: int)
    ensures exists states: seq<State>, acts: seq<Action> :: ReachesBound(states, acts, j, maxAttempts)
  {
    var n := if maxAttempts < 1 then 0 else maxAttempts - 1;
    var states, acts := FailedAttempts(w, j, maxAttempts, n);
    states, acts := FailedAttempt(states, acts, w, j, n, maxAttempts);
    assert ReachesBound(states, acts, j, maxAttempts);
  }
}
