/** What every run of the leased job protocol keeps, whatever the queue delivers. */
module ProtocolSafety {
  import opened Domain
  import opened JobRows
  import opened JobStore
  import opened Options
  import opened Protocol

  // ----- Fencing: the worker name is as good as the attempt number -----

  predicate Settles(a: Action) {
    a.CompleteJob? || a.FailRun? || a.Panic?
  }

  /**
   A CompleteJob or FailJob that takes effect is by the last claimant of the row's current
   attempt, and a worker that is past its claim settles exactly the attempt it claimed.
   */
  lemma Fencing(s: State, a: Action, j: JobId)
    requires Reachable(s) && Enabled(s, a) && Settles(a) && Hits(s, a, j)
    ensures At(s, a.w).job == j && LastClaimed(s, a.w, j, s.rows[j].attemptCount)
    ensures Busy(At(s, a.w)) ==> At(s, a.w).attempt == s.rows[j].attemptCount
  {
    ReachableInv(s);
    var l := At(s, a.w);
    assert OwnedBy(s, j, a.w);
    if Busy(l) {
      assert LocalOk(s, a.w, l);
      NameGuardIsAttemptGuard(s, a.w, j, l.attempt);
    } else {
      forall b: nat | b > s.rows[j].attemptCount
        ensures (j, b) !in s.claimant
      {
      }
    }
  }

  /** Guarding Complete and FailJob by the worker's name admits exactly what guarding them by the attempt would. */
  lemma SettlesIffAttemptIsCurrent(s: State, a: Action)
    requires Reachable(s) && Enabled(s, a) && Settles(a) && Busy(At(s, a.w))
    ensures Hits(s, a, At(s, a.w).job) <==>
      var l := At(s, a.w);
      && l.job in s.rows && s.rows[l.job].attemptCount == l.attempt
      && if a.CompleteJob? then s.rows[l.job].status.Running? else Held(s.rows[l.job])
  {
    ReachableInv(s);
    var l := At(s, a.w);
    assert LocalOk(s, a.w, l);
    if l.job in s.rows && Held(s.rows[l.job]) {
      NameGuardIsAttemptGuard(s, a.w, l.job, l.attempt);
    }
  }

  /** Attempt n of job j was claimed, and worker w no longer holds it. */
  ghost predicate AttemptLost(s: State, w: WorkerName, j: JobId, n: nat) {
    && j in s.rows && n <= s.rows[j].attemptCount
    && !(Held(s.rows[j]) && s.rows[j].workerId == Some(w) && s.rows[j].attemptCount == n)
  }

  lemma AttemptLostStep(s: State, a: Action, w: WorkerName, j: JobId, n: nat)
    requires Inv(s) && Enabled(s, a) && AttemptLost(s, w, j, n)
    ensures AttemptLost(Next(s, a), w, j, n)
  {
    NextRowsAt(s, a, j);
    AttemptStep(s, a, j);
    NextRowOk(s, a, j);
    if NextRow(s, a, j).workerId.Some? {
      OwnerStep(s, a, j);
    }
  }

  lemma {:induction false} AttemptStaysLost(states: seq<State>, acts: seq<Action>, i: nat, k: nat, w: WorkerName,
          j: JobId, n: nat)
    requires IsRun(states, acts) && i <= k <= |acts| && AttemptLost(states[i], w, j, n)
    ensures AttemptLost(states[k], w, j, n)
    decreases k
  {
    if i < k {
      AttemptStaysLost(states, acts, i, k - 1, w, j, n);
      RunInv(states, acts, k - 1);
      AttemptLostStep(states[k - 1], acts[k - 1], w, j, n);
    }
  }

  /** Once a worker's attempt was taken away, nothing that worker still does under it takes effect. */
  lemma LostAttemptNeverSettles(states: seq<State>, acts: seq<Action>, i: nat, k: nat, j: JobId, n: nat)
    requires IsRun(states, acts) && i <= k < |acts| && Settles(acts[k])
    requires AttemptLost(states[i], acts[k].w, j, n)
    requires Busy(At(states[k], acts[k].w)) && At(states[k], acts[k].w).job == j
        && At(states[k], acts[k].w).attempt == n
    ensures !Hits(states[k], acts[k], j)
  {
    AttemptStaysLost(states, acts, i, k, acts[k].w, j, n);
    RunPrefix(states, acts, k);
    if Hits(states[k], acts[k], j) {
      Fencing(states[k], acts[k], j);
    }
  }

  lemma RunPrefix(states: seq<State>, acts: seq<Action>, k: nat)
    requires IsRun(states, acts) && k <= |acts|
    ensures IsRun(states[..k + 1], acts[..k]) && Reachable(states[k])
  {
    assert states[..k + 1][|acts[..k]|] == states[k];
  }

  // ----- Rows -----

  /** In every reachable state the columns of a row agree with its status, and its times are near the clock. */
  lemma RowsAreConsistent(s: State, j: JobId)
    requires Reachable(s) && j in s.rows
    ensures RowOk(s.rows[j]) && Timely(s.rows[j], s.now)
  {
    ReachableInv(s);
  }

  // ----- Lifecycle -----

  predicate StatusChanged(s: State, t: State, j: JobId) {
    j in s.rows && j in t.rows && s.rows[j].status != t.rows[j].status
  }

  /** How often the status of job j changed in the first n steps. */
  ghost function StatusChanges(states: seq<State>, j: JobId, n: nat): nat
    requires n < |states|
  {
    if n == 0 then 0 else StatusChanges(states, j, n - 1) + if StatusChanged(states[n - 1], states[n], j) then 1 else 0
  }

  /** A job makes at most three status changes per attempt it can get, and never more attempts than that. */
  lemma {:induction false} LifecycleBound(states: seq<State>, acts: seq<Action>, j: JobId, n: nat)
    requires IsRun(states, acts) && n <= |acts|
    ensures j !in states[n].rows ==> StatusChanges(states, j, n) == 0
    ensures j in states[n].rows ==>
      var row := states[n].rows[j];
      && row.attemptCount <= AttemptBound(row)
      && StatusChanges(states, j, n) + Potential(row) <= 3 * AttemptBound(row)
      && StatusChanges(states, j, n) <= 3 * AttemptBound(row)
  {
    if n > 0 {
      LifecycleBound(states, acts, j, n - 1);
      RunInv(states, acts, n - 1);
      LifecycleStep(states[n - 1], acts[n - 1], j);
    }
  }

  /** A step lowers a job's potential by at least one if it changes the status, and never raises it. */
  lemma LifecycleStep(s: State, a: Action, j: JobId)
    requires Inv(s) && Enabled(s, a)
    ensures
      var t := Next(s, a);
      && (j in s.rows ==>
        && j in t.rows && t.rows[j].maxAttempts == s.rows[j].maxAttempts
        && t.rows[j].attemptCount <= AttemptBound(t.rows[j])
        && 0 <= Potential(t.rows[j]) <= Potential(s.rows[j])
        && (t.rows[j].status != s.rows[j].status ==> Potential(t.rows[j]) < Potential(s.rows[j])))
      && (j !in s.rows && j in t.rows ==>
        t.rows[j].attemptCount == 0 && Potential(t.rows[j]) == 3 * AttemptBound(t.rows[j]))
  {
    NextRowsAt(s, a, j);
    if j in s.rows && UpdateFor(s, a, j).Some? {
      FireKeepsRowOk(UpdateFor(s, a, j).value, s.rows[j], s.now);
      StatusChangeLowersPotential(UpdateFor(s, a, j).value, s.rows[j], s.now);
    }
  }

  /**
   A job with max_attempts at most 1, such as those that CreateExecution stores,
   never returns to the queue after a claim.
   */
  lemma DefaultJobGetsOneAttempt(s: State, j: JobId)
    requires Reachable(s) && j in s.rows && s.rows[j].maxAttempts <= 1
    ensures s.rows[j].attemptCount <= 1
    ensures s.rows[j].attemptCount == 1 ==> !s.rows[j].status.Queued?
  {
    ReachableInv(s);
  }

  /** After a first claim, a released job is queued again exactly when max_attempts allows a second one. */
  lemma ReleaseRequeuesIffAttemptsRemain(s: State, a: Action, j: JobId)
    requires Reachable(s) && Enabled(s, a) && Hits(s, a, j) && (a.FailRun? || a.Panic? || a.RecoverAbandoned?)
    ensures Next(s, a).rows[j].status.Queued? <==> s.rows[j].attemptCount < s.rows[j].maxAttempts
    ensures Next(s, a).rows[j].status.DeadLettered? <==> s.rows[j].attemptCount >= s.rows[j].maxAttempts
  {
    NextRowsAt(s, a, j);
  }

  /** A COMPLETED or DEAD_LETTERED row never changes again, except for its dispatch marker. */
  lemma {:induction false} TerminalRowsAreFrozen(states: seq<State>, acts: seq<Action>, i: nat, k: nat, j: JobId)
    requires IsRun(states, acts) && i <= k <= |acts|
    requires j in states[i].rows && Terminal(states[i].rows[j])
    ensures j in states[k].rows
    ensures states[k].rows[j] == states[i].rows[j].(lastDispatchedAt := states[k].rows[j].lastDispatchedAt)
    decreases k
  {
    if i < k {
      TerminalRowsAreFrozen(states, acts, i, k - 1, j);
      RunInv(states, acts, k - 1);
      TerminalRowStep(states[k - 1], acts[k - 1], j);
    }
  }

  lemma TerminalRowStep(s: State, a: Action, j: JobId)
    requires Inv(s) && Enabled(s, a) && j in s.rows && Terminal(s.rows[j])
    ensures j in Next(s, a).rows
    ensures Next(s, a).rows[j] == s.rows[j].(lastDispatchedAt := Next(s, a).rows[j].lastDispatchedAt)
  {
    NextRowsAt(s, a, j);
    if UpdateFor(s, a, j).Some? {
      FireKeepsRowOk(UpdateFor(s, a, j).value, s.rows[j], s.now);
    }
  }

  predicate CompletesAt(s: State, a: Action, j: JobId) {
    a.CompleteJob? && Hits(s, a, j)
  }

  /** However often a job's message is delivered, its completion takes effect at most once. */
  lemma AtMostOneCompletion(states: seq<State>, acts: seq<Action>, i: nat, k: nat, j: JobId)
    requires IsRun(states, acts) && i < |acts| && k < |acts|
    requires CompletesAt(states[i], acts[i], j) && CompletesAt(states[k], acts[k], j)
    ensures i == k
  {
    if i < k {
      LaterCompletionMisses(states, acts, i, k, j);
    } else if k < i {
      LaterCompletionMisses(states, acts, k, i, j);
    }
  }

  lemma LaterCompletionMisses(states: seq<State>, acts: seq<Action>, i: nat, k: nat, j: JobId)
    requires IsRun(states, acts) && i < k < |acts| && CompletesAt(states[i], acts[i], j)
    ensures !CompletesAt(states[k], acts[k], j)
  {
    NextRowsAt(states[i], acts[i], j);
    assert states[i + 1].rows[j].status.Completed?;
    TerminalRowsAreFrozen(states, acts, i + 1, k, j);
  }

  /**
   A completed job stores one result per input, all of them executions of one
   attempt by the one worker that claimed it.
   */
  lemma CompletedJobIsOneAttempt(s: State, j: JobId)
    requires Reachable(s) && j in s.rows && s.rows[j].status.Completed?
    ensures s.rows[j].results.Some? && |s.rows[j].results.value| == |s.rows[j].inputs|
    ensures exists w ::
      && LastClaimed(s, w, j, s.rows[j].attemptCount)
      && forall i :: 0 <= i < |s.rows[j].inputs| ==>
        Execution(w, j, s.rows[j].attemptCount, i, s.rows[j].inputs[i], s.rows[j].results.value[i]) in s.ran
    ensures forall e :: e in s.ran && e.job == j && e.attempt == s.rows[j].attemptCount ==>
      e.index < |s.rows[j].inputs| && e.input == s.rows[j].inputs[e.index]
        && e.result == s.rows[j].results.value[e.index]
  {
    ReachableInv(s);
    var row := s.rows[j];
    assert Provenance(s, j, row.results.value);
    var w := s.claimant[(j, row.attemptCount)];
    assert LastClaimed(s, w, j, row.attemptCount);
    forall e | e in s.ran && e.job == j && e.attempt == row.attemptCount
      ensures e.index < |row.inputs| && e.input == row.inputs[e.index] && e.result == row.results.value[e.index]
    {
      assert Execution(w, j, row.attemptCount, e.index, row.inputs[e.index], row.results.value[e.index]) in s.ran;
    }
  }

  // ----- Retry delay -----

  predicate ClaimsAt(s: State, a: Action, j: JobId) {
    a.ClaimJob? && Hits(s, a, j)
  }

  predicate WaitsUntil(s: State, j: JobId, due: Time) {
    j in s.rows && (due <= s.now || (s.rows[j].status.Queued? && s.rows[j].nextRetryAt == Some(due)))
  }

  lemma WaitsUntilStep(s: State, a: Action, j: JobId, due: Time)
    requires Enabled(s, a) && WaitsUntil(s, j, due)
    ensures WaitsUntil(Next(s, a), j, due)
  {
    NextRowsAt(s, a, j);
  }

  lemma {:induction false} QueuedUntilDue(states: seq<State>, acts: seq<Action>, i: nat, k: nat, j: JobId, due: Time)
    requires IsRun(states, acts) && i <= k <= |acts|
    requires j in states[i].rows && states[i].rows[j].status.Queued? && states[i].rows[j].nextRetryAt == Some(due)
    ensures WaitsUntil(states[k], j, due)
    decreases k
  {
    if i < k {
      QueuedUntilDue(states, acts, i, k - 1, j, due);
      WaitsUntilStep(states[k - 1], acts[k - 1], j, due);
    }
  }

  /** After FailJob at time t with backoff b requeues a job, no worker claims it before t + b. */
  lemma RetryDelayIsHonoured(states: seq<State>, acts: seq<Action>, i: nat, k: nat, j: JobId)
    requires IsRun(states, acts) && i < k < |acts|
    requires (acts[i].FailRun? || acts[i].Panic?) && Hits(states[i], acts[i], j)
    requires states[i + 1].rows[j].status.Queued?
    requires ClaimsAt(states[k], acts[k], j)
    ensures states[k].now >= states[i].now + if acts[i].FailRun? then FAIL_BACKOFF else 0
  {
    NextRowsAt(states[i], acts[i], j);
    var due := states[i].now + if acts[i].FailRun? then FAIL_BACKOFF else 0;
    assert states[i + 1].rows[j].nextRetryAt == Some(due);
    QueuedUntilDue(states, acts, i + 1, k, j, due);
  }

  // ----- Timed lease safety -----

  /** If w is working on job j, it wrote the lease at most one lease duration ago. */
  ghost predicate Punctual(s: State, w: WorkerName, j: JobId) {
    Busy(At(s, w)) && At(s, w).job == j ==> (w, j) in s.wrote && s.now <= s.wrote[(w, j)] + LEASE_DURATION
  }

  /** The row belongs to w under the attempt that w is working on. */
  predicate Holder(row: Row, l: Local, w: WorkerName) {
    && row.workerId == Some(w) && Busy(l) && row.attemptCount == l.attempt
    && row.status == if l.Holding? then Claimed else Running
  }

  predicate HoldsRow(s: State, w: WorkerName, j: JobId) {
    j in s.rows && Holder(s.rows[j], At(s, w), w)
  }

  /** A row whose lease has not run out changes hands only by its owner's own settlement. */
  lemma UnexpiredRowStep(s: State, a: Action, w: WorkerName, j: JobId)
    requires Enabled(s, a) && j in s.rows && RowOk(s.rows[j]) && s.rows[j].workerId == Some(w)
        && !LeaseExpired(s.rows[j], s.now)
    requires !(Settles(a) && a.w == w && At(s, w).job == j)
    ensures NextRow(s, a, j).workerId == Some(w) && NextRow(s, a, j).attemptCount == s.rows[j].attemptCount
    ensures NextRow(s, a, j).status ==
      if a.MarkJob? && a.w == w && At(s, w).job == j && Hits(s, a, j) then Running else s.rows[j].status
  {
  }

  lemma HoldsRowStep(s: State, a: Action, w: WorkerName, j: JobId)
    requires Inv(s) && Enabled(s, a) && Punctual(s, w, j) && HoldsRow(s, w, j) && At(s, w).job == j
    requires Busy(At(Next(s, a), w)) && At(Next(s, a), w).job == j
    ensures HoldsRow(Next(s, a), w, j)
  {
    LocalStep(s, a, w, j);
    PunctualLeaseIsLive(s, w, j);
    UnexpiredRowStep(s, a, w, j);
    assert Holder(NextRow(s, a, j), At(Next(s, a), w), w);
    NextRowsAt(s, a, j);
  }

  lemma PunctualLeaseIsLive(s: State, w: WorkerName, j: JobId)
    requires Inv(s) && Punctual(s, w, j) && HoldsRow(s, w, j) && At(s, w).job == j
    ensures RowOk(s.rows[j]) && !LeaseExpired(s.rows[j], s.now)
  {
    assert OwnedBy(s, j, w);
  }

  /** How the local view of a busy worker moves while it stays with its job. */
  lemma LocalStep(s: State, a: Action, w: WorkerName, j: JobId)
    requires Enabled(s, a) && Busy(At(s, w)) && At(s, w).job == j
    requires Busy(At(Next(s, a), w))
    ensures At(Next(s, a), w).job == j && At(Next(s, a), w).attempt == At(s, w).attempt
    ensures At(Next(s, a), w).Holding? <==> At(s, w).Holding? && !(a.MarkJob? && a.w == w)
    ensures a.MarkJob? && a.w == w ==> Hits(s, a, j)
    ensures !(Settles(a) && a.w == w)
  {
  }

  /** A worker that is busy with j after a step holds its row, if it did before or was not busy. */
  lemma PunctualStep(s: State, a: Action, w: WorkerName, j: JobId)
    requires Inv(s) && Enabled(s, a)
    requires Busy(At(s, w)) && At(s, w).job == j ==> Punctual(s, w, j) && HoldsRow(s, w, j)
    requires Busy(At(Next(s, a), w)) && At(Next(s, a), w).job == j
    ensures HoldsRow(Next(s, a), w, j)
  {
    if Busy(At(s, w)) {
      LocalStep(s, a, w, At(s, w).job);
      HoldsRowStep(s, a, w, j);
    } else {
      FreshClaimHolds(s, a, w);
    }
  }

  lemma FreshClaimHolds(s: State, a: Action, w: WorkerName)
    requires Enabled(s, a) && !Busy(At(s, w)) && Busy(At(Next(s, a), w))
    ensures HoldsRow(Next(s, a), w, At(Next(s, a), w).job)
  {
    NextRowsAt(s, a, At(s, w).job);
  }

  /** While w works on j and writes its lease at least every 30 seconds, the row keeps w as its owner. */
  lemma {:induction false} PunctualWorkerKeepsJob(states: seq<State>, acts: seq<Action>, n: nat, w: WorkerName,
          j: JobId)
    requires IsRun(states, acts) && n <= |acts|
    requires forall i :: 0 <= i <= n ==> Punctual(states[i], w, j)
    requires Busy(At(states[n], w)) && At(states[n], w).job == j
    ensures HoldsRow(states[n], w, j)
  {
    if n > 0 {
      RunInv(states, acts, n - 1);
      if Busy(At(states[n - 1], w)) && At(states[n - 1], w).job == j {
        PunctualWorkerKeepsJob(states, acts, n - 1, w, j);
      }
      PunctualStep(states[n - 1], acts[n - 1], w, j);
    }
  }

  /** The statements that a worker directs at a job it holds. */
  predicate OwnerAction(a: Action) {
    a.MarkJob? || a.CompleteJob? || a.FailRun? || a.Panic? || a.Renew?
  }

  /** Nobody else's statement, and no sweep, touches a job held by a punctual worker. */
  lemma PunctualJobIsUntouched(states: seq<State>, acts: seq<Action>, n: nat, w: WorkerName, j: JobId)
    requires IsRun(states, acts) && n < |acts|
    requires forall i :: 0 <= i <= n ==> Punctual(states[i], w, j)
    requires Busy(At(states[n], w)) && At(states[n], w).job == j
    ensures Hits(states[n], acts[n], j) ==> acts[n].MarkHead? || (OwnerAction(acts[n]) && acts[n].w == w)
  {
    PunctualWorkerKeepsJob(states, acts, n, w, j);
    RunInv(states, acts, n);
    assert OwnedBy(states[n], j, w);
  }

  /**
   Beside a worker that renews in time, another one may be busy with its job only under an earlier
   attempt that it has lost, having failed to renew in time itself.
   */
  lemma PunctualWorkerExcludesOthers(states: seq<State>, acts: seq<Action>, n: nat, v: WorkerName, w: WorkerName,
          j: JobId)
    requires IsRun(states, acts) && n <= |acts| && v != w
    requires forall i :: 0 <= i <= n ==> Punctual(states[i], w, j)
    requires Busy(At(states[n], v)) && At(states[n], v).job == j
    requires Busy(At(states[n], w)) && At(states[n], w).job == j
    ensures At(states[n], v).attempt < At(states[n], w).attempt
    ensures AttemptLost(states[n], v, j, At(states[n], v).attempt)
    ensures exists i :: 0 <= i <= n && !Punctual(states[i], v, j)
  {
    PunctualWorkerKeepsJob(states, acts, n, w, j);
    if forall i :: 0 <= i <= n ==> Punctual(states[i], v, j) {
      PunctualWorkerKeepsJob(states, acts, n, v, j);
    }
    RunInv(states, acts, n);
    assert LocalOk(states[n], v, At(states[n], v)) && LocalOk(states[n], w, At(states[n], w));
    assert OwnedBy(states[n], j, w);
  }

  /** If every worker renews in time, a job is never worked on by two workers at once. */
  lemma MutualExclusion(states: seq<State>, acts: seq<Action>, n: nat, v: WorkerName, w: WorkerName, j: JobId)
    requires IsRun(states, acts) && n <= |acts|
    requires forall i :: 0 <= i <= n ==> Punctual(states[i], v, j) && Punctual(states[i], w, j)
    requires Busy(At(states[n], v)) && At(states[n], v).job == j
    requires Busy(At(states[n], w)) && At(states[n], w).job == j
    ensures v == w
  {
    PunctualWorkerKeepsJob(states, acts, n, v, j);
    PunctualWorkerKeepsJob(states, acts, n, w, j);
  }

  /** The 30 seconds are exact: the sweep takes a held job if and only if its owner's last lease write is older. */
  lemma SweepTakesExactlyLateJobs(s: State, j: JobId)
    requires Reachable(s) && j in s.rows && Held(s.rows[j])
    ensures
      var w := if s.rows[j].workerId.Some? then s.rows[j].workerId.value else "";
      && s.rows[j].workerId == Some(w)
      && (w, j) in s.wrote
      && (!Held(Next(s, RecoverAbandoned).rows[j]) <==> s.now > s.wrote[(w, j)] + LEASE_DURATION)
  {
    ReachableInv(s);
    assert OwnedBy(s, j, s.rows[j].workerId.value);
    NextRowsAt(s, RecoverAbandoned, j);
  }

  // ----- Dispatch rate -----

  predicate SendsAt(s: State, a: Action, j: JobId) {
    a.SendHead? && a.added && s.batch != [] && s.batch[0] == j
  }

  /** Every dispatch marker that is due gets written. */
  ghost predicate MarksSucceed(states: seq<State>, acts: seq<Action>)
    requires |states| == |acts| + 1
  {
    forall i :: 0 <= i < |acts| ==> (acts[i].MarkHead? ==> acts[i].marked) && (acts[i].DropBatch? ==> !states[i].sent)
  }

  /** A dispatched job is either still the sent head or marked no earlier than it was sent. */
  ghost predicate SentJobOk(s: State, j: JobId)
    requires j in s.sentAt
  {
    && s.sentAt[j] <= s.now
    && ((s.sent && s.batch != [] && s.batch[0] == j) ||
        (j in s.rows && s.rows[j].lastDispatchedAt.Some? && s.sentAt[j] <= s.rows[j].lastDispatchedAt.value))
  }

  ghost predicate SentOk(s: State) {
    forall j :: j in s.sentAt ==> SentJobOk(s, j)
  }

  lemma SentJobOkStep(s: State, a: Action, j: JobId)
    requires BatchInv(s) && RowsInv(s) && Enabled(s, a) && j in NextSentAt(s, a)
    requires j in s.sentAt ==> SentJobOk(s, j)
    requires (a.MarkHead? ==> a.marked) && (a.DropBatch? ==> !s.sent)
    ensures SentJobOk(Next(s, a), j)
  {
    if j in s.rows {
      NextRowsAt(s, a, j);
      DispatchMarkStep(s, a, j);
    }
  }

  lemma SentOkStep(s: State, a: Action)
    requires Inv(s) && SentOk(s) && Enabled(s, a)
    requires (a.MarkHead? ==> a.marked) && (a.DropBatch? ==> !s.sent)
    ensures SentOk(Next(s, a))
  {
    forall j | j in NextSentAt(s, a)
      ensures SentJobOk(Next(s, a), j)
    {
      SentJobOkStep(s, a, j);
    }
  }

  lemma {:induction false} SentOkInRun(states: seq<State>, acts: seq<Action>, n: nat)
    requires IsRun(states, acts) && MarksSucceed(states, acts) && n <= |acts|
    ensures SentOk(states[n])
  {
    if n > 0 {
      SentOkInRun(states, acts, n - 1);
      RunInv(states, acts, n - 1);
      SentOkStep(states[n - 1], acts[n - 1]);
    }
  }

  lemma {:induction false} SentAtMonotone(states: seq<State>, acts: seq<Action>, i: nat, k: nat, j: JobId)
    requires IsRun(states, acts) && MarksSucceed(states, acts) && i <= k <= |acts| && j in states[i].sentAt
    ensures j in states[k].sentAt && states[i].sentAt[j] <= states[k].sentAt[j]
    decreases k
  {
    if i < k {
      SentAtMonotone(states, acts, i, k - 1, j);
      SentOkInRun(states, acts, k - 1);
    }
  }

  /** A job that is dispatched now was last dispatched more than five seconds ago. */
  lemma SendIsLate(states: seq<State>, acts: seq<Action>, k: nat, j: JobId)
    requires IsRun(states, acts) && MarksSucceed(states, acts) && k < |acts| && SendsAt(states[k], acts[k], j)
    ensures j in states[k].sentAt ==> states[k].sentAt[j] < states[k].now - DISPATCH_GAP
  {
    RunInv(states, acts, k);
    SentOkInRun(states, acts, k);
  }

  /** Two dispatches of one job by one recovery service are more than five seconds apart. */
  lemma DispatchesAreFarApart(states: seq<State>, acts: seq<Action>, i: nat, k: nat, j: JobId)
    requires IsRun(states, acts) && MarksSucceed(states, acts) && i < k < |acts|
    requires SendsAt(states[i], acts[i], j) && SendsAt(states[k], acts[k], j)
    ensures states[k].now > states[i].now + DISPATCH_GAP
  {
    assert states[i + 1].sentAt[j] == states[i].now;
    SentAtMonotone(states, acts, i + 1, k, j);
    SendIsLate(states, acts, k, j);
  }

  /** How many dispatches of job j the first n steps make at or after a time. */
  ghost function Sends(states: seq<State>, acts: seq<Action>, j: JobId, from: Time, n: nat): nat
    requires |states| == |acts| + 1 && n <= |acts|
  {
    if n == 0 then 0
    else
      var now := SendsAt(states[n - 1], acts[n - 1], j) && from <= states[n - 1].now;
      Sends(states, acts, j, from, n - 1) + if now then 1 else 0
  }

  lemma {:induction false} SendsTakeTime(states: seq<State>, acts: seq<Action>, j: JobId, from: Time, n: nat)
    requires IsRun(states, acts) && MarksSucceed(states, acts) && n <= |acts|
    ensures Sends(states, acts, j, from, n) > 0 ==>
      j in states[n].sentAt && from + (Sends(states, acts, j, from, n) - 1) * DISPATCH_GAP <= states[n].sentAt[j]
  {
    if n > 0 {
      SendsTakeTime(states, acts, j, from, n - 1);
      if SendsAt(states[n - 1], acts[n - 1], j) {
        SendIsLate(states, acts, n - 1, j);
      }
    }
  }

  /** A window of T seconds holds at most T/5 + 1 dispatches of one job. */
  lemma DispatchRate(states: seq<State>, acts: seq<Action>, j: JobId, from: Time, window: nat)
    requires IsRun(states, acts) && MarksSucceed(states, acts) && states[|acts|].now <= from + window
    ensures Sends(states, acts, j, from, |acts|) <= window / DISPATCH_GAP + 1
  {
    SendsTakeTime(states, acts, j, from, |acts|);
    SentOkInRun(states, acts, |acts|);
    var sends := Sends(states, acts, j, from, |acts|);
    if sends > 0 {
      assert (sends - 1) * DISPATCH_GAP <= window;
    }
  }
}
