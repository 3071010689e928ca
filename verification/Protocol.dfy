/**
 The leased job protocol as a state machine: one action per SQL statement or local step of
 the worker pool and of the recovery service, interleaved in any order.

 The message queue is an adversary: a worker may be handed any job id at any time, so
 duplicated, reordered, trimmed and lost messages are all covered. A process may stop at any
 point (Abandon), a statement may commit although its caller sees an error (lost), and a
 lease may be renewed at any time, also by a renewal goroutine that outlived its run.
 */
module Protocol {
  import opened Domain
  import opened JobRows
  import opened JobStore
  import opened Options

  /** Where one worker name stands in processRun. The attempt is the one its own Claim started. */
  datatype Local =
    | Idle
    | Received(job: JobId)
    | Holding(job: JobId, attempt: nat)
    | Marked(job: JobId, attempt: nat)
    | Executing(job: JobId, attempt: nat, inputs: seq<string>, results: seq<ExecutionResult>)
    | Finishing(job: JobId)

  /** One finished execution of one input. */
  datatype Execution = Execution(worker: WorkerName, job: JobId, attempt: nat, index: nat, input: string,
    result: ExecutionResult)

  /**
   The table, the clock, the workers and the rest of the current dispatch batch (sent: its head
   is already on the stream but not yet marked), and four histories: who claimed which attempt,
   when each worker last wrote a job's lease, every execution so far, and when each job was last
   dispatched.
   */
  datatype State = State(
    now: Time,
    rows: Table,
    locals: map<WorkerName, Local>,
    batch: seq<JobId>,
    sent: bool,
    claimant: map<(JobId, nat), WorkerName>,
    wrote: map<(WorkerName, JobId), Time>,
    ran: set<Execution>,
    sentAt: map<JobId, Time>)

  datatype Action =
    | Tick(d: nat)
    | CreateJob(id: JobId, inputs: seq<string>, maxAttempts: int)
    | Deliver(w: WorkerName, job: JobId)
    | ClaimJob(w: WorkerName, lost: bool)
    | MarkJob(w: WorkerName, lost: bool)
    | FetchJob(w: WorkerName)
    | RunInput(w: WorkerName, result: ExecutionResult)
    | CompleteJob(w: WorkerName, lost: bool)
    | FailRun(w: WorkerName, error: string)
    | Panic(w: WorkerName)
    | Abandon(w: WorkerName)
    | Renew(w: WorkerName, job: JobId)
    | RecoverAbandoned
    | SelectBatch(ids: seq<JobId>)
    | SendHead(added: bool)
    | MarkHead(marked: bool)
    | DropBatch

  function At(s: State, w: WorkerName): Local {
    if w in s.locals then s.locals[w] else Idle
  }

  predicate Busy(l: Local) {
    l.Holding? || l.Marked? || l.Executing?
  }

  predicate Enabled(s: State, a: Action) {
    match a
    case Tick(_) => true
    case CreateJob(id, _, _) => id !in s.rows
    case Deliver(w, _) => At(s, w).Idle?
    case ClaimJob(w, _) => At(s, w).Received?
    case MarkJob(w, _) => At(s, w).Holding?
    case FetchJob(w) => At(s, w).Marked? && At(s, w).job in s.rows
    case RunInput(w, _) => At(s, w).Executing? && |At(s, w).results| < |At(s, w).inputs|
    case CompleteJob(w, _) => At(s, w).Executing? && |At(s, w).results| == |At(s, w).inputs|
    case FailRun(w, _) => At(s, w).Executing? && |At(s, w).results| < |At(s, w).inputs|
    case Panic(w) => !At(s, w).Idle?
    case Abandon(w) => !At(s, w).Idle?
    case Renew(_, _) => true
    case RecoverAbandoned => true
    case SelectBatch(ids) => s.batch == [] && Selection(s.rows, s.now, ids)
    case SendHead(_) => s.batch != [] && !s.sent
    case MarkHead(_) => s.batch != [] && s.sent
    case DropBatch => true
  }

  /** The statement, if any, that an action directs at job j. */
  function UpdateFor(s: State, a: Action, j: JobId): Option<Update> {
    match a
    case ClaimJob(w, _) =>
      if At(s, w).Received? && At(s, w).job == j then Some(Claim(w, LEASE_DURATION)) else None
    case MarkJob(w, _) =>
      if At(s, w).Holding? && At(s, w).job == j then Some(MarkRunning(w)) else None
    case CompleteJob(w, _) =>
      if At(s, w).Executing? && At(s, w).job == j then Some(Complete(w, At(s, w).results)) else None
    case FailRun(w, error) =>
      if At(s, w).Executing? && At(s, w).job == j then Some(FailJob(w, error, FAIL_BACKOFF)) else None
    case Panic(w) =>
      if !At(s, w).Idle? && At(s, w).job == j then Some(FailJob(w, "Worker crashed during execution", 0)) else None
    case Renew(w, job) => if job == j then Some(RenewLease(w, LEASE_DURATION)) else None
    case RecoverAbandoned => Some(ExpireLease)
    case MarkHead(marked) =>
      if marked && s.batch != [] && s.batch[0] == j then Some(MarkDispatched) else None
    case _ => None
  }

  /** The action's statement changes (or rewrites) the row of job j. */
  predicate Hits(s: State, a: Action, j: JobId) {
    j in s.rows && UpdateFor(s, a, j).Some? && Matches(UpdateFor(s, a, j).value, s.rows[j], s.now)
  }

  function NextRow(s: State, a: Action, j: JobId): Row
    requires j in s.rows
  {
    if UpdateFor(s, a, j).Some? then Fire(UpdateFor(s, a, j).value, s.rows[j], s.now) else s.rows[j]
  }

  function NextRows(s: State, a: Action): Table {
    var rows := map j | j in s.rows :: NextRow(s, a, j);
    if a.CreateJob? && a.id !in s.rows then rows[a.id := NewRow(a.inputs, s.now, a.maxAttempts)] else rows
  }

  function NextLocals(s: State, a: Action): map<WorkerName, Local> {
    match a
    case Deliver(w, job) => s.locals[w := Received(job)]
    case ClaimJob(w, lost) =>
      var l := At(s, w);
      var claims := l.Received? && Hits(s, a, l.job) && !lost;
      s.locals[w := if claims then Holding(l.job, s.rows[l.job].attemptCount + 1) else Idle]
    case MarkJob(w, lost) =>
      var l := At(s, w);
      s.locals[w := if l.Holding? && Hits(s, a, l.job) && !lost then Marked(l.job, l.attempt) else Idle]
    case FetchJob(w) =>
      var l := At(s, w);
      s.locals[w := if l.Marked? && l.job in s.rows then Executing(l.job, l.attempt, s.rows[l.job].inputs, [])
        else Idle]
    case RunInput(w, result) =>
      var l := At(s, w);
      s.locals[w := if l.Executing? then l.(results := l.results + [result]) else Idle]
    case CompleteJob(w, lost) =>
      var l := At(s, w);
      s.locals[w := if l.Executing? && Hits(s, a, l.job) && !lost then Finishing(l.job) else Idle]
    case FailRun(w, _) => s.locals[w := Idle]
    case Panic(w) => s.locals[w := Idle]
    case Abandon(w) => s.locals[w := Idle]
    case _ => s.locals
  }

  function NextBatch(s: State, a: Action): seq<JobId> {
    match a
    case SelectBatch(ids) => ids
    case SendHead(added) => if added || s.batch == [] then s.batch else s.batch[1..]
    case MarkHead(_) => if s.batch == [] then [] else s.batch[1..]
    case DropBatch => []
    case _ => s.batch
  }

  function NextSent(s: State, a: Action): bool {
    match a
    case SendHead(added) => added
    case MarkHead(_) => false
    case DropBatch => false
    case _ => s.sent
  }

  function NextSentAt(s: State, a: Action): map<JobId, Time> {
    if a.SendHead? && a.added && s.batch != [] then s.sentAt[s.batch[0] := s.now] else s.sentAt
  }

  function NextClaimant(s: State, a: Action): map<(JobId, nat), WorkerName> {
    if a.ClaimJob? && At(s, a.w).Received? && Hits(s, a, At(s, a.w).job)
    then s.claimant[(At(s, a.w).job, s.rows[At(s, a.w).job].attemptCount + 1) := a.w]
    else s.claimant
  }

  function NextWrote(s: State, a: Action): map<(WorkerName, JobId), Time> {
    match a
    case ClaimJob(w, _) =>
      if At(s, w).Received? && Hits(s, a, At(s, w).job) then s.wrote[(w, At(s, w).job) := s.now] else s.wrote
    case Renew(w, job) => if Hits(s, a, job) then s.wrote[(w, job) := s.now] else s.wrote
    case _ => s.wrote
  }

  function NextRan(s: State, a: Action): set<Execution> {
    if a.RunInput? && At(s, a.w).Executing? && |At(s, a.w).results| < |At(s, a.w).inputs| then
      var l := At(s, a.w);
      s.ran + {Execution(a.w, l.job, l.attempt, |l.results|, l.inputs[|l.results|], a.result)}
    else s.ran
  }

  function Next(s: State, a: Action): State {
    State(if a.Tick? then s.now + a.d else s.now,
          NextRows(s, a), NextLocals(s, a), NextBatch(s, a), NextSent(s, a),
          NextClaimant(s, a), NextWrote(s, a), NextRan(s, a), NextSentAt(s, a))
  }

  // ----- Runs -----

  predicate Initial(s: State) {
    && s.rows == map[] && s.locals == map[] && s.batch == [] && !s.sent
    && s.claimant == map[] && s.wrote == map[] && s.ran == {} && s.sentAt == map[]
  }

  /** states[i] is the state before acts[i], and states[|acts|] the state after all of them. */
  ghost predicate IsRun(states: seq<State>, acts: seq<Action>) {
    && |states| == |acts| + 1
    && Initial(states[0])
    && forall i :: 0 <= i < |acts| ==> Enabled(states[i], acts[i]) && states[i + 1] == Next(states[i], acts[i])
  }

  ghost predicate Reachable(s: State) {
    exists states, acts :: IsRun(states, acts) && states[|acts|] == s
  }

  // ----- The inductive invariant -----

  /** w claimed attempt a of job j, and no later attempt of it. */
  ghost predicate LastClaimed(s: State, w: WorkerName, j: JobId, a: nat) {
    && (j, a) in s.claimant && s.claimant[(j, a)] == w
    && forall b: nat :: b > a && (j, b) in s.claimant ==> s.claimant[(j, b)] != w
  }

  ghost predicate RowsInv(s: State) {
    forall j :: j in s.rows ==> RowOk(s.rows[j]) && Timely(s.rows[j], s.now)
  }

  /** Each attempt made so far, and no other, has one claimant. */
  ghost predicate ClaimantInv(s: State) {
    forall j, a: nat :: (j, a) in s.claimant <==> j in s.rows && 1 <= a <= s.rows[j].attemptCount
  }

  /** The owner named in the row is the claimant of its current attempt and wrote its lease. */
  ghost predicate OwnedBy(s: State, j: JobId, w: WorkerName)
    requires j in s.rows
  {
    && (j, s.rows[j].attemptCount) in s.claimant
    && s.claimant[(j, s.rows[j].attemptCount)] == w
    && (w, j) in s.wrote
    && s.rows[j].leaseExpiresAt == Some(s.wrote[(w, j)] + LEASE_DURATION)
  }

  ghost predicate OwnerInv(s: State) {
    forall j :: j in s.rows && s.rows[j].workerId.Some? ==> OwnedBy(s, j, s.rows[j].workerId.value)
  }

  ghost predicate RanInv(s: State) {
    && (forall e :: e in s.ran ==>
      && (e.job, e.attempt) in s.claimant && s.claimant[(e.job, e.attempt)] == e.worker
      && e.job in s.rows && e.index < |s.rows[e.job].inputs| && e.input == s.rows[e.job].inputs[e.index])
    && (forall e, f :: e in s.ran && f in s.ran && e.job == f.job && e.attempt == f.attempt && e.index == f.index ==>
      e == f)
  }

  /** The results so far are those of this worker's executions under this attempt, and there are no others. */
  ghost predicate Progress(s: State, w: WorkerName, j: JobId, a: nat, inputs: seq<string>,
          results: seq<ExecutionResult>) {
    && |results| <= |inputs|
    && (forall i :: 0 <= i < |results| ==> Execution(w, j, a, i, inputs[i], results[i]) in s.ran)
    && (forall e :: e in s.ran && e.job == j && e.attempt == a ==> e.index < |results|)
  }

  ghost predicate LocalOk(s: State, w: WorkerName, l: Local) {
    match l
    case Holding(j, a) => LastClaimed(s, w, j, a) && Progress(s, w, j, a, [], [])
    case Marked(j, a) => LastClaimed(s, w, j, a) && Progress(s, w, j, a, [], [])
    case Executing(j, a, inputs, results) =>
      LastClaimed(s, w, j, a) && j in s.rows && inputs == s.rows[j].inputs && Progress(s, w, j, a, inputs, results)
    case _ => true
  }

  ghost predicate LocalsInv(s: State) {
    forall w :: w in s.locals ==> LocalOk(s, w, s.locals[w])
  }

  /** The stored results are one execution per input, all by the claimant of the row's attempt. */
  ghost predicate Provenance(s: State, j: JobId, results: seq<ExecutionResult>)
    requires j in s.rows
  {
    var row := s.rows[j];
    && (j, row.attemptCount) in s.claimant
    && |results| == |row.inputs|
    && forall i :: 0 <= i < |results| ==>
      Execution(s.claimant[(j, row.attemptCount)], j, row.attemptCount, i, row.inputs[i], results[i]) in s.ran
  }

  ghost predicate ResultsInv(s: State) {
    forall j :: j in s.rows && s.rows[j].results.Some? ==> Provenance(s, j, s.rows[j].results.value)
  }

  ghost predicate BatchInv(s: State) {
    && Distinct(s.batch)
    && (s.sent ==> s.batch != [])
    && forall j :: j in s.batch ==>
      && j in s.rows
      && (s.rows[j].lastDispatchedAt.None? || s.rows[j].lastDispatchedAt.value < s.now - DISPATCH_GAP)
  }

  ghost predicate Inv(s: State) {
    && RowsInv(s) && ClaimantInv(s) && OwnerInv(s) && RanInv(s) && LocalsInv(s) && ResultsInv(s) && BatchInv(s)
  }

  lemma NextRowsAt(s: State, a: Action, j: JobId)
    requires Enabled(s, a)
    ensures j in NextRows(s, a) <==> j in s.rows || (a.CreateJob? && a.id == j)
    ensures j in s.rows ==> NextRows(s, a)[j] == NextRow(s, a, j)
    ensures a.CreateJob? && a.id == j ==> NextRows(s, a)[j] == NewRow(a.inputs, s.now, a.maxAttempts)
  {
  }

  lemma UpdatesArePoolUpdates(s: State, a: Action, j: JobId)
    ensures UpdateFor(s, a, j).Some? ==> PoolUpdate(UpdateFor(s, a, j).value)
  {
  }

  lemma NextRowOk(s: State, a: Action, j: JobId)
    requires j in s.rows && RowOk(s.rows[j]) && Timely(s.rows[j], s.now)
    ensures RowOk(NextRow(s, a, j)) && Timely(NextRow(s, a, j), s.now)
  {
    UpdatesArePoolUpdates(s, a, j);
    var u := UpdateFor(s, a, j);
    if u.Some? {
      FireKeepsRowOk(u.value, s.rows[j], s.now);
      FireKeepsTimely(u.value, s.rows[j], s.now);
    }
  }

  lemma RowsInvStep(s: State, a: Action)
    requires RowsInv(s) && Enabled(s, a)
    ensures RowsInv(Next(s, a))
  {
    var t := Next(s, a);
    forall j | j in t.rows
      ensures RowOk(t.rows[j]) && Timely(t.rows[j], t.now)
    {
      NextRowsAt(s, a, j);
      if j in s.rows {
        NextRowOk(s, a, j);
      }
    }
  }

  /** Only a successful claim changes an attempt counter, and it adds one. */
  lemma AttemptStep(s: State, a: Action, j: JobId)
    requires Enabled(s, a) && j in s.rows
    ensures NextRow(s, a, j).attemptCount ==
      s.rows[j].attemptCount + if a.ClaimJob? && At(s, a.w).job == j && Hits(s, a, j) then 1 else 0
  {
  }

  lemma ClaimantInvStep(s: State, a: Action)
    requires RowsInv(s) && ClaimantInv(s) && Enabled(s, a)
    ensures ClaimantInv(Next(s, a))
  {
    var t := Next(s, a);
    forall j, n: nat
      ensures (j, n) in t.claimant <==> j in t.rows && 1 <= n <= t.rows[j].attemptCount
    {
      NextRowsAt(s, a, j);
      if j in s.rows {
        AttemptStep(s, a, j);
      }
      if a.ClaimJob? && Hits(s, a, At(s, a.w).job) {
        NextRowsAt(s, a, At(s, a.w).job);
      }
    }
  }

  /** A row's owner and lease change together with the histories, or not at all. */
  lemma OwnerStep(s: State, a: Action, j: JobId)
    requires j in s.rows && Enabled(s, a) && NextRow(s, a, j).workerId.Some?
    ensures
      var w := NextRow(s, a, j).workerId.value;
      if a.ClaimJob? && a.w == w && At(s, w).job == j && Hits(s, a, j) then
        && NextClaimant(s, a) == s.claimant[(j, NextRow(s, a, j).attemptCount) := w]
        && NextWrote(s, a) == s.wrote[(w, j) := s.now]
        && NextRow(s, a, j).leaseExpiresAt == Some(s.now + LEASE_DURATION)
      else
        && s.rows[j].workerId == Some(w) && s.rows[j].attemptCount == NextRow(s, a, j).attemptCount
        && if a.Renew? && a.w == w && a.job == j && Hits(s, a, j)
           then NextWrote(s, a) == s.wrote[(w, j) := s.now]
             && NextRow(s, a, j).leaseExpiresAt == Some(s.now + LEASE_DURATION)
           else NextRow(s, a, j).leaseExpiresAt == s.rows[j].leaseExpiresAt
  {
  }

  /** Writing one worker's lease on one job leaves every other record of lease writes alone. */
  lemma WroteElsewhere(s: State, a: Action, w: WorkerName, j: JobId)
    requires Enabled(s, a) && (w, j) in s.wrote
    ensures (w, j) in NextWrote(s, a)
    ensures
      var writes := (a.Renew? && a.w == w && a.job == j) || (a.ClaimJob? && a.w == w && At(s, w).job == j);
      !(writes && Hits(s, a, j)) ==> NextWrote(s, a)[(w, j)] == s.wrote[(w, j)]
  {
  }

  lemma OwnerInvStep(s: State, a: Action)
    requires RowsInv(s) && ClaimantInv(s) && OwnerInv(s) && Enabled(s, a)
    ensures OwnerInv(Next(s, a))
  {
    var t := Next(s, a);
    forall j | j in t.rows && t.rows[j].workerId.Some?
      ensures OwnedBy(t, j, t.rows[j].workerId.value)
    {
      NextRowsAt(s, a, j);
      OwnedByStep(s, a, j);
    }
  }

  lemma OwnedByStep(s: State, a: Action, j: JobId)
    requires ClaimantInv(s) && OwnerInv(s) && Enabled(s, a) && j in s.rows && NextRow(s, a, j).workerId.Some?
    ensures j in NextRows(s, a) && OwnedBy(Next(s, a), j, NextRow(s, a, j).workerId.value)
  {
    NextRowsAt(s, a, j);
    OwnerStep(s, a, j);
    var w := NextRow(s, a, j).workerId.value;
    if !(a.ClaimJob? && a.w == w && At(s, w).job == j && Hits(s, a, j)) {
      assert OwnedBy(s, j, w);
      WroteElsewhere(s, a, w, j);
      ClaimantGrows(s, a, j, s.rows[j].attemptCount);
    }
  }

  /** The histories of an attempt that is already claimed are fixed. */
  lemma ClaimantGrows(s: State, a: Action, j: JobId, n: nat)
    requires ClaimantInv(s) && (j, n) in s.claimant
    ensures (j, n) in NextClaimant(s, a) && NextClaimant(s, a)[(j, n)] == s.claimant[(j, n)]
  {
  }

  lemma RowInputsFixed(s: State, a: Action, j: JobId)
    requires Enabled(s, a) && j in s.rows
    ensures j in NextRows(s, a) && NextRows(s, a)[j].inputs == s.rows[j].inputs
    ensures NextRows(s, a)[j].maxAttempts == s.rows[j].maxAttempts
  {
    NextRowsAt(s, a, j);
  }

  /** The execution that RunInput records is of the next input, by a worker whose view is in order. */
  lemma NewExecution(s: State, a: Action, e: Execution)
    requires RowsInv(s) && ClaimantInv(s) && LocalsInv(s) && Enabled(s, a)
    requires e in NextRan(s, a) && e !in s.ran
    ensures a.RunInput? && NextRan(s, a) == s.ran + {e}
    ensures (e.job, e.attempt) in s.claimant && s.claimant[(e.job, e.attempt)] == e.worker
    ensures e.job in s.rows && e.index < |s.rows[e.job].inputs| && e.input == s.rows[e.job].inputs[e.index]
    ensures forall f :: f in s.ran && f.job == e.job && f.attempt == e.attempt ==> f.index < e.index
  {
    assert LocalOk(s, a.w, s.locals[a.w]);
  }

  lemma RanInvStep(s: State, a: Action)
    requires RowsInv(s) && ClaimantInv(s) && RanInv(s) && LocalsInv(s) && Enabled(s, a)
    ensures RanInv(Next(s, a))
  {
    var ran := NextRan(s, a);
    forall e | e in ran
      ensures (e.job, e.attempt) in NextClaimant(s, a) && NextClaimant(s, a)[(e.job, e.attempt)] == e.worker
      ensures e.job in NextRows(s, a) && e.index < |NextRows(s, a)[e.job].inputs|
          && e.input == NextRows(s, a)[e.job].inputs[e.index]
    {
      if e !in s.ran {
        NewExecution(s, a, e);
      }
      ClaimantGrows(s, a, e.job, e.attempt);
      RowInputsFixed(s, a, e.job);
    }
    forall e, f | e in ran && f in ran && e.job == f.job && e.attempt == f.attempt && e.index == f.index
      ensures e == f
    {
      if e !in s.ran {
        NewExecution(s, a, e);
      } else if f !in s.ran {
        NewExecution(s, a, f);
      }
    }
  }

  /** Only a worker's own claim makes an attempt its last claimed one or stops it from being so. */
  lemma LastClaimedFrame(s: State, a: Action, w: WorkerName, j: JobId, n: nat)
    requires ClaimantInv(s) && Enabled(s, a) && LastClaimed(s, w, j, n) && !(a.ClaimJob? && a.w == w)
    ensures LastClaimed(Next(s, a), w, j, n)
  {
    ClaimantGrows(s, a, j, n);
  }

  /** Nobody else executes inputs under an attempt that w claimed. */
  lemma ProgressFrame(s: State, a: Action, w: WorkerName, j: JobId, n: nat, inputs: seq<string>,
          results: seq<ExecutionResult>)
    requires RowsInv(s) && ClaimantInv(s) && LocalsInv(s) && Enabled(s, a) && !(a.RunInput? && a.w == w)
    requires (j, n) in s.claimant && s.claimant[(j, n)] == w && Progress(s, w, j, n, inputs, results)
    ensures Progress(Next(s, a), w, j, n, inputs, results)
  {
    forall e | e in NextRan(s, a) && e.job == j && e.attempt == n
      ensures e.index < |results|
    {
      if e !in s.ran {
        NewExecution(s, a, e);
      }
    }
  }

  /** A local view survives every action of others. */
  lemma LocalOkFrame(s: State, a: Action, w: WorkerName, l: Local)
    requires RowsInv(s) && ClaimantInv(s) && RanInv(s) && LocalsInv(s) && Enabled(s, a)
    requires LocalOk(s, w, l)
    requires !((a.RunInput? || a.ClaimJob?) && a.w == w)
    ensures LocalOk(Next(s, a), w, l)
  {
    if Busy(l) {
      LastClaimedFrame(s, a, w, l.job, l.attempt);
      if l.Executing? {
        RowInputsFixed(s, a, l.job);
        ProgressFrame(s, a, w, l.job, l.attempt, l.inputs, l.results);
      } else {
        ProgressFrame(s, a, w, l.job, l.attempt, [], []);
      }
    }
  }

  lemma LocalsInvStep(s: State, a: Action)
    requires RowsInv(s) && ClaimantInv(s) && RanInv(s) && LocalsInv(s) && Enabled(s, a)
    ensures LocalsInv(Next(s, a))
  {
    var t := Next(s, a);
    forall w | w in t.locals
      ensures LocalOk(t, w, t.locals[w])
    {
      if w in s.locals && t.locals[w] == s.locals[w] && !((a.RunInput? || a.ClaimJob?) && a.w == w) {
        LocalOkFrame(s, a, w, s.locals[w]);
      } else if a.ClaimJob? {
        if t.locals[w].Holding? {
          NewClaimOk(s, a);
        }
      } else if a.RunInput? {
        RunInputOk(s, a);
      } else {
        ForwardOk(s, a, w);
      }
    }
  }

  lemma NewClaimOk(s: State, a: Action)
    requires RowsInv(s) && ClaimantInv(s) && RanInv(s) && LocalsInv(s) && Enabled(s, a)
    requires a.ClaimJob? && Hits(s, a, At(s, a.w).job)
    ensures LocalOk(Next(s, a), a.w, Holding(At(s, a.w).job, s.rows[At(s, a.w).job].attemptCount + 1))
  {
  }

  lemma RunInputOk(s: State, a: Action)
    requires RowsInv(s) && ClaimantInv(s) && RanInv(s) && LocalsInv(s) && Enabled(s, a)
    requires a.RunInput?
    ensures LocalOk(Next(s, a), a.w, NextLocals(s, a)[a.w])
  {
    var l := At(s, a.w);
    assert LocalOk(s, a.w, l);
    RowInputsFixed(s, a, l.job);
  }

  lemma ForwardOk(s: State, a: Action, w: WorkerName)
    requires RowsInv(s) && ClaimantInv(s) && RanInv(s) && LocalsInv(s) && Enabled(s, a)
    requires !a.RunInput? && !a.ClaimJob?
    requires w in NextLocals(s, a) && (w !in s.locals || NextLocals(s, a)[w] != s.locals[w])
    ensures LocalOk(Next(s, a), w, NextLocals(s, a)[w])
  {
    if a.MarkJob? || a.FetchJob? {
      var l := At(s, w);
      assert LocalOk(s, w, l);
      LocalOkFrame(s, a, w, l);
      RowInputsFixed(s, a, l.job);
    }
  }

  // ----- Fencing -----

  /** A worker that settles or renews by name is the last claimant of the row's current attempt. */
  lemma NameGuardIsAttemptGuard(s: State, w: WorkerName, j: JobId, n: nat)
    requires ClaimantInv(s) && OwnerInv(s) && RowsInv(s) && LastClaimed(s, w, j, n) && j in s.rows && Held(s.rows[j])
    ensures s.rows[j].workerId == Some(w) <==> s.rows[j].attemptCount == n
  {
    assert OwnedBy(s, j, s.rows[j].workerId.value);
  }

  /** Results appear in a row only by a CompleteJob that hits it. */
  lemma ResultsStep(s: State, a: Action, j: JobId)
    requires Enabled(s, a) && j in s.rows && RowOk(s.rows[j])
    ensures s.rows[j].results.Some? ==>
      NextRow(s, a, j).results == s.rows[j].results && NextRow(s, a, j).attemptCount == s.rows[j].attemptCount
    ensures s.rows[j].results.None? && NextRow(s, a, j).results.Some? ==>
      && a.CompleteJob? && At(s, a.w).job == j && Hits(s, a, j)
      && NextRow(s, a, j).results.value == At(s, a.w).results && NextRow(s, a, j).attemptCount == s.rows[j].attemptCount
  {
  }

  lemma ResultsInvStep(s: State, a: Action)
    requires Inv(s) && Enabled(s, a)
    ensures ResultsInv(Next(s, a))
  {
    var t := Next(s, a);
    forall j | j in t.rows && t.rows[j].results.Some?
      ensures Provenance(t, j, t.rows[j].results.value)
    {
      NextRowsAt(s, a, j);
      assert j in s.rows;
      RowInputsFixed(s, a, j);
      ResultsStep(s, a, j);
      if s.rows[j].results.None? {
        var l := At(s, a.w);
        assert LocalOk(s, a.w, l);
        NameGuardIsAttemptGuard(s, a.w, j, l.attempt);
      }
      ProvenanceFrame(s, a, j, t.rows[j].results.value);
    }
  }

  lemma ProvenanceFrame(s: State, a: Action, j: JobId, results: seq<ExecutionResult>)
    requires Enabled(s, a) && ClaimantInv(s) && j in s.rows && Provenance(s, j, results)
    requires NextRow(s, a, j).attemptCount == s.rows[j].attemptCount
    ensures j in Next(s, a).rows && Provenance(Next(s, a), j, results)
  {
    NextRowsAt(s, a, j);
    RowInputsFixed(s, a, j);
    ClaimantGrows(s, a, j, s.rows[j].attemptCount);
  }

  /** A dispatch marker is written by MarkHead alone, on the head of the batch. */
  lemma DispatchMarkStep(s: State, a: Action, j: JobId)
    requires Enabled(s, a) && j in s.rows
    ensures NextRow(s, a, j).lastDispatchedAt ==
      if a.MarkHead? && a.marked && s.batch[0] == j then Some(s.now) else s.rows[j].lastDispatchedAt
  {
  }

  /** The batch is a fresh selection or what is left of the current one, and a marked job leaves it. */
  lemma BatchStep(s: State, a: Action)
    requires Enabled(s, a) && Distinct(s.batch) && (s.sent ==> s.batch != [])
    ensures Distinct(NextBatch(s, a)) && (NextSent(s, a) ==> NextBatch(s, a) != [])
    ensures !a.SelectBatch? ==> forall j :: j in NextBatch(s, a) ==> j in s.batch
    ensures a.MarkHead? ==> s.batch[0] !in NextBatch(s, a)
  {
  }

  lemma BatchInvStep(s: State, a: Action)
    requires BatchInv(s) && Enabled(s, a)
    ensures BatchInv(Next(s, a))
  {
    BatchStep(s, a);
    forall j | j in NextBatch(s, a)
      ensures j in NextRows(s, a)
      ensures NextRows(s, a)[j].lastDispatchedAt.None?
          || NextRows(s, a)[j].lastDispatchedAt.value < s.now - DISPATCH_GAP
    {
      if a.SelectBatch? {
        assert j in Eligible(s.rows, s.now);
      }
      NextRowsAt(s, a, j);
      DispatchMarkStep(s, a, j);
    }
  }

  lemma InvStep(s: State, a: Action)
    requires Inv(s) && Enabled(s, a)
    ensures Inv(Next(s, a))
  {
    RowsInvStep(s, a);
    ClaimantInvStep(s, a);
    OwnerInvStep(s, a);
    RanInvStep(s, a);
    LocalsInvStep(s, a);
    ResultsInvStep(s, a);
    BatchInvStep(s, a);
  }

  /** The invariant holds in every state of every run. */
  lemma {:induction false} RunInv(states: seq<State>, acts: seq<Action>, n: nat)
    requires IsRun(states, acts) && n <= |acts|
    ensures Inv(states[n])
  {
    if n > 0 {
      RunInv(states, acts, n - 1);
      InvStep(states[n - 1], acts[n - 1]);
    }
  }

  lemma ReachableInv(s: State)
    requires Reachable(s)
    ensures Inv(s)
  {
    var states, acts :| IsRun(states, acts) && states[|acts|] == s;
    RunInv(states, acts, |acts|);
  }
}
