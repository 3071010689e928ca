/**
 Why worker names must be unique: the same protocol with two processes that run under one name.
 Each has its own place in processRun; the table and the histories know them by the name alone.
 */
module SharedNames {
  import opened Domain
  import opened JobRows
  import opened JobStore
  import opened Options
  import opened Protocol

  datatype Shared = Shared(s: State, first: Local, second: Local)

  datatype Turn = Turn(first: bool, a: Action)

  /** The protocol's state as the process whose turn it is sees it. */
  function Seen(x: Shared, w: WorkerName, first: bool): State {
    x.s.(locals := x.s.locals[w := if first then x.first else x.second])
  }

  predicate CanTake(x: Shared, w: WorkerName, t: Turn) {
    Enabled(Seen(x, w, t.first), t.a)
  }

  function Take(x: Shared, w: WorkerName, t: Turn): Shared {
    var n := Next(Seen(x, w, t.first), t.a);
    if t.first then Shared(n, At(n, w), x.second) else Shared(n, x.first, At(n, w))
  }

  ghost predicate IsSharedRun(xs: seq<Shared>, turns: seq<Turn>, w: WorkerName) {
    && |xs| == |turns| + 1
    && Initial(xs[0].s) && xs[0].first.Idle? && xs[0].second.Idle?
    && forall i :: 0 <= i < |turns| ==> CanTake(xs[i], w, turns[i]) && xs[i + 1] == Take(xs[i], w, turns[i])
  }

  /** The clock, job j's row, where the two processes stand, and which attempts of j anything was executed under. */
  ghost predicate Stage(x: Shared, j: JobId, now: Time, row: Row, first: Local, second: Local) {
    && x.s.now == now && j in x.s.rows && x.s.rows[j] == row && x.first == first && x.second == second
    && forall e :: e in x.s.ran && e.job == j ==> e.attempt <= 1
  }

  /** A run goes on with any enabled turn. */
  lemma Turned(xs: seq<Shared>, turns: seq<Turn>, w: WorkerName, t: Turn) returns (xs': seq<Shared>, turns': seq<Turn>)
    requires IsSharedRun(xs, turns, w) && CanTake(xs[|turns|], w, t)
    ensures IsSharedRun(xs', turns', w) && turns' == turns + [t] && xs' == xs + [Take(xs[|turns|], w, t)]
  {
    xs', turns' := xs + [Take(xs[|turns|], w, t)], turns + [t];
  }

  /** The stage after a turn that changes row and local view in a known way. */
  lemma StageStep(x: Shared, w: WorkerName, t: Turn, j: JobId, now: Time, row: Row, first: Local, second: Local,
          row': Row, l': Local)
    requires Stage(x, j, now, row, first, second) && CanTake(x, w, t) && !t.a.CreateJob?
    requires t.a.RunInput? ==> At(Seen(x, w, t.first), t.a.w).attempt <= 1
    requires NextRow(Seen(x, w, t.first), t.a, j) == row' && At(Next(Seen(x, w, t.first), t.a), w) == l'
    ensures Stage(Take(x, w, t), j, if t.a.Tick? then now + t.a.d else now, row',
      if t.first then l' else first, if t.first then second else l')
  {
    NextRowsAt(Seen(x, w, t.first), t.a, j);
  }

  function ClaimedRow(row: Row, w: WorkerName, now: Time): Row {
    Fire(Claim(w, LEASE_DURATION), row, now)
  }

  function RunningRow(row: Row, w: WorkerName, now: Time): Row {
    Fire(MarkRunning(w), ClaimedRow(row, w, now), now)
  }

  /** What the first three statements of processRun do, seen by the process that runs them. */
  lemma DeliverEffect(v: State, w: WorkerName, j: JobId)
    requires At(v, w) == Idle && j in v.rows
    ensures Enabled(v, Deliver(w, j)) && NextRow(v, Deliver(w, j), j) == v.rows[j]
        && At(Next(v, Deliver(w, j)), w) == Received(j)
  {
  }

  lemma ClaimEffect(v: State, w: WorkerName, j: JobId)
    requires At(v, w) == Received(j) && j in v.rows && v.rows[j].status.Queued? && RetryDue(v.rows[j], v.now)
    ensures Enabled(v, ClaimJob(w, false)) && NextRow(v, ClaimJob(w, false), j) == ClaimedRow(v.rows[j], w, v.now)
    ensures At(Next(v, ClaimJob(w, false)), w) == Holding(j, v.rows[j].attemptCount + 1)
  {
    assert Hits(v, ClaimJob(w, false), j);
  }

  lemma MarkEffect(v: State, w: WorkerName, j: JobId, n: nat)
    requires At(v, w) == Holding(j, n) && j in v.rows && v.rows[j].status.Claimed? && v.rows[j].workerId == Some(w)
    ensures Enabled(v, MarkJob(w, false)) && NextRow(v, MarkJob(w, false), j) == Fire(MarkRunning(w), v.rows[j], v.now)
    ensures At(Next(v, MarkJob(w, false)), w) == Marked(j, n)
  {
    assert Hits(v, MarkJob(w, false), j);
  }

  function View(isFirst: bool, l: Local, other: Local): Local {
    if isFirst then l else other
  }

  ghost predicate OneAt(x: Shared, j: JobId, now: Time, row: Row, isFirst: bool, l: Local, other: Local) {
    Stage(x, j, now, row, View(isFirst, l, other), View(isFirst, other, l))
  }

  lemma DeliverTurn(x: Shared, w: WorkerName, j: JobId, isFirst: bool, now: Time, row: Row, other: Local)
    requires OneAt(x, j, now, row, isFirst, Idle, other)
    ensures CanTake(x, w, Turn(isFirst, Deliver(w, j)))
    ensures OneAt(Take(x, w, Turn(isFirst, Deliver(w, j))), j, now, row, isFirst, Received(j), other)
  {
    DeliverEffect(Seen(x, w, isFirst), w, j);
    StageStep(x, w, Turn(isFirst, Deliver(w, j)), j, now, row, x.first, x.second, row, Received(j));
  }

  lemma ClaimTurn(x: Shared, w: WorkerName, j: JobId, isFirst: bool, now: Time, row: Row, other: Local)
    requires OneAt(x, j, now, row, isFirst, Received(j), other) && row.status.Queued? && RetryDue(row, now)
    ensures CanTake(x, w, Turn(isFirst, ClaimJob(w, false)))
    ensures OneAt(Take(x, w, Turn(isFirst, ClaimJob(w, false))), j, now, ClaimedRow(row, w, now), isFirst,
        Holding(j, row.attemptCount + 1), other)
  {
    var l := Holding(j, row.attemptCount + 1);
    ClaimEffect(Seen(x, w, isFirst), w, j);
    StageStep(x, w, Turn(isFirst, ClaimJob(w, false)), j, now, row, x.first, x.second, ClaimedRow(row, w, now), l);
  }

  lemma MarkTurn(x: Shared, w: WorkerName, j: JobId, isFirst: bool, now: Time, row: Row, n: nat, other: Local)
    requires OneAt(x, j, now, row, isFirst, Holding(j, n), other) && row.status.Claimed? && row.workerId == Some(w)
    ensures CanTake(x, w, Turn(isFirst, MarkJob(w, false)))
    ensures OneAt(Take(x, w, Turn(isFirst, MarkJob(w, false))), j, now, Fire(MarkRunning(w), row, now), isFirst,
        Marked(j, n), other)
  {
    MarkEffect(Seen(x, w, isFirst), w, j, n);
    StageStep(x, w, Turn(isFirst, MarkJob(w, false)), j, now, row, x.first, x.second, Fire(MarkRunning(w), row, now),
      Marked(j, n));
  }

  /** A process takes the message, claims the queued job and marks it running. */
  lemma Starts(xs: seq<Shared>, turns: seq<Turn>, w: WorkerName, j: JobId, isFirst: bool, now: Time, row: Row,
          other: Local)
    returns (xs': seq<Shared>, turns': seq<Turn>)
    requires IsSharedRun(xs, turns, w) && row.status.Queued? && RetryDue(row, now)
    requires OneAt(xs[|turns|], j, now, row, isFirst, Idle, other)
    ensures IsSharedRun(xs', turns', w)
    ensures OneAt(xs'[|turns'|], j, now, RunningRow(row, w, now), isFirst, Marked(j, row.attemptCount + 1), other)
  {
    DeliverTurn(xs[|turns|], w, j, isFirst, now, row, other);
    xs', turns' := Turned(xs, turns, w, Turn(isFirst, Deliver(w, j)));
    ClaimTurn(xs'[|turns'|], w, j, isFirst, now, row, other);
    xs', turns' := Turned(xs', turns', w, Turn(isFirst, ClaimJob(w, false)));
    MarkTurn(xs'[|turns'|], w, j, isFirst, now, ClaimedRow(row, w, now), row.attemptCount + 1, other);
    xs', turns' := Turned(xs', turns', w, Turn(isFirst, MarkJob(w, false)));
  }

  lemma FetchTurn(x: Shared, w: WorkerName, j: JobId, now: Time, row: Row)
    requires Stage(x, j, now, row, Marked(j, 1), Idle)
    ensures CanTake(x, w, Turn(true, FetchJob(w)))
    ensures Stage(Take(x, w, Turn(true, FetchJob(w))), j, now, row, Executing(j, 1, row.inputs, []), Idle)
  {
    StageStep(x, w, Turn(true, FetchJob(w)), j, now, row, x.first, x.second, row, Executing(j, 1, row.inputs, []));
  }

  lemma RunTurn(x: Shared, w: WorkerName, j: JobId, now: Time, row: Row, result: ExecutionResult)
    requires Stage(x, j, now, row, Executing(j, 1, row.inputs, []), Idle) && |row.inputs| == 1
    ensures CanTake(x, w, Turn(true, RunInput(w, result)))
    ensures Stage(Take(x, w, Turn(true, RunInput(w, result))), j, now, row, Executing(j, 1, row.inputs, [result]), Idle)
  {
    StageStep(x, w, Turn(true, RunInput(w, result)), j, now, row, x.first, x.second, row,
      Executing(j, 1, row.inputs, [result]));
  }

  /** The process fetches its job and runs its one input. */
  lemma Executes(xs: seq<Shared>, turns: seq<Turn>, w: WorkerName, j: JobId, now: Time, row: Row,
          result: ExecutionResult)
    returns (xs': seq<Shared>, turns': seq<Turn>)
    requires IsSharedRun(xs, turns, w) && Stage(xs[|turns|], j, now, row, Marked(j, 1), Idle) && |row.inputs| == 1
    ensures IsSharedRun(xs', turns', w)
    ensures Stage(xs'[|turns'|], j, now, row, Executing(j, 1, row.inputs, [result]), Idle)
  {
    FetchTurn(xs[|turns|], w, j, now, row);
    xs', turns' := Turned(xs, turns, w, Turn(true, FetchJob(w)));
    RunTurn(xs'[|turns'|], w, j, now, row, result);
    xs', turns' := Turned(xs', turns', w, Turn(true, RunInput(w, result)));
  }

  /** Its lease runs out and the job goes back to the queue. */
  lemma Expires(xs: seq<Shared>, turns: seq<Turn>, w: WorkerName, j: JobId, row: Row, first: Local)
    returns (xs': seq<Shared>, turns': seq<Turn>)
    requires IsSharedRun(xs, turns, w) && Stage(xs[|turns|], j, 0, row, first, Idle)
    ensures IsSharedRun(xs', turns', w)
    ensures Stage(xs'[|turns'|], j, LEASE_DURATION + 1, Fire(ExpireLease, row, LEASE_DURATION + 1), first, Idle)
  {
    var late := LEASE_DURATION + 1;
    StageStep(xs[|turns|], w, Turn(true, Tick(late)), j, 0, row, first, Idle, row, first);
    xs', turns' := Turned(xs, turns, w, Turn(true, Tick(late)));
    StageStep(xs'[|turns'|], w, Turn(true, RecoverAbandoned), j, late, row, first, Idle, Fire(ExpireLease, row, late),
      first);
    xs', turns' := Turned(xs', turns', w, Turn(true, RecoverAbandoned));
  }

  lemma Created(w: WorkerName, j: JobId, input: string) returns (xs: seq<Shared>, turns: seq<Turn>)
    ensures IsSharedRun(xs, turns, w) && Stage(xs[|turns|], j, 0, NewRow([input], 0, 2), Idle, Idle)
  {
    var x := Shared(State(0, map[], map[], [], false, map[], map[], {}, map[]), Idle, Idle);
    xs, turns := Turned([x], [], w, Turn(true, CreateJob(j, [input], 2)));
  }

  /** The first process completes the job, which is in its second attempt, with what it got in the first one. */
  ghost predicate StaleCompletion(xs: seq<Shared>, turns: seq<Turn>, w: WorkerName, j: JobId, stale: ExecutionResult) {
    && IsSharedRun(xs, turns, w) && |turns| > 0 && turns[|turns| - 1] == Turn(true, CompleteJob(w, false))
    && var before, after := xs[|turns| - 1], xs[|turns|];
    && before.first.Executing? && before.first.attempt == 1 && before.first.job == j && before.second == Marked(j, 2)
    && j in after.s.rows && after.s.rows[j].status.Completed? && after.s.rows[j].attemptCount == 2
    && after.s.rows[j].results == Some([stale])
    && forall e :: e in after.s.ran && e.job == j ==> e.attempt != 2
  }

  lemma CompleteTurn(xs: seq<Shared>, turns: seq<Turn>, w: WorkerName, j: JobId, now: Time, row: Row,
          stale: ExecutionResult)
    returns (xs': seq<Shared>, turns': seq<Turn>)
    requires IsSharedRun(xs, turns, w) && row.status.Running? && row.workerId == Some(w) && row.attemptCount == 2
        && |row.inputs| == 1
    requires Stage(xs[|turns|], j, now, row, Executing(j, 1, row.inputs, [stale]), Marked(j, 2))
    ensures StaleCompletion(xs', turns', w, j, stale)
  {
    var x, t := xs[|turns|], Turn(true, CompleteJob(w, false));
    assert Hits(Seen(x, w, true), t.a, j);
    StageStep(x, w, t, j, now, row, x.first, x.second, Fire(Complete(w, [stale]), row, now), Finishing(j));
    xs', turns' := Turned(xs, turns, w, t);
  }

  /** With two processes under one name, results of the first attempt can complete the second one, which ran nothing. */
  lemma SharedNameBreaksFencing(w: WorkerName, j: JobId, input: string, stale: ExecutionResult)
    ensures exists xs: seq<Shared>, turns: seq<Turn> :: StaleCompletion(xs, turns, w, j, stale)
  {
    var late, row := LEASE_DURATION + 1, NewRow([input], 0, 2);
    var view := Executing(j, 1, [input], [stale]);
    var xs, turns := Created(w, j, input);
    xs, turns := Starts(xs, turns, w, j, true, 0, row, Idle);
    row := RunningRow(row, w, 0);
    xs, turns := Executes(xs, turns, w, j, 0, row, stale);
    xs, turns := Expires(xs, turns, w, j, row, view);
    row := Fire(ExpireLease, row, late);
    xs, turns := Starts(xs, turns, w, j, false, late, row, view);
    xs, turns := CompleteTurn(xs, turns, w, j, late, RunningRow(row, w, late), stale);
  }
}
