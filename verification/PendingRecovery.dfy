/** The pending sweep as a whole: termination, single visits, and the recovery loop. */
module PendingRecovery {
  import opened JobRows
  import opened JobStore
  import opened Options
  import opened RedisQueue
  import opened PendingSweep

  /** complete: the scan reached the end of the pending list. */
  datatype SweepResult = SweepResult(st: Stream, visited: seq<Entry>, complete: bool)

  function Sweep(st: Stream, start: nat, look: Look, maxLen: int, open: bool, count: nat, minIdle: Time,
          now: Time): SweepResult
    requires StreamOk(st)
    decreases |Ahead(st, start)|
  {
    var b := XAutoClaim(st, start, count, minIdle, now);
    RoundKeepsStream(st, b, look, maxLen, open, now);
    var msgs, after := Messages(st, b), Round(st, b, look, maxLen, open, now);
    if NextStart(st, b) == 0 || msgs == [] then SweepResult(after, msgs, NextStart(st, b) == 0)
    else
      RoundProgress(st, start, look, maxLen, open, count, minIdle, now);
      var rest := Sweep(after, NextStart(st, b), look, maxLen, open, count, minIdle, now);
      rest.(visited := msgs + rest.visited)
  }

  /** One round of the sweep, and the rest of it. */
  lemma SweepRound(st: Stream, start: nat, look: Look, maxLen: int, open: bool, count: nat, minIdle: Time, now: Time)
    requires StreamOk(st)
    ensures
      var b := XAutoClaim(st, start, count, minIdle, now);
      var msgs, after := Messages(st, b), Round(st, b, look, maxLen, open, now);
      && StreamOk(after)
      && if NextStart(st, b) == 0 || msgs == [] then
        Sweep(st, start, look, maxLen, open, count, minIdle, now) == SweepResult(after, msgs, NextStart(st, b) == 0)
      else
        var rest := Sweep(after, NextStart(st, b), look, maxLen, open, count, minIdle, now);
        && Sweep(st, start, look, maxLen, open, count, minIdle, now) == rest.(visited := msgs + rest.visited)
        && |Ahead(after, NextStart(st, b))| < |Ahead(st, start)|
  {
    var b := XAutoClaim(st, start, count, minIdle, now);
    RoundKeepsStream(st, b, look, maxLen, open, now);
    if NextStart(st, b) != 0 && Messages(st, b) != [] {
      RoundProgress(st, start, look, maxLen, open, count, minIdle, now);
    }
  }

  /** The message is pending and idle. */
  ghost predicate WasIdle(st: Stream, e: Entry, minIdle: Time, now: Time) {
    exists p :: p in st.pending && p.id == e.id && Idle(p, minIdle, now)
  }

  /**
   The sweep visits messages in increasing order of id, each at most once, and only ones that were pending and
   idle.
   */
  lemma {:induction false} SweepVisitsOnce(st: Stream, start: nat, look: Look, maxLen: int, open: bool, count: nat,
          minIdle: Time, now: Time)
    requires StreamOk(st)
    ensures
      var r := Sweep(st, start, look, maxLen, open, count, minIdle, now);
      StreamOk(r.st) && IncreasingIds(r.visited) && forall e :: e in r.visited ==>
        e.id >= start && WasIdle(st, e, minIdle, now)
    decreases |Ahead(st, start)|
  {
    var b := XAutoClaim(st, start, count, minIdle, now);
    var msgs, after := Messages(st, b), Round(st, b, look, maxLen, open, now);
    RoundKeepsStream(st, b, look, maxLen, open, now);
    MessagesIncrease(st, start, count, minIdle, now);
    MessagesAreIdle(st, start, count, minIdle, now);
    if NextStart(st, b) != 0 && msgs != [] {
      RoundProgress(st, start, look, maxLen, open, count, minIdle, now);
      SweepVisitsOnce(after, NextStart(st, b), look, maxLen, open, count, minIdle, now);
      var rest := Sweep(after, NextStart(st, b), look, maxLen, open, count, minIdle, now);
      IncreasingConcat(msgs, rest.visited, NextStart(st, b));
      forall e | e in msgs + rest.visited
        ensures e.id >= start && WasIdle(st, e, minIdle, now)
      {
        if e !in msgs {
          assert WasIdle(after, e, minIdle, now);
          var p :| p in after.pending && p.id == e.id && Idle(p, minIdle, now);
          assert p in st.pending;
        }
      }
    }
  }

  lemma MessagesAreIdle(st: Stream, start: nat, count: nat, minIdle: Time, now: Time)
    requires StreamOk(st)
    ensures
      var b := XAutoClaim(st, start, count, minIdle, now);
      forall e :: e in Messages(st, b) ==>
        && e in st.entries && start <= e.id && (NextStart(st, b) > 0 ==> e.id < NextStart(st, b))
        && WasIdle(st, e, minIdle, now)
  {
    var b := XAutoClaim(st, start, count, minIdle, now);
    var msgs := Messages(st, b);
    forall e | e in msgs
      ensures e in st.entries && start <= e.id && (NextStart(st, b) > 0 ==> e.id < NextStart(st, b))
      ensures WasIdle(st, e, minIdle, now)
    {
      var k :| 0 <= k < |msgs| && msgs[k] == e;
      MessageAt(st, start, count, minIdle, now, k);
      assert st.pending[b.claimed[k]] in st.pending;
    }
  }

  lemma IncreasingConcat(first: seq<Entry>, second: seq<Entry>, bound: nat)
    requires IncreasingIds(first) && IncreasingIds(second)
    requires forall e :: e in first ==> e.id < bound
    requires forall e :: e in second ==> e.id >= bound
    ensures IncreasingIds(first + second)
  {
    var all := first + second;
    forall i, k | 0 <= i < k < |all|
      ensures all[i].id < all[k].id
    {
      assert if i < |first| then all[i] in first else all[i] in second;
      assert if k < |first| then all[k] in first else all[k] in second;
    }
  }

  // ----- Conservation -----

  lemma RoundConserves(st: Stream, start: nat, look: Look, maxLen: int, open: bool, count: nat, minIdle: Time,
          now: Time, j: JobId)
    requires StreamOk(st) && maxLen <= 0
    ensures
      var b := XAutoClaim(st, start, count, minIdle, now);
      var after := Round(st, b, look, maxLen, open, now);
      && st.entries <= after.entries
      && |OutstandingIds(after, j)| + LostCount(look, open, Messages(st, b), j) == |OutstandingIds(st, j)|
  {
    var b := XAutoClaim(st, start, count, minIdle, now);
    var msgs := Messages(st, b);
    HandedKeepsStream(st, b, now);
    HandedConserves(st, b, now, j);
    MessagesIncrease(st, start, count, minIdle, now);
    forall e | e in msgs
      ensures e in st.entries && e.id in PendingIds(Handed(st, b, now).pending)
    {
      var k :| 0 <= k < |msgs| && msgs[k] == e;
      MessageAt(st, start, count, minIdle, now, k);
    }
    HandleAllConserves(Handed(st, b, now), msgs, look, maxLen, open, j);
  }

  /** Without trimming, outstanding messages are lost only as the visited ones are. */
  lemma {:induction false} UntrimmedSweepConserves(st: Stream, start: nat, look: Look, maxLen: int, open: bool,
          count: nat, minIdle: Time, now: Time, j: JobId)
    requires StreamOk(st) && maxLen <= 0
    ensures
      var r := Sweep(st, start, look, maxLen, open, count, minIdle, now);
      |OutstandingIds(r.st, j)| + LostCount(look, open, r.visited, j) == |OutstandingIds(st, j)|
    decreases |Ahead(st, start)|
  {
    var b := XAutoClaim(st, start, count, minIdle, now);
    var msgs, after := Messages(st, b), Round(st, b, look, maxLen, open, now);
    RoundKeepsStream(st, b, look, maxLen, open, now);
    RoundConserves(st, start, look, maxLen, open, count, minIdle, now, j);
    if NextStart(st, b) != 0 && msgs != [] {
      RoundProgress(st, start, look, maxLen, open, count, minIdle, now);
      UntrimmedSweepConserves(after, NextStart(st, b), look, maxLen, open, count, minIdle, now, j);
      LostCountAdds(look, open, msgs, Sweep(after, NextStart(st, b), look, maxLen, open, count, minIdle, now).visited,
        j);
    }
  }

  // ----- The recovery loop -----

  /** The whole result, given what was visited so far and the result of going on. */
  ghost predicate Resumes(whole: SweepResult, visited: seq<Entry>, rest: SweepResult) {
    whole == rest.(visited := visited + rest.visited)
  }

  lemma ResumesLater(whole: SweepResult, visited: seq<Entry>, msgs: seq<Entry>, rest: SweepResult)
    requires Resumes(whole, visited, rest.(visited := msgs + rest.visited))
    ensures Resumes(whole, visited + msgs, rest)
  {
    assert visited + (msgs + rest.visited) == visited + msgs + rest.visited;
  }

  class Recovery {
    const queue: Queue
    const minIdle: Time
    const count: int

    constructor (queue: Queue, minIdle: Time, count: int)
      ensures this.queue == queue && this.minIdle == minIdle && this.count == count
    {
      this.queue, this.minIdle, this.count := queue, minIdle, count;
    }

    /** One message, by what reading its job finds. */
    method HandleOne(e: Entry, look: Look)
      modifies queue.server
      ensures queue.server.st == Handle(old(queue.server.st), e, look, queue.maxLen, !queue.closed)
    {
      if e.job.None? {
        queue.Ack(e.id);
        return;
      }
      var seen := look(e);
      if !seen.Found? {
        if seen.NotFound? {
          queue.Ack(e.id);
        }
        return;
      }
      if seen.status == Completed {
        queue.Ack(e.id);
      } else if seen.status == Running {
        queue.Ack(e.id);
      } else if seen.status == Queued {
        queue.Ack(e.id);
        var _ := queue.Enqueue(e.job.value, "run");
      }
    }

    method HandleBatch(msgs: seq<Entry>, look: Look)
      modifies queue.server
      ensures queue.server.st == HandleAll(old(queue.server.st), msgs, look, queue.maxLen, !queue.closed)
    {
      for i := 0 to |msgs|
        invariant HandleAll(queue.server.st, msgs[i..], look, queue.maxLen, !queue.closed) ==
          HandleAll(old(queue.server.st), msgs, look, queue.maxLen, !queue.closed)
      {
        assert msgs[i..][1..] == msgs[i + 1..];
        HandleOne(msgs[i], look);
      }
    }

    /** XAUTOCLAIM from the cursor, and the messages it hands over handled. */
    method RunRound(look: Look, start: nat, n: nat, now: Time) returns (msgs: seq<Entry>, nextStart: nat)
      modifies queue.server
      ensures
        var st := old(queue.server.st);
        var b := XAutoClaim(st, start, n, minIdle, now);
        && msgs == Messages(st, b) && nextStart == NextStart(st, b)
        && queue.server.st == Round(st, b, look, queue.maxLen, !queue.closed, now)
    {
      var b := XAutoClaim(queue.server.st, start, n, minIdle, now);
      msgs, nextStart := Messages(queue.server.st, b), NextStart(queue.server.st, b);
      queue.server.st := Handed(queue.server.st, b, now);
      HandleBatch(msgs, look);
    }

    /** The sweep; visited lists the messages it was handed. */
    method RunRecovery(look: Look, now: Time) returns (visited: seq<Entry>, complete: bool)
      requires StreamOk(queue.server.st)
      modifies queue.server
      ensures SweepResult(queue.server.st, visited, complete) ==
        Sweep(old(queue.server.st), 0, look, queue.maxLen, !queue.closed, EffectiveCount(count), minIdle, now)
    {
      var start, n := 0, EffectiveCount(count);
      ghost var maxLen, open := queue.maxLen, !queue.closed;
      ghost var whole := Sweep(queue.server.st, 0, look, maxLen, open, n, minIdle, now);
      visited := [];
      while true
        invariant StreamOk(queue.server.st)
        invariant Resumes(whole, visited, Sweep(queue.server.st, start, look, maxLen, open, n, minIdle, now))
        decreases |Ahead(queue.server.st, start)|
      {
        SweepRound(queue.server.st, start, look, maxLen, open, n, minIdle, now);
        var msgs, nextStart := RunRound(look, start, n, now);
        if nextStart == 0 || |msgs| == 0 {
          visited, complete := visited + msgs, nextStart == 0;
          return;
        }
        ResumesLater(whole, visited, msgs, Sweep(queue.server.st, nextStart, look, maxLen, open, n, minIdle, now));
        visited, start := visited + msgs, nextStart;
      }
    }
  }
}
