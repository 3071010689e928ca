/**
 What MAXLEN does to a sweep. The messages that a sweep adds may trim older ones, but it trims
 nothing that it has yet to look at, so trimming can be put off to its end.
 */
module SweepTrimming {
  import opened JobRows
  import opened JobStore
  import opened Options
  import opened PendingRecovery
  import opened PendingSweep
  import opened RedisQueue

  /** Every entry beyond the newest maxLen is older than c. */
  predicate Fits(entries: seq<Entry>, maxLen: int, c: nat) {
    0 < maxLen < |entries| ==> entries[|entries| - maxLen - 1].id < c
  }

  /**
   Nothing pending lies beyond the newest maxLen entries. A queue keeps its stream no longer than
   that, so this can fail only if MAXLEN was lowered and nothing was added since.
   */
  predicate StreamFits(st: Stream, maxLen: int) {
    st.pending != [] ==> Fits(st.entries, maxLen, st.pending[0].id)
  }

  /** Whatever was on the stream, one message added makes it fit. */
  lemma QueueKeepsStreamFitting(st: Stream, maxLen: int, job: Option<JobId>, kind: Option<string>)
    ensures maxLen > 0 ==> |XAdd(st, maxLen, job, kind).entries| <= maxLen
    ensures StreamFits(XAdd(st, maxLen, job, kind), maxLen)
  {
  }

  /** The stream trimmed once, if anything was added to it. */
  function Cut(full: Stream, lastId: nat, maxLen: int): Stream {
    if full.lastId == lastId then full else full.(entries := Trim(full.entries, maxLen))
  }

  lemma CutOk(full: Stream, lastId: nat, maxLen: int)
    requires StreamOk(full)
    ensures StreamOk(Cut(full, lastId, maxLen))
  {
  }

  // ----- One round -----

  lemma HandleCut(full: Stream, lastId: nat, e: Entry, look: Look, maxLen: int, open: bool)
    requires full.lastId >= lastId
    ensures Handle(Cut(full, lastId, maxLen), e, look, maxLen, open) ==
        Cut(Handle(full, e, look, 0, open), lastId, maxLen)
    ensures Handle(full, e, look, 0, open).lastId >= lastId
  {
    if ReactionTo(look, e).Requeue? && open {
      TrimTwice(full.entries, Entry(full.lastId + 1, e.job, Some("run")), maxLen);
    }
  }

  lemma {:induction false} HandleAllCut(full: Stream, lastId: nat, msgs: seq<Entry>, look: Look, maxLen: int,
          open: bool)
    requires full.lastId >= lastId
    ensures HandleAll(Cut(full, lastId, maxLen), msgs, look, maxLen, open) ==
        Cut(HandleAll(full, msgs, look, 0, open), lastId, maxLen)
    ensures HandleAll(full, msgs, look, 0, open).lastId >= lastId
    decreases |msgs|
  {
    if msgs != [] {
      HandleCut(full, lastId, msgs[0], look, maxLen, open);
      HandleAllCut(Handle(full, msgs[0], look, 0, open), lastId, msgs[1..], look, maxLen, open);
    }
  }

  lemma {:induction false} LookupSuffix(entries: seq<Entry>, n: nat, id: nat)
    requires n <= |entries| && forall k :: 0 <= k < n ==> entries[k].id != id
    ensures Lookup(entries[n..], id) == Lookup(entries, id)
  {
    if n > 0 {
      assert entries[n..] == entries[1..][n - 1..];
      LookupSuffix(entries[1..], n - 1, id);
    }
  }

  lemma OlderEntries(entries: seq<Entry>, n: nat, c: nat)
    requires forall i, k :: 0 <= i < k < |entries| ==> entries[i].id < entries[k].id
    requires 0 < n <= |entries| && entries[n - 1].id < c
    ensures forall k :: 0 <= k < n ==> entries[k].id < c
  {
  }

  lemma LookupCut(full: Stream, lastId: nat, maxLen: int, c: nat, id: nat)
    requires StreamOk(full) && Fits(full.entries, maxLen, c) && c <= id
    ensures Lookup(Cut(full, lastId, maxLen).entries, id) == Lookup(full.entries, id)
  {
    if 0 < maxLen < |full.entries| {
      OlderEntries(full.entries, |full.entries| - maxLen, c);
      LookupSuffix(full.entries, |full.entries| - maxLen, id);
    }
  }

  lemma {:induction false} ScanAgrees(full: Stream, cut: Stream, i: nat, budget: nat, count: nat, minIdle: Time,
          now: Time)
    requires full.pending == cut.pending && i <= |full.pending|
    requires forall k :: i <= k < |full.pending| ==>
      Lookup(cut.entries, full.pending[k].id) == Lookup(full.entries, full.pending[k].id)
    ensures Scan(cut, i, budget, count, minIdle, now) == Scan(full, i, budget, count, minIdle, now)
    decreases |full.pending| - i
  {
    if i < |full.pending| && budget > 0 && count > 0 {
      var spent := if Lookup(full.entries, full.pending[i].id).Some?
        && !Idle(full.pending[i], minIdle, now) then count else count - 1;
      ScanAgrees(full, cut, i + 1, budget - 1, spent, minIdle, now);
    }
  }

  /** Everything pending at or after the cursor is at or after c. */
  predicate AheadFrom(st: Stream, start: nat, c: nat) {
    forall p :: p in st.pending && p.id >= start ==> p.id >= c
  }

  /** XAUTOCLAIM sees no difference between the full stream and the trimmed one. */
  lemma BatchAgrees(full: Stream, lastId: nat, maxLen: int, start: nat, c: nat, count: nat, minIdle: Time, now: Time)
    requires StreamOk(full) && Fits(full.entries, maxLen, c) && AheadFrom(full, start, c)
    ensures XAutoClaim(Cut(full, lastId, maxLen), start, count, minIdle, now) ==
        XAutoClaim(full, start, count, minIdle, now)
    ensures
      var b := XAutoClaim(full, start, count, minIdle, now);
      Messages(Cut(full, lastId, maxLen), b) == Messages(full, b)
  {
    var i := Seek(full.pending, start);
    var cut := Cut(full, lastId, maxLen);
    forall k | i <= k < |full.pending|
      ensures Lookup(cut.entries, full.pending[k].id) == Lookup(full.entries, full.pending[k].id)
    {
      assert full.pending[i].id <= full.pending[k].id && full.pending[k] in full.pending;
      LookupCut(full, lastId, maxLen, c, full.pending[k].id);
    }
    ScanAgrees(full, cut, i, 10 * count, count, minIdle, now);
  }

  /** The entry that a fresh message pushes out is no younger than the message it replaces. */
  lemma FitsAdd(entries: seq<Entry>, added: Entry, maxLen: int, c: nat, q: nat)
    requires forall i, k :: 0 <= i < k < |entries| ==> entries[i].id < entries[k].id
    requires q < |entries| && c <= entries[q].id && Fits(entries, maxLen, c)
    ensures Fits(entries + [added], maxLen, entries[q].id + 1)
  {
    if 0 < maxLen <= |entries| {
      var n := |entries| - maxLen;
      assert n > 0 ==> q != n - 1;
      assert (entries + [added])[n] == entries[n];
    }
  }

  lemma FitsStep(full: Stream, e: Entry, look: Look, maxLen: int, open: bool, c: nat)
    requires StreamOk(full) && e in full.entries && c <= e.id && Fits(full.entries, maxLen, c)
    ensures Fits(Handle(full, e, look, 0, open).entries, maxLen, e.id + 1)
  {
    var q :| 0 <= q < |full.entries| && full.entries[q] == e;
    FitsAdd(full.entries, Entry(full.lastId + 1, e.job, Some("run")), maxLen, c, q);
  }

  lemma {:induction false} FitsAll(full: Stream, msgs: seq<Entry>, look: Look, maxLen: int, open: bool, c: nat,
          next: nat)
    requires StreamOk(full) && IncreasingIds(msgs) && Fits(full.entries, maxLen, c) && c <= next
    requires forall e :: e in msgs ==> e in full.entries && c <= e.id < next
    ensures Fits(HandleAll(full, msgs, look, 0, open).entries, maxLen, next)
    decreases |msgs|
  {
    if msgs != [] {
      var after := Handle(full, msgs[0], look, 0, open);
      HandleKeepsStream(full, msgs[0], look, 0, open);
      FitsStep(full, msgs[0], look, maxLen, open, c);
      forall e | e in msgs[1..]
        ensures e in after.entries && msgs[0].id + 1 <= e.id < next
      {
        var k :| 0 <= k < |msgs[1..]| && msgs[1..][k] == e;
        assert msgs[k + 1] == e && e in msgs;
      }
      FitsAll(after, msgs[1..], look, maxLen, open, msgs[0].id + 1, next);
    }
  }

  lemma RoundCut(full: Stream, lastId: nat, b: Batch, look: Look, maxLen: int, open: bool, now: Time)
    requires full.lastId >= lastId
    requires forall k :: 0 <= k < |b.claimed| ==> b.claimed[k] < |full.pending|
    requires forall k :: 0 <= k < |b.claimed| ==> Lookup(full.entries, full.pending[b.claimed[k]].id).Some?
    requires forall k :: 0 <= k < |b.claimed| ==>
      Lookup(Cut(full, lastId, maxLen).entries, full.pending[b.claimed[k]].id).Some?
    requires Messages(Cut(full, lastId, maxLen), b) == Messages(full, b)
    ensures Round(Cut(full, lastId, maxLen), b, look, maxLen, open, now) ==
        Cut(Round(full, b, look, 0, open, now), lastId, maxLen)
    ensures Round(full, b, look, 0, open, now).lastId >= lastId
  {
    HandleAllCut(Handed(full, b, now), lastId, Messages(full, b), look, maxLen, open);
  }

  lemma FitsAfterRound(full: Stream, look: Look, maxLen: int, open: bool, start: nat, c: nat, count: nat,
          minIdle: Time, now: Time, next: nat)
    requires StreamOk(full) && Fits(full.entries, maxLen, c) && AheadFrom(full, start, c) && c <= next
    requires forall e :: e in Messages(full, XAutoClaim(full, start, count, minIdle, now)) ==> e.id < next
    ensures Fits(Round(full, XAutoClaim(full, start, count, minIdle, now), look, 0, open, now).entries, maxLen, next)
  {
    var b := XAutoClaim(full, start, count, minIdle, now);
    var msgs := Messages(full, b);
    HandedKeepsStream(full, b, now);
    MessagesIncrease(full, start, count, minIdle, now);
    forall e | e in msgs
      ensures e in full.entries && c <= e.id
    {
      var k :| 0 <= k < |msgs| && msgs[k] == e;
      MessageAt(full, start, count, minIdle, now, k);
    }
    FitsAll(Handed(full, b, now), msgs, look, maxLen, open, c, next);
  }

  // ----- The whole sweep -----

  /** The sweep of the trimmed stream is that of the full one, trimmed. */
  ghost predicate SameButCut(full: Stream, lastId: nat, start: nat, look: Look, maxLen: int, open: bool, count: nat,
          minIdle: Time, now: Time)
    requires StreamOk(full) && StreamOk(Cut(full, lastId, maxLen))
  {
    var u := Sweep(full, start, look, 0, open, count, minIdle, now);
    && Sweep(Cut(full, lastId, maxLen), start, look, maxLen, open, count, minIdle, now) ==
      u.(st := Cut(u.st, lastId, maxLen))
    && u.st.lastId >= lastId
    && Fits(u.st.entries, maxLen, u.st.delivered + 1)
  }

  lemma AheadOfNext(full: Stream, b: Batch)
    requires StreamOk(full) && b.stop < |full.pending|
    ensures NextStart(full, b) <= full.delivered
  {
    assert full.pending[b.stop] in full.pending;
  }

  lemma RoundKeepsDelivered(st: Stream, b: Batch, look: Look, maxLen: int, open: bool, now: Time)
    requires StreamOk(st)
    requires forall k :: 0 <= k < |b.claimed| ==> b.claimed[k] < |st.pending|
    requires forall k :: 0 <= k < |b.claimed| ==> Lookup(st.entries, st.pending[b.claimed[k]].id).Some?
    ensures Round(st, b, look, maxLen, open, now).delivered == st.delivered
  {
    HandedKeepsStream(st, b, now);
    HandleAllKeepsStream(Handed(st, b, now), Messages(st, b), look, maxLen, open);
  }

  lemma MessagesBelow(st: Stream, start: nat, count: nat, minIdle: Time, now: Time, e: Entry)
    requires StreamOk(st) && e in Messages(st, XAutoClaim(st, start, count, minIdle, now))
    ensures
      var b := XAutoClaim(st, start, count, minIdle, now);
      e.id <= st.delivered && (NextStart(st, b) > 0 ==> e.id < NextStart(st, b))
  {
    var msgs := Messages(st, XAutoClaim(st, start, count, minIdle, now));
    var k :| 0 <= k < |msgs| && msgs[k] == e;
    MessageAt(st, start, count, minIdle, now, k);
    var p :| p in st.pending && p.id == e.id;
  }

  lemma {:induction false} SweepCut(full: Stream, lastId: nat, start: nat, c: nat, look: Look, maxLen: int,
          open: bool, count: nat, minIdle: Time, now: Time)
    requires StreamOk(full) && StreamOk(Cut(full, lastId, maxLen)) && full.lastId >= lastId
    requires Fits(full.entries, maxLen, c) && AheadFrom(full, start, c) && c <= full.delivered + 1
    ensures SameButCut(full, lastId, start, look, maxLen, open, count, minIdle, now)
    decreases |Ahead(full, start)|
  {
    var b := XAutoClaim(full, start, count, minIdle, now);
    var msgs, after := Messages(full, b), Round(full, b, look, 0, open, now);
    BatchAgrees(full, lastId, maxLen, start, c, count, minIdle, now);
    RoundCut(full, lastId, b, look, maxLen, open, now);
    SweepRound(full, start, look, 0, open, count, minIdle, now);
    SweepRound(Cut(full, lastId, maxLen), start, look, maxLen, open, count, minIdle, now);
    RoundKeepsDelivered(full, b, look, 0, open, now);
    forall e | e in msgs
      ensures e.id <= full.delivered && (NextStart(full, b) > 0 ==> e.id < NextStart(full, b))
    {
      MessagesBelow(full, start, count, minIdle, now, e);
    }
    if NextStart(full, b) == 0 || msgs == [] {
      FitsAfterRound(full, look, maxLen, open, start, c, count, minIdle, now, full.delivered + 1);
    } else {
      NextRound(full, lastId, start, c, look, maxLen, open, count, minIdle, now);
      SweepCut(after, lastId, NextStart(full, b), NextStart(full, b), look, maxLen, open, count, minIdle, now);
    }
  }

  lemma NextRound(full: Stream, lastId: nat, start: nat, c: nat, look: Look, maxLen: int, open: bool, count: nat,
          minIdle: Time, now: Time)
    requires StreamOk(full) && Fits(full.entries, maxLen, c) && AheadFrom(full, start, c)
    requires var b := XAutoClaim(full, start, count, minIdle, now); Messages(full, b) != [] && NextStart(full, b) > 0
    ensures
      var b := XAutoClaim(full, start, count, minIdle, now);
      var after := Round(full, b, look, 0, open, now);
      && StreamOk(after) && StreamOk(Cut(after, lastId, maxLen)) && NextStart(full, b) <= after.delivered
      && Fits(after.entries, maxLen, NextStart(full, b))
  {
    var b := XAutoClaim(full, start, count, minIdle, now);
    RoundKeepsStream(full, b, look, 0, open, now);
    CutOk(Round(full, b, look, 0, open, now), lastId, maxLen);
    RoundKeepsDelivered(full, b, look, 0, open, now);
    AheadOfNext(full, b);
    MessageAt(full, start, count, minIdle, now, 0);
    forall e | e in Messages(full, b)
      ensures e.id < NextStart(full, b)
    {
      MessagesBelow(full, start, count, minIdle, now, e);
    }
    FitsAfterRound(full, look, maxLen, open, start, c, count, minIdle, now, NextStart(full, b));
  }

  /** A sweep with MAXLEN visits and acknowledges what it would without, and leaves that stream trimmed once. */
  lemma TrimmingComesLast(st: Stream, look: Look, maxLen: int, open: bool, count: nat, minIdle: Time, now: Time)
    requires StreamOk(st) && StreamFits(st, maxLen)
    ensures
      var u := Sweep(st, 0, look, 0, open, count, minIdle, now);
      Sweep(st, 0, look, maxLen, open, count, minIdle, now) == u.(st := Cut(u.st, st.lastId, maxLen))
  {
    if st.pending != [] {
      assert AheadFrom(st, 0, st.pending[0].id);
      assert st.pending[0] in st.pending;
      SweepCut(st, st.lastId, 0, st.pending[0].id, look, maxLen, open, count, minIdle, now);
    }
  }

  // ----- What is added -----

  /** How many of the messages are replaced by fresh ones. */
  function Requeues(look: Look, open: bool, msgs: seq<Entry>): nat {
    if msgs == [] then 0
    else (if ReactionTo(look, msgs[0]).Requeue? && open then 1 else 0) + Requeues(look, open, msgs[1..])
  }

  lemma {:induction false} RequeuesAdd(look: Look, open: bool, first: seq<Entry>, second: seq<Entry>)
    ensures Requeues(look, open, first + second) == Requeues(look, open, first) + Requeues(look, open, second)
  {
    if first == [] {
      assert first + second == second;
    } else {
      assert (first + second)[1..] == first[1..] + second;
      RequeuesAdd(look, open, first[1..], second);
    }
  }

  lemma {:induction false} RequeuesBound(look: Look, open: bool, msgs: seq<Entry>)
    ensures Requeues(look, open, msgs) <= |msgs|
  {
    if msgs != [] {
      RequeuesBound(look, open, msgs[1..]);
    }
  }

  /** The stream after n messages were added and none trimmed. */
  ghost predicate Grown(st: Stream, after: Stream, n: nat) {
    && st.entries <= after.entries && |after.entries| == |st.entries| + n
    && after.lastId == st.lastId + n && after.delivered == st.delivered
    && forall k :: |st.entries| <= k < |after.entries| ==> after.entries[k].id > st.lastId
  }

  lemma GrownFurther(st: Stream, mid: Stream, after: Stream, m: nat, n: nat)
    requires Grown(st, mid, m) && Grown(mid, after, n)
    ensures Grown(st, after, m + n)
  {
    forall k | |st.entries| <= k < |after.entries|
      ensures after.entries[k].id > st.lastId
    {
      assert k < |mid.entries| ==> after.entries[k] == mid.entries[k];
    }
  }

  lemma {:induction false} HandleAllGrows(st: Stream, msgs: seq<Entry>, look: Look, open: bool)
    ensures Grown(st, HandleAll(st, msgs, look, 0, open), Requeues(look, open, msgs))
    decreases |msgs|
  {
    if msgs != [] {
      var next := Handle(st, msgs[0], look, 0, open);
      HandleAllGrows(next, msgs[1..], look, open);
      assert Requeues(look, open, [msgs[0]]) == if ReactionTo(look, msgs[0]).Requeue? && open then 1 else 0;
      GrownFurther(st, next, HandleAll(st, msgs, look, 0, open), Requeues(look, open, [msgs[0]]),
        Requeues(look, open, msgs[1..]));
    }
  }

  lemma {:induction false} UntrimmedSweepGrows(st: Stream, start: nat, look: Look, open: bool, count: nat,
          minIdle: Time, now: Time)
    requires StreamOk(st)
    ensures
      var u := Sweep(st, start, look, 0, open, count, minIdle, now);
      StreamOk(u.st) && Grown(st, u.st, Requeues(look, open, u.visited))
    decreases |Ahead(st, start)|
  {
    var b := XAutoClaim(st, start, count, minIdle, now);
    var msgs, after := Messages(st, b), Round(st, b, look, 0, open, now);
    SweepRound(st, start, look, 0, open, count, minIdle, now);
    HandleAllGrows(Handed(st, b, now), msgs, look, open);
    assert Grown(st, after, Requeues(look, open, msgs));
    if NextStart(st, b) != 0 && msgs != [] {
      var rest := Sweep(after, NextStart(st, b), look, 0, open, count, minIdle, now);
      UntrimmedSweepGrows(after, NextStart(st, b), look, open, count, minIdle, now);
      RequeuesAdd(look, open, msgs, rest.visited);
      GrownFurther(st, after, rest.st, Requeues(look, open, msgs), Requeues(look, open, rest.visited));
    }
  }

  // ----- Conservation -----

  /** The messages for job j that are still pending although the sweep trimmed them away. */
  ghost function Abandoned(before: Stream, after: Stream, j: JobId): set<nat> {
    set e | e in before.entries && IsFor(e, j) && e.id in PendingIds(after.pending) && e !in after.entries :: e.id
  }

  lemma EntryAt(st: Stream, e: Entry, f: Entry)
    requires StreamOk(st) && e in st.entries && f in st.entries && e.id == f.id
    ensures e == f
  {
    var i :| 0 <= i < |st.entries| && st.entries[i] == e;
    var k :| 0 <= k < |st.entries| && st.entries[k] == f;
  }

  /** A trimmed entry is not new, and was delivered. */
  lemma TrimmedIsOld(st: Stream, u: Stream, n: nat, maxLen: int, e: Entry)
    requires StreamOk(st) && StreamOk(u) && Grown(st, u, n) && Fits(u.entries, maxLen, u.delivered + 1)
    requires e in u.entries && e !in Cut(u, st.lastId, maxLen).entries
    ensures e in st.entries && e.id <= u.delivered
  {
    var k :| 0 <= k < |u.entries| && u.entries[k] == e;
    OlderEntries(u.entries, |u.entries| - maxLen, u.delivered + 1);
    InTrimmed(u.entries, maxLen, k);
  }

  lemma InTrimmed(entries: seq<Entry>, maxLen: int, k: nat)
    requires k < |entries|
    ensures maxLen <= 0 || k >= |entries| - maxLen ==> entries[k] in Trim(entries, maxLen)
  {
    if 0 < maxLen < |entries| && k >= |entries| - maxLen {
      assert Trim(entries, maxLen)[k - (|entries| - maxLen)] == entries[k];
    }
  }

  lemma OutstandingOrAbandoned(st: Stream, u: Stream, n: nat, maxLen: int, j: JobId, id: nat)
    requires StreamOk(st) && StreamOk(u) && Grown(st, u, n) && Fits(u.entries, maxLen, u.delivered + 1)
    requires id in OutstandingIds(u, j)
    ensures var after := Cut(u, st.lastId, maxLen); id in OutstandingIds(after, j) || id in Abandoned(st, after, j)
  {
    var e :| e in u.entries && IsFor(e, j) && (e.id > u.delivered || e.id in PendingIds(u.pending)) && e.id == id;
    if e !in Cut(u, st.lastId, maxLen).entries {
      TrimmedIsOld(st, u, n, maxLen, e);
    }
  }

  lemma AbandonedWasOutstanding(st: Stream, u: Stream, n: nat, maxLen: int, j: JobId, id: nat)
    requires StreamOk(u) && Grown(st, u, n) && id in Abandoned(st, Cut(u, st.lastId, maxLen), j)
    ensures id in OutstandingIds(u, j) && id !in OutstandingIds(Cut(u, st.lastId, maxLen), j)
  {
    var after := Cut(u, st.lastId, maxLen);
    var e :| e in st.entries && IsFor(e, j) && e.id in PendingIds(after.pending) && e !in after.entries && e.id == id;
    assert e in u.entries;
    forall f | f in after.entries
      ensures f.id != id
    {
      assert f in u.entries;
      if f.id == id {
        EntryAt(u, e, f);
      }
    }
  }

  lemma CutOutstanding(st: Stream, u: Stream, n: nat, maxLen: int, j: JobId)
    requires StreamOk(st) && StreamOk(u) && Grown(st, u, n) && Fits(u.entries, maxLen, u.delivered + 1)
    ensures
      var after := Cut(u, st.lastId, maxLen);
      |OutstandingIds(after, j)| + |Abandoned(st, after, j)| == |OutstandingIds(u, j)|
  {
    var after := Cut(u, st.lastId, maxLen);
    var a, b, all := OutstandingIds(after, j), Abandoned(st, after, j), OutstandingIds(u, j);
    forall id | id in all
      ensures id in a || id in b
    {
      OutstandingOrAbandoned(st, u, n, maxLen, j, id);
    }
    forall id | id in b
      ensures id in all && id !in a
    {
      AbandonedWasOutstanding(st, u, n, maxLen, j, id);
    }
    assert a <= all;
    Partition(a, b, all);
  }

  lemma Partition(a: set<nat>, b: set<nat>, all: set<nat>)
    requires a <= all && a !! b && b <= all && forall id :: id in all ==> id in a || id in b
    ensures |a| + |b| == |all|
  {
    assert all == a + b;
  }

  /** The untrimmed sweep behind a sweep with MAXLEN. */
  lemma SweepByTrimming(st: Stream, look: Look, maxLen: int, open: bool, count: nat, minIdle: Time,
          now: Time) returns (u: SweepResult)
    requires StreamOk(st) && StreamFits(st, maxLen)
    ensures u == Sweep(st, 0, look, 0, open, count, minIdle, now)
    ensures Sweep(st, 0, look, maxLen, open, count, minIdle, now) == u.(st := Cut(u.st, st.lastId, maxLen))
    ensures StreamOk(u.st) && Grown(st, u.st, Requeues(look, open, u.visited))
    ensures st.pending != [] ==> Fits(u.st.entries, maxLen, u.st.delivered + 1)
    ensures st.pending == [] ==> u.st == st && u.visited == []
  {
    u := Sweep(st, 0, look, 0, open, count, minIdle, now);
    TrimmingComesLast(st, look, maxLen, open, count, minIdle, now);
    UntrimmedSweepGrows(st, 0, look, open, count, minIdle, now);
    if st.pending != [] {
      assert AheadFrom(st, 0, st.pending[0].id);
      assert st.pending[0] in st.pending;
      SweepCut(st, st.lastId, 0, st.pending[0].id, look, maxLen, open, count, minIdle, now);
    }
  }

  /**
   Whatever each read of a job finds and whatever is trimmed: the outstanding messages of a job
   fall by its visited ones that are acknowledged and not replaced, and by those that are still
   pending but trimmed away.
   */
  lemma SweepConserves(st: Stream, look: Look, maxLen: int, open: bool, count: nat, minIdle: Time, now: Time, j: JobId)
    requires StreamOk(st) && StreamFits(st, maxLen)
    ensures
      var r := Sweep(st, 0, look, maxLen, open, count, minIdle, now);
      |OutstandingIds(r.st, j)| + LostCount(look, open, r.visited, j) + |Abandoned(st, r.st, j)| ==
        |OutstandingIds(st, j)|
  {
    var u := SweepByTrimming(st, look, maxLen, open, count, minIdle, now);
    UntrimmedSweepConserves(st, 0, look, 0, open, count, minIdle, now, j);
    if st.pending != [] {
      CutOutstanding(st, u.st, Requeues(look, open, u.visited), maxLen, j);
    } else {
      assert Abandoned(st, st, j) == {};
    }
  }

  /** Which messages a sweep trims away: the oldest ones, one for each that it adds to a full stream. */
  lemma TrimmedIff(st: Stream, look: Look, maxLen: int, open: bool, count: nat, minIdle: Time, now: Time, k: nat)
    requires StreamOk(st) && StreamFits(st, maxLen) && k < |st.entries|
    ensures
      var r := Sweep(st, 0, look, maxLen, open, count, minIdle, now);
      var added := Requeues(look, open, r.visited);
      st.entries[k] !in r.st.entries <==> added > 0 && maxLen > 0 && k + maxLen < |st.entries| + added
  {
    var u := SweepByTrimming(st, look, maxLen, open, count, minIdle, now);
    var t := |u.st.entries| - maxLen;
    var after := Cut(u.st, st.lastId, maxLen);
    assert u.st.entries[k] == st.entries[k];
    if u.st.lastId > st.lastId && 0 < maxLen < |u.st.entries| {
      if k >= t {
        assert after.entries[k - t] == st.entries[k];
      }
    }
  }

  // ----- Conservation by status -----

  /** How many of the messages were for job j. */
  function VisitCount(msgs: seq<Entry>, j: JobId): nat {
    if msgs == [] then 0 else (if IsFor(msgs[0], j) then 1 else 0) + VisitCount(msgs[1..], j)
  }

  /** What a read of a table finds. */
  function In(rows: Table): Look {
    (e: Entry) => if e.job.Some? && e.job.value in rows then Found(rows[e.job.value].status) else NotFound
  }

  /** The statuses whose messages survive a visit: one is left pending, or a fresh one takes its place. */
  predicate Survives(rows: Table, j: JobId) {
    j in rows && rows[j].status !in {Completed, Running}
  }

  lemma {:induction false} LostCountByStatus(rows: Table, msgs: seq<Entry>, j: JobId)
    ensures LostCount(In(rows), true, msgs, j) == if Survives(rows, j) then 0 else VisitCount(msgs, j)
  {
    if msgs != [] {
      LostCountByStatus(rows, msgs[1..], j);
    }
  }

  /**
   With an open queue, a sweep leaves the number of outstanding messages of a job that stays
   QUEUED, CLAIMED or DEAD_LETTERED as it is, and lowers that of a COMPLETED, RUNNING or unknown
   job by exactly the messages it visited, apart from pending messages that it trims away.
   */
  lemma SweepConservation(st: Stream, rows: Table, maxLen: int, count: nat, minIdle: Time, now: Time, j: JobId)
    requires StreamOk(st) && StreamFits(st, maxLen)
    ensures
      var r := Sweep(st, 0, In(rows), maxLen, true, count, minIdle, now);
      |OutstandingIds(r.st, j)| ==
        |OutstandingIds(st, j)| - |Abandoned(st, r.st, j)| - if Survives(rows, j) then 0 else VisitCount(r.visited, j)
  {
    SweepConserves(st, In(rows), maxLen, true, count, minIdle, now, j);
    LostCountByStatus(rows, Sweep(st, 0, In(rows), maxLen, true, count, minIdle, now).visited, j);
  }

  // ----- When nothing is trimmed away -----

  /** However many pending messages are replaced, the messages that this trims are not pending. */
  ghost predicate Roomy(st: Stream, maxLen: int) {
    forall k :: 0 <= k < |st.entries| && maxLen > 0 && k + maxLen < |st.entries| + |st.pending| ==>
      st.entries[k].id !in PendingIds(st.pending)
  }

  lemma {:induction false} IncreasingSize(msgs: seq<Entry>, ids: set<nat>)
    requires IncreasingIds(msgs) && forall e :: e in msgs ==> e.id in ids
    ensures |msgs| <= |ids|
  {
    if msgs != [] {
      var n := |msgs| - 1;
      assert msgs[n] in msgs;
      forall e | e in msgs[..n]
        ensures e.id in ids - {msgs[n].id}
      {
        assert e in msgs;
      }
      IncreasingSize(msgs[..n], ids - {msgs[n].id});
    }
  }

  lemma {:induction false} PendingIdsSize(ps: seq<Pending>)
    ensures |PendingIds(ps)| <= |ps|
  {
    if ps != [] {
      assert ps == [ps[0]] + ps[1..];
      PendingIdsCons(ps[0], ps[1..]);
      PendingIdsSize(ps[1..]);
    }
  }

  lemma VisitsAreFew(st: Stream, look: Look, maxLen: int, open: bool, count: nat, minIdle: Time, now: Time)
    requires StreamOk(st)
    ensures |Sweep(st, 0, look, maxLen, open, count, minIdle, now).visited| <= |st.pending|
  {
    var visited := Sweep(st, 0, look, maxLen, open, count, minIdle, now).visited;
    SweepVisitsOnce(st, 0, look, maxLen, open, count, minIdle, now);
    forall e | e in visited
      ensures e.id in PendingIds(st.pending)
    {
      assert WasIdle(st, e, minIdle, now);
    }
    IncreasingSize(visited, PendingIds(st.pending));
    PendingIdsSize(st.pending);
  }

  lemma PendingShrinks(st: Stream, look: Look, open: bool, start: nat, count: nat, minIdle: Time, now: Time)
    requires StreamOk(st)
    ensures PendingIds(Sweep(st, start, look, 0, open, count, minIdle, now).st.pending) <= PendingIds(st.pending)
    decreases |Ahead(st, start)|
  {
    var b := XAutoClaim(st, start, count, minIdle, now);
    SweepRound(st, start, look, 0, open, count, minIdle, now);
    RoundKeepsStream(st, b, look, 0, open, now);
    if NextStart(st, b) != 0 && Messages(st, b) != [] {
      PendingShrinks(Round(st, b, look, 0, open, now), look, open, NextStart(st, b), count, minIdle, now);
    }
  }

  /**
   With room in that sense a sweep trims no pending message away; a stream below MAXLEN
   by the number of pending messages has it.
   */
  lemma RoomyStreamsLoseNothing(st: Stream, look: Look, maxLen: int, open: bool, count: nat, minIdle: Time, now: Time,
          j: JobId)
    requires StreamOk(st) && StreamFits(st, maxLen) && Roomy(st, maxLen)
    ensures Abandoned(st, Sweep(st, 0, look, maxLen, open, count, minIdle, now).st, j) == {}
  {
    var r := Sweep(st, 0, look, maxLen, open, count, minIdle, now);
    var u := SweepByTrimming(st, look, maxLen, open, count, minIdle, now);
    PendingShrinks(st, look, open, 0, count, minIdle, now);
    forall e | e in st.entries && e !in r.st.entries
      ensures e.id !in PendingIds(st.pending)
    {
      TrimmedNotPending(st, look, maxLen, open, count, minIdle, now, e);
    }
  }

  lemma TrimmedNotPending(st: Stream, look: Look, maxLen: int, open: bool, count: nat, minIdle: Time, now: Time,
          e: Entry)
    requires StreamOk(st) && StreamFits(st, maxLen) && Roomy(st, maxLen)
    requires e in st.entries && e !in Sweep(st, 0, look, maxLen, open, count, minIdle, now).st.entries
    ensures e.id !in PendingIds(st.pending)
  {
    var k :| 0 <= k < |st.entries| && st.entries[k] == e;
    VisitsAreFew(st, look, maxLen, open, count, minIdle, now);
    RequeuesBound(look, open, Sweep(st, 0, look, maxLen, open, count, minIdle, now).visited);
    TrimmedIff(st, look, maxLen, open, count, minIdle, now, k);
  }

  // ----- A message that is lost to trimming -----

  /** A full stream of two messages, both pending and idle. */
  function FullStream(a: JobId, b: JobId): Stream {
    Stream([Entry(1, Some(a), Some("run")), Entry(2, Some(b), Some("run"))], 2, 2,
      [Pending(1, "worker", 0), Pending(2, "worker", 0)])
  }

  lemma {:induction false} FullBatch(a: JobId, b: JobId, now: Time)
    requires now >= 0
    ensures XAutoClaim(FullStream(a, b), 0, 2, 0, now) == Batch([0, 1], {}, 2)
  {
    var st := FullStream(a, b);
    assert Lookup(st.entries, 1) == Some(st.entries[0]) && Lookup(st.entries, 2) == Some(st.entries[1]);
    assert Seek(st.pending, 0) == 0;
    assert Scan(st, 2, 18, 0, 0, now) == Batch([], {}, 2);
    assert Scan(st, 1, 19, 1, 0, now) == Batch([1], {}, 2);
  }

  lemma {:induction false} FullHanded(a: JobId, b: JobId, now: Time)
    ensures Handed(FullStream(a, b), Batch([0, 1], {}, 2), now).pending ==
      [Pending(1, RECOVERY_CONSUMER, now), Pending(2, RECOVERY_CONSUMER, now)]
  {
    var ps := FullStream(a, b).pending;
    var ids := {1, 2};
    assert (set k | 0 <= k < 2 :: ps[[0, 1][k]].id) == ids by {
      assert ps[[0, 1][0]].id == 1 && ps[[0, 1][1]].id == 2;
    }
    assert ps[1..][1..] == [];
    assert Reassign(ps[1..], ids, {}, now) == [Pending(2, RECOVERY_CONSUMER, now)];
    assert Reassign(ps, ids, {}, now) == [Pending(1, RECOVERY_CONSUMER, now)] + Reassign(ps[1..], ids, {}, now);
  }

  lemma OnlyAbandoned(st: Stream, after: Stream, a: JobId)
    requires |st.entries| == 2 && IsFor(st.entries[0], a) && !IsFor(st.entries[1], a)
    requires st.entries[0].id in PendingIds(after.pending) && st.entries[0] !in after.entries
    ensures Abandoned(st, after, a) == {st.entries[0].id}
  {
  }

  lemma {:induction false} FullSweep(a: JobId, b: JobId, look: Look, now: Time)
    requires now >= 0
    ensures
      var st := FullStream(a, b);
      StreamOk(st) && Sweep(st, 0, look, 2, true, 2, 0, now).st ==
        HandleAll(Handed(st, Batch([0, 1], {}, 2), now), st.entries, look, 2, true)
  {
    var st := FullStream(a, b);
    FullBatch(a, b, now);
    SweepRound(st, 0, look, 2, true, 2, 0, now);
    assert Messages(st, Batch([0, 1], {}, 2)) == st.entries;
  }

  /**
   One job is CLAIMED, so its message stays pending; the other is QUEUED, and
   its fresh message pushes the first one out.
   */
  lemma {:induction false} PendingMessageCanBeTrimmed(a: JobId, b: JobId, rows: Table, now: Time)
    requires a != b && a in rows && rows[a].status.Claimed? && b in rows && rows[b].status.Queued? && now >= 0
    ensures
      var st := FullStream(a, b);
      var r := Sweep(st, 0, In(rows), 2, true, 2, 0, now);
      StreamOk(st) && StreamFits(st, 2) && Survives(rows, a) && Abandoned(st, r.st, a) == {1}
  {
    var st := FullStream(a, b);
    FullSweep(a, b, In(rows), now);
    FullHanded(a, b, now);
    KeptIsAbandoned(st, Handed(st, Batch([0, 1], {}, 2), now), In(rows), a);
  }

  lemma {:induction false} KeptIsAbandoned(st: Stream, handed: Stream, look: Look, a: JobId)
    requires |st.entries| == 2 && IsFor(st.entries[0], a) && !IsFor(st.entries[1], a) && handed.entries == st.entries
    requires ReactionTo(look, st.entries[0]).Keep? && ReactionTo(look, st.entries[1]).Requeue?
    requires |handed.pending| == 2 && handed.pending[0].id == st.entries[0].id
        && handed.pending[1].id == st.entries[1].id
    requires st.entries[0].id < st.entries[1].id <= handed.lastId
    ensures Abandoned(st, HandleAll(handed, st.entries, look, 2, true), a) == {st.entries[0].id}
  {
    var after := HandleAll(handed, st.entries, look, 2, true);
    KeepThenRequeue(handed, st.entries, look);
    assert after.pending[0] in after.pending;
    OnlyAbandoned(st, after, a);
  }

  lemma {:induction false} KeepThenRequeue(st: Stream, msgs: seq<Entry>, look: Look)
    requires |msgs| == 2 && ReactionTo(look, msgs[0]).Keep? && ReactionTo(look, msgs[1]).Requeue?
    requires st.entries == msgs && |st.pending| == 2 && st.pending[0].id != msgs[1].id && st.pending[1].id == msgs[1].id
    ensures
      var after := HandleAll(st, msgs, look, 2, true);
      && after.pending == [st.pending[0]]
      && after.entries == [msgs[1], Entry(st.lastId + 1, msgs[1].job, Some("run"))]
  {
    var second := msgs[1..];
    assert second == [msgs[1]] && second[1..] == [];
    var after := Handle(st, msgs[1], look, 2, true);
    assert HandleAll(after, [], look, 2, true) == after;
    assert HandleAll(st, second, look, 2, true) == HandleAll(after, second[1..], look, 2, true);
    assert st.pending[1..][1..] == [];
    assert Without(st.pending[1..], msgs[1].id) == [];
    assert Without(st.pending, msgs[1].id) == [st.pending[0]] + Without(st.pending[1..], msgs[1].id);
  }
}
