/**
 The sweep over stale pending messages: XAUTOCLAIM in batches behind a cursor, and for each
 message an acknowledgement, a fresh message, or nothing, as its job's row says.
 */
module PendingSweep {
  import opened JobRows
  import opened JobStore
  import opened Options
  import opened RedisQueue

  const RECOVERY_CONSUMER := "system-recovery"

  /** COUNT is sent only when positive; the server's own default is 100. */
  function EffectiveCount(count: int): (n: nat)
    ensures n > 0
  {
    if count > 0 then count else 100
  }

  // ----- XAUTOCLAIM -----

  /** What one XAUTOCLAIM does: the positions it hands over, the ids it drops, and where it stops. */
  datatype Batch = Batch(claimed: seq<nat>, dropped: set<nat>, stop: nat)

  predicate Idle(p: Pending, minIdle: Time, now: Time) {
    now - p.deliveredAt >= minIdle
  }

  /**
   The scan from a position: at most budget entries are looked at and at most count are handed
   over or dropped. An entry whose message was trimmed away is dropped, one that is not idle
   long enough is passed over.
   */
  function Scan(st: Stream, i: nat, budget: nat, count: nat, minIdle: Time, now: Time): (b: Batch)
    requires i <= |st.pending|
    ensures i <= b.stop <= |st.pending|
    ensures forall k :: 0 <= k < |b.claimed| ==> i <= b.claimed[k] < b.stop
    ensures forall k, l :: 0 <= k < l < |b.claimed| ==> b.claimed[k] < b.claimed[l]
    ensures forall k :: 0 <= k < |b.claimed| ==>
      Idle(st.pending[b.claimed[k]], minIdle, now) && Lookup(st.entries, st.pending[b.claimed[k]].id).Some?
    ensures forall id :: id in b.dropped ==> Lookup(st.entries, id).None?
    decreases |st.pending| - i
  {
    if i == |st.pending| || budget == 0 || count == 0 then Batch([], {}, i)
    else
      var p := st.pending[i];
      if Lookup(st.entries, p.id).None? then
        var b := Scan(st, i + 1, budget - 1, count - 1, minIdle, now);
        b.(dropped := {p.id} + b.dropped)
      else if !Idle(p, minIdle, now) then
        Scan(st, i + 1, budget - 1, count, minIdle, now)
      else
        var b := Scan(st, i + 1, budget - 1, count - 1, minIdle, now);
        b.(claimed := [i] + b.claimed)
  }

  /** The first position whose id is at or after the cursor. */
  function Seek(ps: seq<Pending>, start: nat, from: nat := 0): (i: nat)
    requires from <= |ps|
    ensures from <= i <= |ps|
    ensures forall k :: from <= k < i ==> ps[k].id < start
    ensures i < |ps| ==> ps[i].id >= start
    decreases |ps| - from
  {
    if from < |ps| && ps[from].id < start then Seek(ps, start, from + 1) else from
  }

  function XAutoClaim(st: Stream, start: nat, count: nat, minIdle: Time, now: Time): Batch {
    Scan(st, Seek(st.pending, start), 10 * count, count, minIdle, now)
  }

  /** The messages that the call hands over. */
  function Messages(st: Stream, b: Batch): (msgs: seq<Entry>)
    requires forall k :: 0 <= k < |b.claimed| ==> b.claimed[k] < |st.pending|
    requires forall k :: 0 <= k < |b.claimed| ==> Lookup(st.entries, st.pending[b.claimed[k]].id).Some?
    ensures |msgs| == |b.claimed|
    ensures forall k :: 0 <= k < |msgs| ==> msgs[k] in st.entries && msgs[k].id == st.pending[b.claimed[k]].id
  {
    seq(|b.claimed|, k requires 0 <= k < |b.claimed| => Lookup(st.entries, st.pending[b.claimed[k]].id).value)
  }

  /** The cursor for the next call, 0 when the scan reached the end. */
  function NextStart(st: Stream, b: Batch): nat
    requires b.stop <= |st.pending|
  {
    if b.stop < |st.pending| then st.pending[b.stop].id else 0
  }

  /** The pending list afterwards: claimed entries change hands and start to idle anew, dropped ones are gone. */
  function Reassign(ps: seq<Pending>, claimed: set<nat>, dropped: set<nat>, now: Time): seq<Pending> {
    if ps == [] then []
    else
      var p := if ps[0].id in claimed then Pending(ps[0].id, RECOVERY_CONSUMER, now) else ps[0];
      (if p.id in dropped then [] else [p]) + Reassign(ps[1..], claimed, dropped, now)
  }

  lemma PendingIdsCons(p: Pending, ps: seq<Pending>)
    ensures PendingIds([p] + ps) == {p.id} + PendingIds(ps)
  {
    assert forall q :: q in [p] + ps <==> q == p || q in ps;
  }

  lemma SortedCons(p: Pending, ps: seq<Pending>)
    ensures SortedPending([p] + ps) <==> SortedPending(ps) && forall id :: id in PendingIds(ps) ==> p.id < id
  {
    if SortedPending([p] + ps) {
      forall i, k | 0 <= i < k < |ps|
        ensures ps[i].id < ps[k].id
      {
        assert ([p] + ps)[i + 1].id < ([p] + ps)[k + 1].id;
      }
      forall id | id in PendingIds(ps)
        ensures p.id < id
      {
        var k :| 0 <= k < |ps| && ps[k].id == id;
        assert ([p] + ps)[0].id < ([p] + ps)[k + 1].id;
      }
    } else {
      var i, k :| 0 <= i < k < |ps| + 1 && !(([p] + ps)[i].id < ([p] + ps)[k].id);
      assert ps[k - 1].id in PendingIds(ps);
      if i > 0 {
        assert ([p] + ps)[i] == ps[i - 1];
      }
    }
  }

  lemma {:induction false} ReassignKeeps(ps: seq<Pending>, claimed: set<nat>, dropped: set<nat>, now: Time)
    requires SortedPending(ps)
    ensures SortedPending(Reassign(ps, claimed, dropped, now))
    ensures PendingIds(Reassign(ps, claimed, dropped, now)) == PendingIds(ps) - dropped
  {
    if ps != [] {
      assert ps == [ps[0]] + ps[1..];
      PendingIdsCons(ps[0], ps[1..]);
      SortedCons(ps[0], ps[1..]);
      ReassignKeeps(ps[1..], claimed, dropped, now);
      var p := if ps[0].id in claimed then Pending(ps[0].id, RECOVERY_CONSUMER, now) else ps[0];
      var rest := Reassign(ps[1..], claimed, dropped, now);
      PendingIdsCons(p, rest);
      SortedCons(p, rest);
      if ps[0].id in dropped {
        assert Reassign(ps, claimed, dropped, now) == rest;
      } else {
        assert Reassign(ps, claimed, dropped, now) == [p] + rest;
      }
    }
  }

  /** An entry that was not claimed is as before. */
  lemma {:induction false} ReassignLeavesOthers(ps: seq<Pending>, claimed: set<nat>, dropped: set<nat>, now: Time,
          p: Pending)
    requires p in Reassign(ps, claimed, dropped, now) && p.id !in claimed
    ensures p in ps
  {
    if p in Reassign(ps[1..], claimed, dropped, now) {
      ReassignLeavesOthers(ps[1..], claimed, dropped, now, p);
    }
  }

  function Handed(st: Stream, b: Batch, now: Time): Stream
    requires forall k :: 0 <= k < |b.claimed| ==> b.claimed[k] < |st.pending|
  {
    st.(pending := Reassign(st.pending, set k | 0 <= k < |b.claimed| :: st.pending[b.claimed[k]].id, b.dropped, now))
  }

  // ----- What a batch hands over -----

  /** Every idle message between the cursor and the stop is handed over. */
  lemma {:induction false} ScanIsComplete(st: Stream, i: nat, budget: nat, count: nat, minIdle: Time, now: Time, m: nat)
    requires i <= m < |st.pending| && m < Scan(st, i, budget, count, minIdle, now).stop
    requires Idle(st.pending[m], minIdle, now) && Lookup(st.entries, st.pending[m].id).Some?
    ensures m in Scan(st, i, budget, count, minIdle, now).claimed
    decreases |st.pending| - i
  {
    if m > i {
      var passed := Lookup(st.entries, st.pending[i].id).Some? && !Idle(st.pending[i], minIdle, now);
      var spent := if passed then count else count - 1;
      ScanIsComplete(st, i + 1, budget - 1, spent, minIdle, now, m);
    }
  }

  /** What a scan drops it has looked at. */
  lemma {:induction false} DroppedAt(st: Stream, i: nat, budget: nat, count: nat, minIdle: Time, now: Time,
          id: nat) returns (m: nat)
    requires i <= |st.pending| && id in Scan(st, i, budget, count, minIdle, now).dropped
    ensures i <= m < Scan(st, i, budget, count, minIdle, now).stop && st.pending[m].id == id
    decreases |st.pending| - i
  {
    m := i;
    if st.pending[i].id != id || Lookup(st.entries, st.pending[i].id).Some? {
      var passed := Lookup(st.entries, st.pending[i].id).Some? && !Idle(st.pending[i], minIdle, now);
      var spent := if passed then count else count - 1;
      m := DroppedAt(st, i + 1, budget - 1, spent, minIdle, now, id);
    }
  }

  // ----- What the sweep does with one message -----

  /**
   What reading the message's job finds; it is read when the message is handled, so rows may change during a
   sweep.
   */
  datatype Seen = NotFound | ReadFails | Found(status: Status)

  type Look = Entry -> Seen

  datatype Reaction = Keep | Drop | Requeue

  function ReactionTo(look: Look, e: Entry): Reaction {
    if e.job.None? then Drop
    else
      match look(e)
      case NotFound => Drop
      case ReadFails => Keep
      case Found(Completed) => Drop
      case Found(Running) => Drop
      case Found(Queued) => Requeue
      case Found(Claimed) => Keep
      case Found(DeadLettered) => Keep
  }

  function Handle(st: Stream, e: Entry, look: Look, maxLen: int, open: bool): Stream {
    match ReactionTo(look, e)
    case Keep => st
    case Drop => XAck(st, e.id)
    case Requeue => if open then XAdd(XAck(st, e.id), maxLen, e.job, Some("run")) else XAck(st, e.id)
  }

  /** The message leaves the system: it is acknowledged and no other takes its place. */
  predicate Lost(look: Look, open: bool, e: Entry) {
    ReactionTo(look, e).Drop? || (ReactionTo(look, e).Requeue? && !open)
  }

  lemma {:induction false} WithoutShrinks(ps: seq<Pending>, id: nat)
    requires SortedPending(ps)
    ensures PendingIds(Without(ps, id)) == PendingIds(ps) - {id}
    ensures |Without(ps, id)| == |ps| - if id in PendingIds(ps) then 1 else 0
  {
    WithoutKeeps(ps, id);
    if ps != [] {
      assert ps == [ps[0]] + ps[1..];
      PendingIdsCons(ps[0], ps[1..]);
      SortedCons(ps[0], ps[1..]);
      WithoutShrinks(ps[1..], id);
    }
  }

  lemma AckOutstanding(st: Stream, id: nat, j: JobId)
    requires StreamOk(st) && id <= st.delivered
    ensures OutstandingIds(XAck(st, id), j) == OutstandingIds(st, j) - {id}
  {
    WithoutShrinks(st.pending, id);
  }

  lemma AddOutstanding(st: Stream, maxLen: int, job: JobId, kind: Option<string>, j: JobId)
    requires StreamOk(st) && maxLen <= 0
    ensures OutstandingIds(XAdd(st, maxLen, Some(job), kind), j) ==
      OutstandingIds(st, j) + if job == j then {st.lastId + 1} else {}
    ensures st.lastId + 1 !in OutstandingIds(st, j)
  {
    var e := Entry(st.lastId + 1, Some(job), kind);
    var after := XAdd(st, maxLen, Some(job), kind);
    assert after.entries == st.entries + [e];
    assert forall x :: x in after.entries <==> x in st.entries || x == e;
    if job == j {
      assert IsFor(e, j) && e in after.entries && e.id > after.delivered;
    }
  }

  /**
   Without trimming, handling one pending message changes the number of outstanding
   messages of its job only if the message is lost.
   */
  lemma HandleConserves(st: Stream, e: Entry, look: Look, maxLen: int, open: bool, j: JobId)
    requires StreamOk(st) && maxLen <= 0 && e in st.entries && e.id in PendingIds(st.pending)
    ensures
      var after := Handle(st, e, look, maxLen, open);
      |OutstandingIds(after, j)| == |OutstandingIds(st, j)| - if IsFor(e, j) && Lost(look, open, e) then 1 else 0
  {
    AckCounts(st, e, j);
    if ReactionTo(look, e).Requeue? && open {
      XAckOk(st, e.id);
      WithoutShrinks(st.pending, e.id);
      AddOutstanding(XAck(st, e.id), maxLen, e.job.value, Some("run"), j);
    }
  }

  /** Acknowledging a pending message takes one outstanding message from its job and none from others. */
  lemma AckCounts(st: Stream, e: Entry, j: JobId)
    requires StreamOk(st) && e in st.entries && e.id in PendingIds(st.pending)
    ensures |OutstandingIds(XAck(st, e.id), j)| == |OutstandingIds(st, j)| - if IsFor(e, j) then 1 else 0
  {
    var p :| p in st.pending && p.id == e.id;
    AckOutstanding(st, e.id, j);
    if IsFor(e, j) {
      assert e.id in OutstandingIds(st, j);
    } else {
      IdsAreUnique(st, e, j);
    }
  }

  lemma IdsAreUnique(st: Stream, e: Entry, j: JobId)
    requires StreamOk(st) && e in st.entries && !IsFor(e, j)
    ensures e.id !in OutstandingIds(st, j)
  {
    if e.id in OutstandingIds(st, j) {
      var f :| f in st.entries && IsFor(f, j) && f.id == e.id;
      var i :| 0 <= i < |st.entries| && st.entries[i] == e;
      var k :| 0 <= k < |st.entries| && st.entries[k] == f;
    }
  }

  lemma HandleKeepsStream(st: Stream, e: Entry, look: Look, maxLen: int, open: bool)
    requires StreamOk(st)
    ensures
      var after := Handle(st, e, look, maxLen, open);
      && StreamOk(after) && after.delivered == st.delivered
      && PendingIds(st.pending) - {e.id} <= PendingIds(after.pending) <= PendingIds(st.pending)
      && (forall p :: p in after.pending ==> p in st.pending)
      && (maxLen <= 0 ==> st.entries <= after.entries)
  {
    WithoutShrinks(st.pending, e.id);
    WithoutKeeps(st.pending, e.id);
    XAckOk(st, e.id);
    XAddOk(XAck(st, e.id), maxLen, e.job, Some("run"));
  }

  ghost predicate HandedOver(st: Stream, b: Batch, id: nat)
    requires forall k :: 0 <= k < |b.claimed| ==> b.claimed[k] < |st.pending|
  {
    exists k :: 0 <= k < |b.claimed| && st.pending[b.claimed[k]].id == id
  }

  lemma HandedKeepsStream(st: Stream, b: Batch, now: Time)
    requires StreamOk(st)
    requires forall k :: 0 <= k < |b.claimed| ==> b.claimed[k] < |st.pending|
    ensures StreamOk(Handed(st, b, now)) && |Handed(st, b, now).pending| <= |st.pending|
    ensures PendingIds(Handed(st, b, now).pending) == PendingIds(st.pending) - b.dropped
    ensures forall p :: p in Handed(st, b, now).pending ==> p in st.pending || HandedOver(st, b, p.id)
  {
    var claimed := set k | 0 <= k < |b.claimed| :: st.pending[b.claimed[k]].id;
    ReassignKeeps(st.pending, claimed, b.dropped, now);
    ReassignLength(st.pending, claimed, b.dropped, now);
    forall p | p in Handed(st, b, now).pending
      ensures 0 < p.id <= st.delivered
      ensures p in st.pending || HandedOver(st, b, p.id)
    {
      assert p.id in PendingIds(Handed(st, b, now).pending);
      if p.id !in claimed {
        ReassignLeavesOthers(st.pending, claimed, b.dropped, now, p);
      }
    }
  }

  lemma HandedConserves(st: Stream, b: Batch, now: Time, j: JobId)
    requires StreamOk(st)
    requires forall k :: 0 <= k < |b.claimed| ==> b.claimed[k] < |st.pending|
    requires forall id :: id in b.dropped ==> Lookup(st.entries, id).None?
    ensures OutstandingIds(Handed(st, b, now), j) == OutstandingIds(st, j)
  {
    HandedKeepsStream(st, b, now);
  }

  lemma {:induction false} ReassignLength(ps: seq<Pending>, claimed: set<nat>, dropped: set<nat>, now: Time)
    ensures |Reassign(ps, claimed, dropped, now)| <= |ps|
  {
    if ps != [] {
      ReassignLength(ps[1..], claimed, dropped, now);
    }
  }

  // ----- The sweep -----

  /** How many of the messages were for job j and were lost. */
  function LostCount(look: Look, open: bool, msgs: seq<Entry>, j: JobId): nat {
    if msgs == [] then 0
    else (if IsFor(msgs[0], j) && Lost(look, open, msgs[0]) then 1 else 0) + LostCount(look, open, msgs[1..], j)
  }

  lemma {:induction false} LostCountAdds(look: Look, open: bool, first: seq<Entry>, second: seq<Entry>, j: JobId)
    ensures LostCount(look, open, first + second, j) ==
        LostCount(look, open, first, j) + LostCount(look, open, second, j)
  {
    if first == [] {
      assert first + second == second;
    } else {
      assert (first + second)[1..] == first[1..] + second;
      LostCountAdds(look, open, first[1..], second, j);
    }
  }

  predicate IncreasingIds(msgs: seq<Entry>) {
    forall i, k :: 0 <= i < k < |msgs| ==> msgs[i].id < msgs[k].id
  }

  function EntryIds(msgs: seq<Entry>): set<nat> {
    set e | e in msgs :: e.id
  }

  function HandleAll(st: Stream, msgs: seq<Entry>, look: Look, maxLen: int, open: bool): Stream
    decreases |msgs|
  {
    if msgs == [] then st else HandleAll(Handle(st, msgs[0], look, maxLen, open), msgs[1..], look, maxLen, open)
  }

  lemma {:induction false} HandleAllKeepsStream(st: Stream, msgs: seq<Entry>, look: Look, maxLen: int, open: bool)
    requires StreamOk(st)
    ensures
      var after := HandleAll(st, msgs, look, maxLen, open);
      && StreamOk(after) && after.delivered == st.delivered
      && PendingIds(st.pending) - EntryIds(msgs) <= PendingIds(after.pending) <= PendingIds(st.pending)
      && (forall p :: p in after.pending ==> p in st.pending)
    decreases |msgs|
  {
    if msgs != [] {
      HandleKeepsStream(st, msgs[0], look, maxLen, open);
      HandleAllKeepsStream(Handle(st, msgs[0], look, maxLen, open), msgs[1..], look, maxLen, open);
      assert EntryIds(msgs) == {msgs[0].id} + EntryIds(msgs[1..]) by {
        assert msgs == [msgs[0]] + msgs[1..];
      }
    }
  }

  lemma OthersStayPending(st: Stream, msgs: seq<Entry>, look: Look, maxLen: int, open: bool)
    requires StreamOk(st) && maxLen <= 0 && IncreasingIds(msgs) && msgs != []
    requires forall e :: e in msgs ==> e in st.entries && e.id in PendingIds(st.pending)
    ensures
      var next := Handle(st, msgs[0], look, maxLen, open);
      IncreasingIds(msgs[1..]) && forall e :: e in msgs[1..] ==> e in next.entries && e.id in PendingIds(next.pending)
  {
    HandleKeepsStream(st, msgs[0], look, maxLen, open);
    forall e | e in msgs[1..]
      ensures e in msgs && e.id != msgs[0].id
    {
      var k :| 0 <= k < |msgs[1..]| && msgs[1..][k] == e;
      assert msgs[k + 1] == e;
    }
  }

  lemma {:induction false} HandleAllConserves(st: Stream, msgs: seq<Entry>, look: Look, maxLen: int, open: bool,
          j: JobId)
    requires StreamOk(st) && maxLen <= 0 && IncreasingIds(msgs)
    requires forall e :: e in msgs ==> e in st.entries && e.id in PendingIds(st.pending)
    ensures
      var after := HandleAll(st, msgs, look, maxLen, open);
      && st.entries <= after.entries
      && |OutstandingIds(after, j)| + LostCount(look, open, msgs, j) == |OutstandingIds(st, j)|
    decreases |msgs|
  {
    if msgs != [] {
      HandleKeepsStream(st, msgs[0], look, maxLen, open);
      HandleConserves(st, msgs[0], look, maxLen, open, j);
      OthersStayPending(st, msgs, look, maxLen, open);
      HandleAllConserves(Handle(st, msgs[0], look, maxLen, open), msgs[1..], look, maxLen, open, j);
    }
  }

  // ----- The sweep -----

  /** The pending ids at or after the cursor. */
  function Ahead(st: Stream, start: nat): set<nat> {
    set id | id in PendingIds(st.pending) && id >= start
  }

  /** One round of the loop: a batch is handed over and handled. */
  function Round(st: Stream, b: Batch, look: Look, maxLen: int, open: bool, now: Time): Stream
    requires forall k :: 0 <= k < |b.claimed| ==> b.claimed[k] < |st.pending|
    requires forall k :: 0 <= k < |b.claimed| ==> Lookup(st.entries, st.pending[b.claimed[k]].id).Some?
  {
    HandleAll(Handed(st, b, now), Messages(st, b), look, maxLen, open)
  }

  /** A message handed over was pending and idle, at or after the cursor and before the next one. */
  lemma MessageAt(st: Stream, start: nat, count: nat, minIdle: Time, now: Time, k: nat)
    requires StreamOk(st) && k < |XAutoClaim(st, start, count, minIdle, now).claimed|
    ensures
      var b := XAutoClaim(st, start, count, minIdle, now);
      var e := Messages(st, b)[k];
      && e in st.entries && st.pending[b.claimed[k]].id == e.id && Idle(st.pending[b.claimed[k]], minIdle, now)
      && start <= e.id && (NextStart(st, b) > 0 ==> e.id < NextStart(st, b))
      && e.id in PendingIds(st.pending) && e.id !in b.dropped
  {
    var i := Seek(st.pending, start);
    var b := XAutoClaim(st, start, count, minIdle, now);
    assert i <= b.claimed[k] < b.stop;
    assert st.pending[i].id <= st.pending[b.claimed[k]].id;
    assert st.pending[b.claimed[k]] in st.pending;
  }

  lemma MessagesIncrease(st: Stream, start: nat, count: nat, minIdle: Time, now: Time)
    requires StreamOk(st)
    ensures IncreasingIds(Messages(st, XAutoClaim(st, start, count, minIdle, now)))
  {
  }

  lemma HandedOverAreMessages(st: Stream, b: Batch, id: nat)
    requires forall k :: 0 <= k < |b.claimed| ==> b.claimed[k] < |st.pending|
    requires forall k :: 0 <= k < |b.claimed| ==> Lookup(st.entries, st.pending[b.claimed[k]].id).Some?
    ensures HandedOver(st, b, id) <==> id in EntryIds(Messages(st, b))
  {
    var msgs := Messages(st, b);
    if HandedOver(st, b, id) {
      var k :| 0 <= k < |b.claimed| && st.pending[b.claimed[k]].id == id;
      assert msgs[k] in msgs;
    }
    if id in EntryIds(msgs) {
      var k :| 0 <= k < |msgs| && msgs[k].id == id;
      assert st.pending[b.claimed[k]].id == id;
    }
  }

  /** A round keeps the stream in order and every message pending that was neither handed over nor dropped. */
  lemma RoundKeepsStream(st: Stream, b: Batch, look: Look, maxLen: int, open: bool, now: Time)
    requires StreamOk(st)
    requires forall k :: 0 <= k < |b.claimed| ==> b.claimed[k] < |st.pending|
    requires forall k :: 0 <= k < |b.claimed| ==> Lookup(st.entries, st.pending[b.claimed[k]].id).Some?
    ensures
      var after := Round(st, b, look, maxLen, open, now);
      && StreamOk(after)
      && PendingIds(st.pending) - b.dropped - EntryIds(Messages(st, b)) <= PendingIds(after.pending)
      && PendingIds(after.pending) <= PendingIds(st.pending)
      && (forall p :: p in after.pending ==> p in st.pending || p.id in EntryIds(Messages(st, b)))
  {
    HandedKeepsStream(st, b, now);
    HandleAllKeepsStream(Handed(st, b, now), Messages(st, b), look, maxLen, open);
    forall p | p in Round(st, b, look, maxLen, open, now).pending
      ensures p in st.pending || p.id in EntryIds(Messages(st, b))
    {
      HandedOverAreMessages(st, b, p.id);
    }
  }

  lemma EarlierMessages(st: Stream, start: nat, count: nat, minIdle: Time, now: Time, id: nat)
    requires StreamOk(st)
    requires var b := XAutoClaim(st, start, count, minIdle, now); id in EntryIds(Messages(st, b))
    ensures
      var b := XAutoClaim(st, start, count, minIdle, now);
      start <= id && (NextStart(st, b) > 0 ==> id < NextStart(st, b))
  {
    var msgs := Messages(st, XAutoClaim(st, start, count, minIdle, now));
    var k :| 0 <= k < |msgs| && msgs[k].id == id;
    MessageAt(st, start, count, minIdle, now, k);
  }

  /** A round that is followed by another moves the cursor on, and fewer pending messages are ahead of it. */
  lemma RoundProgress(st: Stream, start: nat, look: Look, maxLen: int, open: bool, count: nat, minIdle: Time, now: Time)
    requires StreamOk(st)
    requires var b := XAutoClaim(st, start, count, minIdle, now); b.claimed != [] && NextStart(st, b) > 0
    ensures
      var b := XAutoClaim(st, start, count, minIdle, now);
      var after := Round(st, b, look, maxLen, open, now);
      && start < NextStart(st, b) && |Ahead(after, NextStart(st, b))| < |Ahead(st, start)|
      && (forall p :: p in after.pending && p.id >= NextStart(st, b) ==> p in st.pending)
  {
    var b := XAutoClaim(st, start, count, minIdle, now);
    var after := Round(st, b, look, maxLen, open, now);
    var next := NextStart(st, b);
    RoundKeepsStream(st, b, look, maxLen, open, now);
    MessageAt(st, start, count, minIdle, now, 0);
    FewerAhead(st, after, start, next, Messages(st, b)[0].id);
    forall p | p in after.pending && p.id >= next
      ensures p in st.pending
    {
      if p.id in EntryIds(Messages(st, b)) {
        EarlierMessages(st, start, count, minIdle, now, p.id);
      }
    }
  }

  lemma FewerAhead(st: Stream, after: Stream, start: nat, next: nat, id: nat)
    requires PendingIds(after.pending) <= PendingIds(st.pending) && id in PendingIds(st.pending) && start <= id < next
    ensures |Ahead(after, next)| < |Ahead(st, start)|
  {
    assert Ahead(after, next) <= Ahead(st, start) - {id};
    SmallerSet(Ahead(after, next), Ahead(st, start) - {id});
  }

  lemma {:induction false} SmallerSet(a: set<nat>, b: set<nat>)
    requires a <= b
    ensures |a| <= |b|
  {
    if a != {} {
      var x :| x in a;
      SmallerSet(a - {x}, b - {x});
    }
  }
}
