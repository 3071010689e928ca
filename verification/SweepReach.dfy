/**
 How far a sweep gets. A batch is used up by idle messages, which it hands over, and by entries
 whose message was trimmed away, which it drops; it also ends after ten times as many entries as
 were asked for. The sweep ends with the first batch that hands nothing over.
 */
module SweepReach {
  import opened JobRows
  import opened JobStore
  import opened Options
  import opened PendingRecovery
  import opened PendingSweep
  import opened RedisQueue
  import opened SweepTrimming

  // ----- The pass over the list -----

  /** A pending entry: its message is gone, or it is idle, or it is passed over. */
  datatype Kind = Gone | Due | Young

  function KindOf(st: Stream, p: Pending, minIdle: Time, now: Time): Kind {
    if Lookup(st.entries, p.id).None? then Gone else if Idle(p, minIdle, now) then Due else Young
  }

  function Kinds(st: Stream, ps: seq<Pending>, minIdle: Time, now: Time): (ks: seq<Kind>)
    ensures |ks| == |ps|
    ensures forall k :: 0 <= k < |ps| ==> ks[k] == KindOf(st, ps[k], minIdle, now)
  {
    seq(|ps|, k requires 0 <= k < |ps| => KindOf(st, ps[k], minIdle, now))
  }

  /**
   How many entries one XAUTOCLAIM looks at: at most budget of them, and none
   after the count-th that uses up the batch.
   */
  function Looked(ks: seq<Kind>, budget: nat, count: nat): (n: nat)
    ensures n <= |ks| && n <= budget
    ensures ks != [] && budget > 0 && count > 0 ==> n > 0
  {
    if ks == [] || budget == 0 || count == 0 then 0
    else 1 + Looked(ks[1..], budget - 1, if ks[0].Young? then count else count - 1)
  }

  /** How far a sweep gets in a pending list: batch after batch, up to the first one that hands nothing over. */
  function Reach(ks: seq<Kind>, count: nat): (n: nat)
    requires count > 0
    ensures n <= |ks|
    decreases |ks|
  {
    var n := Looked(ks, 10 * count, count);
    if n == |ks| || Due !in ks[..n] then n else n + Reach(ks[n..], count)
  }

  /** What is pending at or after the cursor. */
  function Tail(ps: seq<Pending>, start: nat): seq<Pending> {
    ps[Seek(ps, start)..]
  }

  function DueIds(st: Stream, ps: seq<Pending>, minIdle: Time, now: Time): set<nat> {
    set p | p in ps && KindOf(st, p, minIdle, now).Due? :: p.id
  }

  lemma DueIdsConcat(st: Stream, first: seq<Pending>, second: seq<Pending>, minIdle: Time, now: Time)
    ensures DueIds(st, first + second, minIdle, now) ==
        DueIds(st, first, minIdle, now) + DueIds(st, second, minIdle, now)
  {
    assert forall p :: p in first + second <==> p in first || p in second;
  }

  lemma EntryIdsConcat(first: seq<Entry>, second: seq<Entry>)
    ensures EntryIds(first + second) == EntryIds(first) + EntryIds(second)
  {
    assert forall e :: e in first + second <==> e in first || e in second;
  }

  // ----- One batch -----

  lemma {:induction false} ScanStop(st: Stream, i: nat, budget: nat, count: nat, minIdle: Time, now: Time)
    requires i <= |st.pending|
    ensures Scan(st, i, budget, count, minIdle, now).stop ==
        i + Looked(Kinds(st, st.pending[i..], minIdle, now), budget, count)
    decreases |st.pending| - i
  {
    if i < |st.pending| && budget > 0 && count > 0 {
      assert Kinds(st, st.pending[i..], minIdle, now)[1..] == Kinds(st, st.pending[i + 1..], minIdle, now);
      ScanStop(st, i + 1, budget - 1, if KindOf(st, st.pending[i], minIdle, now).Young? then count
        else count - 1, minIdle, now);
    }
  }

  lemma HandedMessageIsDue(st: Stream, start: nat, count: nat, minIdle: Time, now: Time, id: nat)
    requires StreamOk(st)
    requires id in EntryIds(Messages(st, XAutoClaim(st, start, count, minIdle, now)))
    ensures id in DueIds(st, st.pending[Seek(st.pending, start)..XAutoClaim(st, start, count, minIdle, now).stop],
        minIdle, now)
  {
    var i, b := Seek(st.pending, start), XAutoClaim(st, start, count, minIdle, now);
    var msgs := Messages(st, b);
    var k :| 0 <= k < |msgs| && msgs[k].id == id;
    SliceHas(st.pending, i, b.stop, b.claimed[k]);
  }

  lemma SliceHas(ps: seq<Pending>, i: nat, stop: nat, m: nat)
    requires i <= m < stop <= |ps|
    ensures ps[m] in ps[i..stop]
  {
    assert ps[i..stop][m - i] == ps[m];
  }

  lemma DueMessageIsHanded(st: Stream, start: nat, count: nat, minIdle: Time, now: Time, m: nat)
    requires Seek(st.pending, start) <= m < XAutoClaim(st, start, count, minIdle, now).stop
    requires KindOf(st, st.pending[m], minIdle, now).Due?
    ensures st.pending[m].id in EntryIds(Messages(st, XAutoClaim(st, start, count, minIdle, now)))
  {
    var b := XAutoClaim(st, start, count, minIdle, now);
    ScanIsComplete(st, Seek(st.pending, start), 10 * count, count, minIdle, now, m);
    var k :| 0 <= k < |b.claimed| && b.claimed[k] == m;
    assert Messages(st, b)[k] in Messages(st, b);
  }

  /** A batch hands over exactly the idle messages that its scan looks at. */
  lemma BatchIsDueOnes(st: Stream, start: nat, count: nat, minIdle: Time, now: Time)
    requires StreamOk(st)
    ensures
      var b := XAutoClaim(st, start, count, minIdle, now);
      EntryIds(Messages(st, b)) == DueIds(st, st.pending[Seek(st.pending, start)..b.stop], minIdle, now)
  {
    var i, b := Seek(st.pending, start), XAutoClaim(st, start, count, minIdle, now);
    forall id | id in EntryIds(Messages(st, b))
      ensures id in DueIds(st, st.pending[i..b.stop], minIdle, now)
    {
      HandedMessageIsDue(st, start, count, minIdle, now, id);
    }
    forall id | id in DueIds(st, st.pending[i..b.stop], minIdle, now)
      ensures id in EntryIds(Messages(st, b))
    {
      var m := DuePosition(st, i, b.stop, minIdle, now, id);
      DueMessageIsHanded(st, start, count, minIdle, now, m);
    }
  }

  lemma DuePosition(st: Stream, i: nat, stop: nat, minIdle: Time, now: Time, id: nat) returns (m: nat)
    requires i <= stop <= |st.pending| && id in DueIds(st, st.pending[i..stop], minIdle, now)
    ensures i <= m < stop && st.pending[m].id == id && KindOf(st, st.pending[m], minIdle, now).Due?
  {
    var p :| p in st.pending[i..stop] && KindOf(st, p, minIdle, now).Due? && p.id == id;
    var k :| 0 <= k < stop - i && st.pending[i..stop][k] == p;
    m := i + k;
  }

  /** A list of messages is empty exactly if what they are of holds nothing due. */
  lemma EmptyIffNothingDue(st: Stream, msgs: seq<Entry>, ps: seq<Pending>, minIdle: Time, now: Time)
    requires EntryIds(msgs) == DueIds(st, ps, minIdle, now)
    ensures msgs == [] <==> Due !in Kinds(st, ps, minIdle, now)
  {
    if msgs != [] {
      assert msgs[0].id in EntryIds(msgs);
      var p :| p in ps && KindOf(st, p, minIdle, now).Due?;
      var k :| 0 <= k < |ps| && ps[k] == p;
      assert Kinds(st, ps, minIdle, now)[k] == Due;
    }
    if Due in Kinds(st, ps, minIdle, now) {
      var k :| 0 <= k < |ps| && Kinds(st, ps, minIdle, now)[k] == Due;
      assert ps[k] in ps && ps[k].id in DueIds(st, ps, minIdle, now);
    }
  }

  // ----- What a round leaves ahead of the cursor -----

  lemma SuffixSorted(ps: seq<Pending>, i: nat)
    requires SortedPending(ps) && i <= |ps|
    ensures SortedPending(ps[i..])
  {
  }

  lemma TailMembers(ps: seq<Pending>, start: nat, p: Pending)
    requires SortedPending(ps)
    ensures p in Tail(ps, start) <==> p in ps && p.id >= start
  {
    var i := Seek(ps, start);
    if p in ps && p.id >= start {
      var k :| 0 <= k < |ps| && ps[k] == p;
      assert ps[i..][k - i] == p;
    }
    if p in Tail(ps, start) {
      var k :| 0 <= k < |ps| - i && ps[i..][k] == p;
      assert ps[i].id <= ps[i + k].id;
    }
  }

  lemma SameId(ps: seq<Pending>, p: Pending, q: Pending)
    requires SortedPending(ps) && p in ps && q in ps && p.id == q.id
    ensures p == q
  {
    var i :| 0 <= i < |ps| && ps[i] == p;
    var k :| 0 <= k < |ps| && ps[k] == q;
  }

  /** Two pending lists with the same entries are the same list. */
  lemma {:induction false} SortedUnique(ps: seq<Pending>, qs: seq<Pending>)
    requires SortedPending(ps) && SortedPending(qs)
    requires forall p :: p in ps <==> p in qs
    ensures ps == qs
  {
    assert ps != [] ==> ps[0] in qs;
    assert qs != [] ==> qs[0] in ps;
    if ps != [] {
      FirstIsLeast(ps, qs[0]);
      FirstIsLeast(qs, ps[0]);
      SameId(ps, ps[0], qs[0]);
      RestOf(ps);
      RestOf(qs);
      SortedUnique(ps[1..], qs[1..]);
    }
  }

  lemma FirstIsLeast(ps: seq<Pending>, p: Pending)
    requires SortedPending(ps) && p in ps
    ensures ps[0].id <= p.id
  {
    var k :| 0 <= k < |ps| && ps[k] == p;
  }

  lemma RestOf(ps: seq<Pending>)
    requires SortedPending(ps) && ps != []
    ensures SortedPending(ps[1..])
    ensures forall p :: p in ps[1..] <==> p in ps && p != ps[0]
  {
    forall p | p in ps && p != ps[0]
      ensures p in ps[1..]
    {
      var k :| 0 <= k < |ps| && ps[k] == p;
      assert ps[1..][k - 1] == p;
    }
  }

  lemma StopAtEnd(st: Stream, b: Batch)
    requires StreamOk(st) && b.stop <= |st.pending|
    ensures NextStart(st, b) == 0 <==> b.stop == |st.pending|
  {
    if b.stop < |st.pending| {
      assert st.pending[b.stop] in st.pending;
    }
  }

  lemma TailAt(ps: seq<Pending>, i: nat)
    requires SortedPending(ps) && i < |ps|
    ensures Tail(ps, ps[i].id) == ps[i..]
  {
  }

  /** A message that a round neither hands over nor drops is left as it is. */
  lemma UntouchedStaysPending(st: Stream, b: Batch, look: Look, maxLen: int, open: bool, now: Time, p: Pending)
    requires StreamOk(st)
    requires forall k :: 0 <= k < |b.claimed| ==> b.claimed[k] < |st.pending|
    requires forall k :: 0 <= k < |b.claimed| ==> Lookup(st.entries, st.pending[b.claimed[k]].id).Some?
    requires p in st.pending && p.id !in EntryIds(Messages(st, b)) && p.id !in b.dropped
    ensures p in Round(st, b, look, maxLen, open, now).pending
  {
    var after := Round(st, b, look, maxLen, open, now);
    RoundKeepsStream(st, b, look, maxLen, open, now);
    assert p.id in PendingIds(st.pending);
    assert p.id in PendingIds(after.pending);
    var q :| q in after.pending && q.id == p.id;
    SameId(st.pending, p, q);
  }

  lemma DroppedIsEarlier(st: Stream, start: nat, count: nat, minIdle: Time, now: Time, id: nat)
    requires StreamOk(st)
    requires var b := XAutoClaim(st, start, count, minIdle, now); id in b.dropped && NextStart(st, b) > 0
    ensures id < NextStart(st, XAutoClaim(st, start, count, minIdle, now))
  {
    var m := DroppedAt(st, Seek(st.pending, start), 10 * count, count, minIdle, now, id);
    StopAtEnd(st, XAutoClaim(st, start, count, minIdle, now));
  }

  lemma AheadStaysPending(st: Stream, start: nat, look: Look, maxLen: int, open: bool, count: nat, minIdle: Time,
          now: Time, p: Pending)
    requires StreamOk(st)
    requires var b := XAutoClaim(st, start, count, minIdle, now); NextStart(st, b) > 0 && p.id >= NextStart(st, b)
    requires p in st.pending
    ensures p in Round(st, XAutoClaim(st, start, count, minIdle, now), look, maxLen, open, now).pending
  {
    var b := XAutoClaim(st, start, count, minIdle, now);
    if p.id in EntryIds(Messages(st, b)) {
      EarlierMessages(st, start, count, minIdle, now, p.id);
    }
    if p.id in b.dropped {
      DroppedIsEarlier(st, start, count, minIdle, now, p.id);
    }
    UntouchedStaysPending(st, b, look, maxLen, open, now, p);
  }

  /** Whatever a round does to the messages it is handed, the list beyond the next cursor stays as it is. */
  lemma TailAfterRound(st: Stream, start: nat, look: Look, maxLen: int, open: bool, count: nat, minIdle: Time,
          now: Time)
    requires StreamOk(st)
    requires var b := XAutoClaim(st, start, count, minIdle, now); b.claimed != [] && NextStart(st, b) > 0
    ensures
      var b := XAutoClaim(st, start, count, minIdle, now);
      var after := Round(st, b, look, maxLen, open, now);
      StreamOk(after) && Tail(after.pending, NextStart(st, b)) == st.pending[b.stop..]
  {
    var b := XAutoClaim(st, start, count, minIdle, now);
    var after, next := Round(st, b, look, maxLen, open, now), NextStart(st, b);
    RoundKeepsStream(st, b, look, maxLen, open, now);
    RoundProgress(st, start, look, maxLen, open, count, minIdle, now);
    TailAt(st.pending, b.stop);
    forall p: Pending
      ensures p in Tail(after.pending, next) <==> p in Tail(st.pending, next)
    {
      TailMembers(st.pending, next, p);
      TailMembers(after.pending, next, p);
      if p in st.pending && p.id >= next {
        AheadStaysPending(st, start, look, maxLen, open, count, minIdle, now, p);
      }
    }
    SuffixSorted(st.pending, Seek(st.pending, next));
    SuffixSorted(after.pending, Seek(after.pending, next));
    SortedUnique(Tail(after.pending, next), Tail(st.pending, next));
  }

  /** Without trimming, a round changes nothing about which pending messages are on the stream. */
  lemma SameKinds(st: Stream, after: Stream, n: nat, ps: seq<Pending>, minIdle: Time, now: Time)
    requires StreamOk(st) && StreamOk(after) && Grown(st, after, n)
    requires forall p :: p in ps ==> p.id <= st.lastId
    ensures Kinds(after, ps, minIdle, now) == Kinds(st, ps, minIdle, now)
    ensures DueIds(after, ps, minIdle, now) == DueIds(st, ps, minIdle, now)
  {
    forall p | p in ps
      ensures KindOf(after, p, minIdle, now) == KindOf(st, p, minIdle, now)
    {
      LookupGrown(st, after, n, p.id);
    }
    assert forall k :: 0 <= k < |ps| ==> ps[k] in ps;
  }

  lemma LookupGrown(st: Stream, after: Stream, n: nat, id: nat)
    requires StreamOk(st) && StreamOk(after) && Grown(st, after, n) && id <= st.lastId
    ensures Lookup(after.entries, id).Some? <==> Lookup(st.entries, id).Some?
  {
    var e := Lookup(after.entries, id);
    if e.Some? {
      var k :| 0 <= k < |after.entries| && after.entries[k] == e.value;
      assert k < |st.entries| && st.entries[k] == e.value;
    }
    if Lookup(st.entries, id).Some? {
      assert Lookup(st.entries, id).value in after.entries;
    }
  }

  // ----- What a sweep visits -----

  lemma StopInTail(st: Stream, i: nat, b: Batch, n: nat)
    requires StreamOk(st) && b.stop == i + n <= |st.pending|
    ensures st.pending[i..b.stop] == st.pending[i..][..n] && st.pending[b.stop..] == st.pending[i..][n..]
    ensures NextStart(st, b) == 0 <==> n == |st.pending[i..]|
  {
    StopAtEnd(st, b);
  }

  lemma KindsOfPrefix(st: Stream, ps: seq<Pending>, n: nat, minIdle: Time, now: Time)
    requires n <= |ps|
    ensures Kinds(st, ps[..n], minIdle, now) == Kinds(st, ps, minIdle, now)[..n]
    ensures Kinds(st, ps[n..], minIdle, now) == Kinds(st, ps, minIdle, now)[n..]
  {
  }

  /** A batch hands over a first part of what is ahead, and the cursor moves to the rest of it, if there is any. */
  ghost predicate BatchTakes(st: Stream, b: Batch, tail: seq<Pending>, n: nat, minIdle: Time, now: Time)
    requires forall k :: 0 <= k < |b.claimed| ==> b.claimed[k] < |st.pending|
    requires forall k :: 0 <= k < |b.claimed| ==> Lookup(st.entries, st.pending[b.claimed[k]].id).Some?
    requires b.stop <= |st.pending| && n <= |tail|
  {
    && EntryIds(Messages(st, b)) == DueIds(st, tail[..n], minIdle, now)
    && st.pending[b.stop..] == tail[n..]
    && (NextStart(st, b) == 0 <==> n == |tail|)
  }

  lemma BatchOfTail(st: Stream, start: nat, count: nat, minIdle: Time, now: Time)
    requires StreamOk(st)
    ensures
      var tail := Tail(st.pending, start);
      BatchTakes(st, XAutoClaim(st, start, count, minIdle, now), tail,
        Looked(Kinds(st, tail, minIdle, now), 10 * count, count), minIdle, now)
  {
    var i, b := Seek(st.pending, start), XAutoClaim(st, start, count, minIdle, now);
    ScanStop(st, i, 10 * count, count, minIdle, now);
    BatchIsDueOnes(st, start, count, minIdle, now);
    StopInTail(st, i, b, b.stop - i);
  }

  /** The idle messages within reach. */
  function ReachedIds(st: Stream, ps: seq<Pending>, count: nat, minIdle: Time, now: Time): set<nat>
    requires count > 0
  {
    DueIds(st, ps[..Reach(Kinds(st, ps, minIdle, now), count)], minIdle, now)
  }

  lemma PrefixSplit(ps: seq<Pending>, n: nat, r: nat)
    requires n + r <= |ps|
    ensures ps[..n + r] == ps[..n] + ps[n..][..r]
  {
  }

  /** What a sweep visits: the idle ones of the first batch, and what it visits beyond. */
  lemma ReachOn(st: Stream, ps: seq<Pending>, count: nat, minIdle: Time, now: Time, n: nat, msgs: seq<Entry>,
          later: seq<Entry>)
    requires count > 0 && n == Looked(Kinds(st, ps, minIdle, now), 10 * count, count) < |ps| && msgs != []
    requires EntryIds(msgs) == DueIds(st, ps[..n], minIdle, now)
    requires EntryIds(later) == ReachedIds(st, ps[n..], count, minIdle, now)
    ensures EntryIds(msgs + later) == ReachedIds(st, ps, count, minIdle, now)
  {
    var ks := Kinds(st, ps, minIdle, now);
    var r := Reach(ks[n..], count);
    KindsOfPrefix(st, ps, n, minIdle, now);
    EmptyIffNothingDue(st, msgs, ps[..n], minIdle, now);
    assert Reach(ks, count) == n + r;
    EntryIdsConcat(msgs, later);
    DueIdsConcat(st, ps[..n], ps[n..][..r], minIdle, now);
    PrefixSplit(ps, n, r);
  }

  lemma ReachEnds(st: Stream, ps: seq<Pending>, count: nat, minIdle: Time, now: Time, n: nat, msgs: seq<Entry>)
    requires count > 0 && n == Looked(Kinds(st, ps, minIdle, now), 10 * count, count) && (n == |ps| || msgs == [])
    requires EntryIds(msgs) == DueIds(st, ps[..n], minIdle, now)
    ensures EntryIds(msgs) == ReachedIds(st, ps, count, minIdle, now)
  {
    KindsOfPrefix(st, ps, n, minIdle, now);
    EmptyIffNothingDue(st, msgs, ps[..n], minIdle, now);
  }

  lemma SameReached(st: Stream, after: Stream, n: nat, ps: seq<Pending>, count: nat, minIdle: Time, now: Time)
    requires StreamOk(st) && StreamOk(after) && Grown(st, after, n) && count > 0
    requires forall p :: p in ps ==> p.id <= st.lastId
    ensures ReachedIds(after, ps, count, minIdle, now) == ReachedIds(st, ps, count, minIdle, now)
  {
    var r := Reach(Kinds(st, ps, minIdle, now), count);
    SameKinds(st, after, n, ps, minIdle, now);
    SameKinds(st, after, n, ps[..r], minIdle, now);
  }

  lemma {:induction false} UntrimmedSweepVisits(st: Stream, start: nat, look: Look, open: bool, count: nat,
          minIdle: Time, now: Time)
    requires StreamOk(st) && count > 0
    ensures EntryIds(Sweep(st, start, look, 0, open, count, minIdle, now).visited) ==
      ReachedIds(st, Tail(st.pending, start), count, minIdle, now)
    decreases |Ahead(st, start)|
  {
    var b, tail := XAutoClaim(st, start, count, minIdle, now), Tail(st.pending, start);
    var msgs, after := Messages(st, b), Round(st, b, look, 0, open, now);
    var n := Looked(Kinds(st, tail, minIdle, now), 10 * count, count);
    SweepRound(st, start, look, 0, open, count, minIdle, now);
    BatchOfTail(st, start, count, minIdle, now);
    if NextStart(st, b) == 0 || msgs == [] {
      ReachEnds(st, tail, count, minIdle, now, n, msgs);
    } else {
      TailAfterRound(st, start, look, 0, open, count, minIdle, now);
      UntrimmedSweepVisits(after, NextStart(st, b), look, open, count, minIdle, now);
      RoundGrows(st, b, look, open, now);
      PendingIsOld(st, tail[n..]);
      SameReached(st, after, Requeues(look, open, msgs), tail[n..], count, minIdle, now);
      ReachOn(st, tail, count, minIdle, now, n, msgs,
        Sweep(after, NextStart(st, b), look, 0, open, count, minIdle, now).visited);
    }
  }

  lemma RoundGrows(st: Stream, b: Batch, look: Look, open: bool, now: Time)
    requires forall k :: 0 <= k < |b.claimed| ==> b.claimed[k] < |st.pending|
    requires forall k :: 0 <= k < |b.claimed| ==> Lookup(st.entries, st.pending[b.claimed[k]].id).Some?
    ensures Grown(st, Round(st, b, look, 0, open, now), Requeues(look, open, Messages(st, b)))
  {
    HandleAllGrows(Handed(st, b, now), Messages(st, b), look, open);
  }

  lemma PendingIsOld(st: Stream, ps: seq<Pending>)
    requires StreamOk(st) && forall p :: p in ps ==> p in st.pending
    ensures forall p :: p in ps ==> p.id <= st.lastId
  {
  }

  /** The sweep visits exactly the idle messages up to where one pass over the list as it was at the start gets. */
  lemma SweepVisitsReach(st: Stream, look: Look, maxLen: int, open: bool, count: nat, minIdle: Time, now: Time)
    requires StreamOk(st) && StreamFits(st, maxLen) && count > 0
    ensures EntryIds(Sweep(st, 0, look, maxLen, open, count, minIdle, now).visited) ==
        ReachedIds(st, st.pending, count, minIdle, now)
  {
    TrimmingComesLast(st, look, maxLen, open, count, minIdle, now);
    UntrimmedSweepVisits(st, 0, look, open, count, minIdle, now);
    assert Tail(st.pending, 0) == st.pending;
  }

  /** A message that is idle and still on the stream is visited if and only if it lies within that reach. */
  lemma IdleMessageIsVisitedIff(st: Stream, look: Look, maxLen: int, open: bool, count: nat, minIdle: Time, now: Time,
          m: nat)
    requires StreamOk(st) && StreamFits(st, maxLen) && count > 0
    requires m < |st.pending| && KindOf(st, st.pending[m], minIdle, now).Due?
    ensures st.pending[m].id in EntryIds(Sweep(st, 0, look, maxLen, open, count, minIdle, now).visited) <==>
      m < Reach(Kinds(st, st.pending, minIdle, now), count)
  {
    SweepVisitsReach(st, look, maxLen, open, count, minIdle, now);
    InPrefixIff(st, Reach(Kinds(st, st.pending, minIdle, now), count), minIdle, now, m);
  }

  lemma InPrefixIff(st: Stream, r: nat, minIdle: Time, now: Time, m: nat)
    requires SortedPending(st.pending) && r <= |st.pending|
    requires m < |st.pending| && KindOf(st, st.pending[m], minIdle, now).Due?
    ensures st.pending[m].id in DueIds(st, st.pending[..r], minIdle, now) <==> m < r
  {
    if m < r {
      assert st.pending[..r][m] == st.pending[m];
    } else {
      forall k | 0 <= k < r
        ensures st.pending[..r][k].id != st.pending[m].id
      {
        assert st.pending[k].id < st.pending[m].id;
      }
    }
  }

  // ----- Stretches that stop a sweep -----

  /** How many entries use up a batch without being handed over. */
  function Gones(ks: seq<Kind>): nat {
    if ks == [] then 0 else (if ks[0].Gone? then 1 else 0) + Gones(ks[1..])
  }

  lemma {:induction false} GonesAdd(first: seq<Kind>, second: seq<Kind>)
    ensures Gones(first + second) == Gones(first) + Gones(second)
  {
    if first == [] {
      assert first + second == second;
    } else {
      assert (first + second)[1..] == first[1..] + second;
      GonesAdd(first[1..], second);
    }
  }

  /** A batch gets to the first idle message unless its budget or its count is used up before. */
  lemma {:induction false} LookedReaches(ks: seq<Kind>, budget: nat, count: nat, m: nat)
    requires m < |ks| && Due !in ks[..m]
    ensures m < Looked(ks, budget, count) <==> m < budget && Gones(ks[..m]) < count
  {
    if m > 0 && budget > 0 && count > 0 {
      assert ks[..m][0] == ks[0] && ks[..m][1..] == ks[1..][..m - 1];
      LookedReaches(ks[1..], budget - 1, if ks[0].Young? then count else count - 1, m - 1);
    }
  }

  /** n neighbouring entries from position a on with nothing due among them. */
  predicate QuietRun(ks: seq<Kind>, a: nat, n: nat) {
    a + n <= |ks| && Due !in ks[a..a + n]
  }

  /** A quiet run that can empty a batch: by ten times the batch size of entries, or the batch size of trimmed ones. */
  predicate DeadRun(ks: seq<Kind>, a: nat, n: nat, count: nat) {
    QuietRun(ks, a, n) && (n >= 10 * count || Gones(ks[a..a + n]) >= count)
  }

  ghost predicate DeadBefore(ks: seq<Kind>, m: nat, count: nat) {
    exists a: nat, n: nat :: a + n <= m && DeadRun(ks, a, n, count)
  }

  ghost predicate QuietBefore(ks: seq<Kind>, m: nat, n: nat) {
    exists a: nat :: a + n <= m && QuietRun(ks, a, n)
  }

  lemma DeadBeforeShift(ks: seq<Kind>, m: nat, count: nat, d: nat)
    requires d <= m < |ks| && DeadBefore(ks[d..], m - d, count)
    ensures DeadBefore(ks, m, count)
  {
    var a: nat, n: nat :| a + n <= m - d && DeadRun(ks[d..], a, n, count);
    assert ks[d..][a..a + n] == ks[a + d..a + d + n];
    assert DeadRun(ks, a + d, n, count);
  }

  /** A batch that hands nothing over and does not get to the end is a dead run. */
  lemma EmptyBatchIsDead(ks: seq<Kind>, count: nat)
    requires var n := Looked(ks, 10 * count, count); n < |ks| && Due !in ks[..n]
    ensures DeadRun(ks, 0, Looked(ks, 10 * count, count), count)
  {
    var n := Looked(ks, 10 * count, count);
    LookedReaches(ks, 10 * count, count, n);
    assert ks[0..n] == ks[..n];
  }

  /** A sweep gets past position m unless there is a dead run before it. */
  lemma {:induction false} ReachGetsPast(ks: seq<Kind>, count: nat, m: nat)
    requires count > 0 && m < |ks| && !DeadBefore(ks, m, count)
    ensures m < Reach(ks, count)
    decreases |ks|
  {
    var n := Looked(ks, 10 * count, count);
    if n <= m {
      assert !DeadRun(ks, 0, n, count);
      if Due !in ks[..n] {
        EmptyBatchIsDead(ks, count);
      }
      if DeadBefore(ks[n..], m - n, count) {
        DeadBeforeShift(ks, m, count, n);
      }
      ReachGetsPast(ks[n..], count, m - n);
    }
  }

  /** As many neighbouring entries with nothing due among them stop a sweep wherever its batches fall. */
  function StoppingStretch(count: nat): nat
    requires count > 0
  {
    if count == 1 then 10 else 20 * count - 1
  }

  lemma RunHas(ks: seq<Kind>, a: nat, n: nat, k: nat)
    requires a <= k < a + n <= |ks|
    ensures ks[k] in ks[a..a + n]
  {
    assert ks[a..a + n][k - a] == ks[k];
  }

  lemma SubRun(ks: seq<Kind>, a: nat, n: nat, b: nat, m: nat)
    requires QuietRun(ks, a, n) && a <= b && b + m <= a + n
    ensures QuietRun(ks, b, m)
  {
    forall k | b <= k < b + m
      ensures ks[k] != Due
    {
      RunHas(ks, a, n, k);
    }
  }

  lemma RunShift(ks: seq<Kind>, d: nat, a: nat, n: nat)
    requires d <= a && QuietRun(ks, a, n)
    ensures QuietRun(ks[d..], a - d, n)
  {
    assert ks[d..][a - d..a - d + n] == ks[a..a + n];
  }

  lemma {:induction false} SingleBatch(ks: seq<Kind>, budget: nat, k: nat)
    requires k < Looked(ks, budget, 1) && ks[k].Due?
    ensures Looked(ks, budget, 1) == k + 1
  {
    if k > 0 {
      assert ks[1..][k - 1] == ks[k];
      SingleBatch(ks[1..], budget - 1, k - 1);
    }
  }

  lemma QuietStart(ks: seq<Kind>, count: nat)
    requires count > 0 && QuietRun(ks, 0, 10 * count)
    ensures Reach(ks, count) <= 10 * count
  {
    var n := Looked(ks, 10 * count, count);
    assert forall k :: 0 <= k < n ==> ks[..n][k] == ks[0..10 * count][k];
  }

  lemma {:induction false} QuietStretchStops(ks: seq<Kind>, count: nat, a: nat)
    requires count > 0 && QuietRun(ks, a, StoppingStretch(count))
    ensures Reach(ks, count) <= a + StoppingStretch(count)
    decreases |ks|
  {
    var n, s := Looked(ks, 10 * count, count), StoppingStretch(count);
    if n < |ks| && Due in ks[..n] {
      if n <= a {
        RunShift(ks, n, a, s);
        QuietStretchStops(ks[n..], count, a - n);
      } else {
        var k :| 0 <= k < n && ks[k].Due?;
        if k >= a {
          RunHas(ks, a, s, k);
        }
        if count == 1 {
          SingleBatch(ks, 10, k);
        }
        SubRun(ks, a, s, n, 10 * count);
        RunShift(ks, n, n, 10 * count);
        QuietStart(ks[n..], count);
      }
    }
  }

  lemma QuietDecides(ks: seq<Kind>, count: nat, m: nat)
    requires count > 0 && m < |ks|
    ensures !DeadBefore(ks, m, count) ==> m < Reach(ks, count)
    ensures QuietBefore(ks, m, StoppingStretch(count)) ==> m >= Reach(ks, count)
  {
    if !DeadBefore(ks, m, count) {
      ReachGetsPast(ks, count, m);
    }
    if QuietBefore(ks, m, StoppingStretch(count)) {
      var n := StoppingStretch(count);
      var a: nat :| a + n <= m && QuietRun(ks, a, n);
      QuietStretchStops(ks, count, a);
    }
  }

  /**
   An idle message is visited unless, somewhere before it, ten times the batch size of neighbouring
   entries or as many as hold the batch size of trimmed ones have nothing due among them; and it is
   missed if twice ten times the batch size, less one, have not (ten of them for batches of one).
   */
  lemma IdleMessageIsVisited(st: Stream, look: Look, maxLen: int, open: bool, count: nat, minIdle: Time, now: Time,
          m: nat)
    requires StreamOk(st) && StreamFits(st, maxLen) && count > 0
    requires m < |st.pending| && KindOf(st, st.pending[m], minIdle, now).Due?
    ensures
      var ks := Kinds(st, st.pending, minIdle, now);
      var visited := EntryIds(Sweep(st, 0, look, maxLen, open, count, minIdle, now).visited);
      && (!DeadBefore(ks, m, count) ==> st.pending[m].id in visited)
      && (QuietBefore(ks, m, StoppingStretch(count)) ==> st.pending[m].id !in visited)
  {
    IdleMessageIsVisitedIff(st, look, maxLen, open, count, minIdle, now, m);
    QuietDecides(Kinds(st, st.pending, minIdle, now), count, m);
  }

  lemma FirstBatch(st: Stream, count: nat, minIdle: Time, now: Time, ks: seq<Kind>)
    requires StreamOk(st) && ks == Kinds(st, st.pending, minIdle, now)
    ensures Messages(st, XAutoClaim(st, 0, count, minIdle, now)) == [] <==> Due !in ks[..Looked(ks, 10 * count, count)]
  {
    var n := Looked(ks, 10 * count, count);
    assert Tail(st.pending, 0) == st.pending;
    BatchOfTail(st, 0, count, minIdle, now);
    KindsOfPrefix(st, st.pending, n, minIdle, now);
    EmptyIffNothingDue(st, Messages(st, XAutoClaim(st, 0, count, minIdle, now)), st.pending[..n], minIdle, now);
  }

  /** The batch size of trimmed entries before it, or ten times that of any. */
  predicate BeyondFirstBatch(ks: seq<Kind>, m: nat, count: nat)
    requires m < |ks|
  {
    m >= 10 * count || Gones(ks[..m]) >= count
  }

  /** A sweep visits nothing if and only if every idle message lies beyond the first batch. */
  lemma {:induction false} NothingIsVisitedIff(st: Stream, look: Look, maxLen: int, open: bool, count: nat,
          minIdle: Time, now: Time)
    requires StreamOk(st)
    ensures
      var ks := Kinds(st, st.pending, minIdle, now);
      Sweep(st, 0, look, maxLen, open, count, minIdle, now).visited == [] <==>
        forall m :: 0 <= m < |ks| && ks[m].Due? ==> BeyondFirstBatch(ks, m, count)
  {
    SweepRound(st, 0, look, maxLen, open, count, minIdle, now);
    FirstBatch(st, count, minIdle, now, Kinds(st, st.pending, minIdle, now));
    FirstDue(Kinds(st, st.pending, minIdle, now), count);
  }

  lemma FirstDue(ks: seq<Kind>, count: nat)
    ensures Due !in ks[..Looked(ks, 10 * count, count)] <==>
      forall m :: 0 <= m < |ks| && ks[m].Due? ==> BeyondFirstBatch(ks, m, count)
  {
    if Due in ks {
      var m := EarliestDue(ks);
      var n := Looked(ks, 10 * count, count);
      LookedReaches(ks, 10 * count, count, m);
      forall k | 0 <= k < |ks| && ks[k].Due?
        ensures m <= k && Gones(ks[..m]) <= Gones(ks[..k])
      {
        assert ks[..k] == ks[..m] + ks[m..k];
        GonesAdd(ks[..m], ks[m..k]);
      }
      assert m < n ==> ks[..n][m] == Due;
    }
  }

  lemma {:induction false} EarliestDue(ks: seq<Kind>) returns (m: nat)
    requires Due in ks
    ensures m < |ks| && ks[m].Due? && Due !in ks[..m]
    ensures forall k :: 0 <= k < |ks| && ks[k].Due? ==> m <= k
  {
    m := 0;
    if !ks[0].Due? {
      m := EarliestDue(ks[1..]);
      assert forall k :: 0 < k < |ks| ==> ks[1..][k - 1] == ks[k];
      assert ks[..m + 1] == [ks[0]] + ks[1..][..m];
      m := m + 1;
    }
  }

  // ----- Idle messages that are missed -----

  /**
   n pending messages, of which the first gone ones were trimmed away, and those at
   the listed positions are idle at time minIdle.
   */
  function BacklogStream(job: JobId, n: nat, gone: nat, idle: set<nat>, minIdle: Time): Stream
    requires minIdle > 0 && gone <= n
  {
    Stream(seq(n - gone, k requires 0 <= k < n - gone => Entry(gone + k + 1, Some(job), Some("run"))), n, n,
           seq(n, k requires 0 <= k < n => Pending(k + 1, "worker", if k in idle then 0 else 1)))
  }

  lemma BacklogStreamOk(job: JobId, n: nat, gone: nat, idle: set<nat>, minIdle: Time)
    requires minIdle > 0 && gone <= n
    ensures
      var st := BacklogStream(job, n, gone, idle, minIdle);
      && StreamOk(st) && |st.pending| == n
      && forall k :: 0 <= k < n ==> Kinds(st, st.pending, minIdle, minIdle)[k] == if k < gone then Gone
        else if k in idle then Due else Young
  {
    var st := BacklogStream(job, n, gone, idle, minIdle);
    forall k | 0 <= k < n
      ensures Lookup(st.entries, st.pending[k].id).Some? <==> k >= gone
    {
      if k >= gone {
        assert st.entries[k - gone].id == st.pending[k].id;
      }
    }
  }

  /** One idle message behind ten times the batch size of others is missed. */
  lemma IdleMessageCanBeMissed(job: JobId, look: Look, open: bool, count: nat, minIdle: Time)
    requires count > 0 && minIdle > 0
    ensures
      var st := BacklogStream(job, 10 * count + 1, 0, {10 * count}, minIdle);
      && StreamOk(st) && KindOf(st, st.pending[10 * count], minIdle, minIdle).Due?
      && Sweep(st, 0, look, 0, open, count, minIdle, minIdle).visited == []
  {
    BacklogStreamOk(job, 10 * count + 1, 0, {10 * count}, minIdle);
    NothingIsVisitedIff(BacklogStream(job, 10 * count + 1, 0, {10 * count}, minIdle), look, 0, open, count, minIdle,
      minIdle);
  }

  function UpTo(n: nat): (r: set<nat>)
    ensures forall k :: k in r <==> 0 <= k < n
  {
    if n == 0 then {} else UpTo(n - 1) + {n - 1}
  }

  /** So is one behind the batch size of entries whose messages were trimmed away, even if all of them are idle. */
  lemma TrimmedEntriesStopSweep(job: JobId, look: Look, open: bool, count: nat, minIdle: Time)
    requires count > 0 && minIdle > 0
    ensures
      var st := BacklogStream(job, count + 1, count, UpTo(count + 1), minIdle);
      && StreamOk(st) && KindOf(st, st.pending[count], minIdle, minIdle).Due?
      && StreamFits(st, 1) && Sweep(st, 0, look, 1, open, count, minIdle, minIdle).visited == []
  {
    var st := BacklogStream(job, count + 1, count, UpTo(count + 1), minIdle);
    BacklogStreamOk(job, count + 1, count, UpTo(count + 1), minIdle);
    AllGone(Kinds(st, st.pending, minIdle, minIdle)[..count]);
    NothingIsVisitedIff(st, look, 1, open, count, minIdle, minIdle);
  }

  lemma {:induction false} AllGone(ks: seq<Kind>)
    requires forall k :: 0 <= k < |ks| ==> ks[k].Gone?
    ensures Gones(ks) == |ks|
  {
    if ks != [] {
      AllGone(ks[1..]);
    }
  }

  /**
   One idle message behind two less than twice ten times the batch size is visited
   if another one is just before them.
   */
  lemma LongerStretchCanBePassed(job: JobId, look: Look, open: bool, count: nat, minIdle: Time) returns (st: Stream)
    requires count > 1 && minIdle > 0
    ensures StreamOk(st) && |st.pending| == 20 * count
    ensures
      var ks := Kinds(st, st.pending, minIdle, minIdle);
      QuietRun(ks, 1, 20 * count - 2) && ks[20 * count - 1].Due?
    ensures st.pending[20 * count - 1].id in EntryIds(Sweep(st, 0, look, 0, open, count, minIdle, minIdle).visited)
  {
    st := BacklogStream(job, 20 * count, 0, {0, 20 * count - 1}, minIdle);
    BacklogStreamOk(job, 20 * count, 0, {0, 20 * count - 1}, minIdle);
    LastIsVisited(st, look, open, count, minIdle, minIdle);
  }

  lemma LastIsVisited(st: Stream, look: Look, open: bool, count: nat, minIdle: Time, now: Time)
    requires StreamOk(st) && count > 1 && |st.pending| == 20 * count
    requires
      var ks := Kinds(st, st.pending, minIdle, now);
      ks[0].Due? && ks[|ks| - 1].Due? && forall k :: 0 < k < |ks| - 1 ==> ks[k].Young?
    ensures QuietRun(Kinds(st, st.pending, minIdle, now), 1, 20 * count - 2)
    ensures st.pending[20 * count - 1].id in EntryIds(Sweep(st, 0, look, 0, open, count, minIdle, now).visited)
  {
    StretchIsPassed(Kinds(st, st.pending, minIdle, now), count);
    IdleMessageIsVisitedIff(st, look, 0, open, count, minIdle, now, 20 * count - 1);
  }

  /** Entries that are idle or young and never gone use no batch up before its budget. */
  lemma {:induction false} LookedAtYoung(ks: seq<Kind>, budget: nat, count: nat)
    requires count > 0 && budget <= |ks| && forall k :: 0 <= k < budget ==> ks[k].Young?
    ensures Looked(ks, budget, count) == budget
  {
    if budget > 0 {
      LookedAtYoung(ks[1..], budget - 1, count);
    }
  }

  lemma StretchIsPassed(ks: seq<Kind>, count: nat)
    requires count > 1 && |ks| == 20 * count && ks[0].Due? && ks[|ks| - 1].Due?
    requires forall k :: 0 < k < |ks| - 1 ==> ks[k].Young?
    ensures Reach(ks, count) == |ks| && QuietRun(ks, 1, 20 * count - 2)
  {
    var n := 10 * count;
    var half := ks[n..];
    LookedAtYoung(ks[1..], n - 1, count - 1);
    assert Looked(ks, n, count) == n;
    assert ks[..n][0] == Due;
    assert half[n - 1] == Due;
    NoGones(half[..n - 1]);
    LookedReaches(half, n, count, n - 1);
    assert Looked(half, n, count) == n;
  }

  lemma {:induction false} NoGones(ks: seq<Kind>)
    requires forall k :: 0 <= k < |ks| ==> ks[k].Young?
    ensures Gones(ks) == 0
  {
    if ks != [] {
      NoGones(ks[1..]);
    }
  }

  // ----- A stream longer than MAXLEN -----

  function TwoIdle(job: JobId): Stream {
    Stream([Entry(1, Some(job), Some("run")), Entry(2, Some(job), Some("run"))], 2, 2,
           [Pending(1, "worker", 0), Pending(2, "worker", 0)])
  }

  lemma {:induction false} TwoIdleReach(job: JobId, now: Time)
    requires now >= 0
    ensures Reach(Kinds(TwoIdle(job), TwoIdle(job).pending, 0, now), 1) == 2
  {
    assert Kinds(TwoIdle(job), TwoIdle(job).pending, 0, now) == [Due, Due];
    assert Looked([Due, Due], 10, 1) == 1 && [Due, Due][..1][0] == Due;
    assert [Due, Due][1..] == [Due];
    assert Reach([Due], 1) == 1;
  }

  lemma {:induction false} TwoIdleBatch(job: JobId, now: Time)
    requires now >= 0
    ensures XAutoClaim(TwoIdle(job), 0, 1, 0, now) == Batch([0], {}, 1)
    ensures Handed(TwoIdle(job), Batch([0], {}, 1), now).pending ==
        [Pending(1, RECOVERY_CONSUMER, now), Pending(2, "worker", 0)]
  {
    var st := TwoIdle(job);
    assert Scan(st, 1, 9, 0, 0, now) == Batch([], {}, 1);
    assert (set k | 0 <= k < 1 :: st.pending[[0][k]].id) == {1} by {
      assert st.pending[[0][0]].id == 1;
    }
    assert st.pending[1..] == [st.pending[1]] && st.pending[1..][1..] == [];
    assert Reassign(st.pending[1..], {1}, {}, now) == [st.pending[1]];
  }

  lemma {:induction false} RequeueAndTrim(st: Stream, e: Entry, look: Look)
    requires ReactionTo(look, e).Requeue? && |st.pending| == 2 && st.pending[0].id == e.id && st.pending[1].id != e.id
    ensures
      var after := HandleAll(st, [e], look, 1, true);
      after == Stream([Entry(st.lastId + 1, e.job, Some("run"))], st.lastId + 1, st.delivered, [st.pending[1]])
  {
    var after := Handle(st, e, look, 1, true);
    assert st.pending[1..] == [st.pending[1]] && st.pending[1..][1..] == [];
    assert Without(st.pending[1..], e.id) == [st.pending[1]];
    assert |st.entries + [Entry(st.lastId + 1, e.job, Some("run"))]| > 0;
    assert [e][1..] == [];
    assert HandleAll(after, [], look, 1, true) == after;
  }

  lemma {:induction false} OnlyGone(st: Stream, now: Time)
    requires |st.pending| == 1 && st.pending[0].id == 2 && Lookup(st.entries, 2).None?
    ensures XAutoClaim(st, 2, 1, 0, now) == Batch([], {2}, 1)
  {
    assert Scan(st, 1, 9, 0, 0, now) == Batch([], {}, 1);
  }

  lemma {:induction false} TwoIdleOk(job: JobId)
    ensures StreamOk(TwoIdle(job)) && !StreamFits(TwoIdle(job), 1)
  {
  }

  lemma {:induction false} TwoIdleSweep(job: JobId, look: Look, now: Time)
    requires now >= 0 && ReactionTo(look, TwoIdle(job).entries[0]).Requeue? && StreamOk(TwoIdle(job))
    ensures Sweep(TwoIdle(job), 0, look, 1, true, 1, 0, now).visited == [TwoIdle(job).entries[0]]
  {
    FirstRound(job, look, now);
    SecondRound(job, look, now);
    SweepRound(TwoIdle(job), 0, look, 1, true, 1, 0, now);
  }

  /** The stream after the first round, which replaced message 1 by message 3. */
  function OneLeft(job: JobId): Stream {
    Stream([Entry(3, Some(job), Some("run"))], 3, 2, [Pending(2, "worker", 0)])
  }

  lemma {:induction false} FirstRound(job: JobId, look: Look, now: Time)
    requires now >= 0 && ReactionTo(look, TwoIdle(job).entries[0]).Requeue?
    ensures
      var st, b := TwoIdle(job), Batch([0], {}, 1);
      && XAutoClaim(st, 0, 1, 0, now) == b && Messages(st, b) == [st.entries[0]] && NextStart(st, b) == 2
      && Round(st, b, look, 1, true, now) == OneLeft(job)
  {
    var st, b := TwoIdle(job), Batch([0], {}, 1);
    TwoIdleBatch(job, now);
    RequeueAndTrim(Handed(st, b, now), st.entries[0], look);
    assert Messages(st, b) == [st.entries[0]];
  }

  lemma {:induction false} SecondRound(job: JobId, look: Look, now: Time)
    ensures StreamOk(OneLeft(job)) && Sweep(OneLeft(job), 2, look, 1, true, 1, 0, now).visited == []
  {
    OnlyGone(OneLeft(job), now);
    SweepRound(OneLeft(job), 2, look, 1, true, 1, 0, now);
  }

  /**
   StreamFits is needed: with MAXLEN lowered to 1, the first message that a sweep replaces pushes
   out the second one, which is idle and within reach, and is then dropped without a visit.
   */
  lemma {:induction false} LoweredMaxLenStopsSweep(job: JobId, look: Look, now: Time)
    requires now >= 0 && ReactionTo(look, TwoIdle(job).entries[0]).Requeue?
    ensures
      var st := TwoIdle(job);
      && StreamOk(st) && !StreamFits(st, 1) && Reach(Kinds(st, st.pending, 0, now), 1) == 2
      && Sweep(st, 0, look, 1, true, 1, 0, now).visited == [st.entries[0]]
  {
    TwoIdleOk(job);
    TwoIdleReach(job, now);
    TwoIdleSweep(job, look, now);
  }

  // ----- Small backlogs -----

  /** The pending messages that are not idle. */
  ghost function Fresh(st: Stream, minIdle: Time, now: Time): set<Pending> {
    set p | p in st.pending && !Idle(p, minIdle, now)
  }

  lemma {:induction false} WindowSize(ps: seq<Pending>, i: nat, n: nat, big: set<Pending>)
    requires SortedPending(ps) && i + n <= |ps|
    requires forall m :: i <= m < i + n ==> ps[m] in big
    ensures n <= |big|
  {
    if n > 0 {
      assert ps[i + n - 1] in big;
      WindowSize(ps, i, n - 1, big - {ps[i + n - 1]});
    }
  }

  /** No pending message was trimmed away. */
  ghost predicate NoneTrimmed(st: Stream) {
    forall p :: p in st.pending ==> Lookup(st.entries, p.id).Some?
  }

  /**
   With every message on the stream and fewer than ten times its batch size that
   are not idle, a sweep visits every idle one.
   */
  lemma SmallBacklogIsSwept(st: Stream, look: Look, maxLen: int, open: bool, count: nat, minIdle: Time, now: Time,
          m: nat)
    requires StreamOk(st) && StreamFits(st, maxLen) && NoneTrimmed(st) && count > 0
    requires |Fresh(st, minIdle, now)| < 10 * count
    requires m < |st.pending| && Idle(st.pending[m], minIdle, now)
    ensures st.pending[m].id in EntryIds(Sweep(st, 0, look, maxLen, open, count, minIdle, now).visited)
  {
    var ks := Kinds(st, st.pending, minIdle, now);
    assert st.pending[m] in st.pending;
    IdleMessageIsVisited(st, look, maxLen, open, count, minIdle, now, m);
    forall a: nat, n: nat | a + n <= m
      ensures !DeadRun(ks, a, n, count)
    {
      if QuietRun(ks, a, n) {
        SmallRun(st, minIdle, now, a, n);
      }
    }
  }

  lemma SmallRun(st: Stream, minIdle: Time, now: Time, a: nat, n: nat)
    requires StreamOk(st) && NoneTrimmed(st) && QuietRun(Kinds(st, st.pending, minIdle, now), a, n)
    ensures n <= |Fresh(st, minIdle, now)| && Gones(Kinds(st, st.pending, minIdle, now)[a..a + n]) == 0
  {
    var ks := Kinds(st, st.pending, minIdle, now);
    forall k | a <= k < a + n
      ensures st.pending[k] in Fresh(st, minIdle, now) && ks[k].Young?
    {
      assert st.pending[k] in st.pending;
      assert ks[a..a + n][k - a] == ks[k];
    }
    NoGones(ks[a..a + n]);
    WindowSize(st.pending, a, n, Fresh(st, minIdle, now));
  }
}
