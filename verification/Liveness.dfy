/** What rounds of dispatching reach, and why no job is ever stuck. */
module Liveness {
  import opened JobRows
  import opened JobStore
  import opened Options
  import opened Protocol
  import opened RecoveryService
  import opened RedisQueue

  // ----- Coverage -----

  function Ids(ids: seq<JobId>): set<JobId> {
    set id | id in ids
  }

  /** Successive results of the dispatch query at one clock reading, each dispatched before the next query. */
  predicate LegalPicks(rows: Table, now: Time, picks: seq<seq<JobId>>)
    decreases |picks|
  {
    picks == [] || (Selection(rows, now, picks[0]) && LegalPicks(Dispatched(rows, picks[0], now), now, picks[1..]))
  }

  function RowsAfter(rows: Table, now: Time, picks: seq<seq<JobId>>): Table
    decreases |picks|
  {
    if picks == [] then rows else RowsAfter(Dispatched(rows, picks[0], now), now, picks[1..])
  }

  function StreamAfter(st: Stream, maxLen: int, picks: seq<seq<JobId>>): Stream
    decreases |picks|
  {
    if picks == [] then st else StreamAfter(SendAll(st, picks[0], maxLen), maxLen, picks[1..])
  }

  function Covered(picks: seq<seq<JobId>>): set<JobId> {
    if picks == [] then {} else Ids(picks[0]) + Covered(picks[1..])
  }

  ghost predicate PairwiseDisjoint(picks: seq<seq<JobId>>) {
    forall i, k :: 0 <= i < k < |picks| ==> Ids(picks[i]) !! Ids(picks[k])
  }

  lemma {:induction false} DistinctSize(ids: seq<JobId>)
    requires Distinct(ids)
    ensures |Ids(ids)| == |ids|
  {
    if ids != [] {
      var n := |ids| - 1;
      DistinctSize(ids[..n]);
      assert forall id :: id in ids <==> id in ids[..n] || id == ids[n];
      assert Ids(ids) == Ids(ids[..n]) + {ids[n]};
    }
  }

  /** Dispatching takes exactly the listed jobs out of the eligible ones. */
  lemma DispatchShrinksEligible(rows: Table, ids: seq<JobId>, now: Time)
    requires Selection(rows, now, ids)
    ensures Eligible(Dispatched(rows, ids, now), now) == Eligible(rows, now) - Ids(ids)
    ensures |Eligible(Dispatched(rows, ids, now), now)| == |Eligible(rows, now)| - |ids|
  {
    var after := Dispatched(rows, ids, now);
    assert forall id :: id in rows && id in ids ==> !Dispatchable(after[id], now);
    assert Ids(ids) <= Eligible(rows, now);
    DistinctSize(ids);
  }

  /**
   However the query picks, calls at one clock reading never pick a job twice, and n of them
   cover exactly min(100 n, N) of N eligible jobs.
   */
  lemma {:induction false} Coverage(rows: Table, now: Time, picks: seq<seq<JobId>>)
    requires LegalPicks(rows, now, picks)
    ensures Covered(picks) <= Eligible(rows, now)
    ensures PairwiseDisjoint(picks)
    ensures |Covered(picks)| ==
      if DISPATCH_LIMIT * |picks| < |Eligible(rows, now)| then DISPATCH_LIMIT * |picks| else |Eligible(rows, now)|
  {
    if picks != [] {
      DispatchShrinksEligible(rows, picks[0], now);
      DistinctSize(picks[0]);
      Coverage(Dispatched(rows, picks[0], now), now, picks[1..]);
      assert Ids(picks[0]) !! Covered(picks[1..]);
      DisjointFrom(picks);
      assert |Covered(picks)| == |Ids(picks[0])| + |Covered(picks[1..])|;
    }
  }

  lemma DisjointFrom(picks: seq<seq<JobId>>)
    requires picks != [] && Ids(picks[0]) !! Covered(picks[1..]) && PairwiseDisjoint(picks[1..])
    ensures PairwiseDisjoint(picks)
  {
    forall i, k | 0 <= i < k < |picks|
      ensures Ids(picks[i]) !! Ids(picks[k])
    {
      CoveredHas(picks[1..], k - 1);
      if i > 0 {
        assert Ids(picks[1..][i - 1]) !! Ids(picks[1..][k - 1]);
      }
    }
  }

  lemma {:induction false} CoveredHas(picks: seq<seq<JobId>>, k: nat)
    requires k < |picks|
    ensures Ids(picks[k]) <= Covered(picks)
  {
    if k > 0 {
      CoveredHas(picks[1..], k - 1);
    }
  }

  lemma {:induction false} CoveredFrom(picks: seq<seq<JobId>>, j: JobId) returns (k: nat)
    requires j in Covered(picks)
    ensures k < |picks| && j in picks[k]
  {
    if j in picks[0] {
      k := 0;
    } else {
      k := CoveredFrom(picks[1..], j);
      k := k + 1;
    }
  }

  /** Enough calls cover every eligible job. */
  lemma EveryEligibleJobIsPicked(rows: Table, now: Time, picks: seq<seq<JobId>>, j: JobId) returns (k: nat)
    requires LegalPicks(rows, now, picks) && DISPATCH_LIMIT * |picks| >= |Eligible(rows, now)|
    requires j in Eligible(rows, now)
    ensures k < |picks| && j in picks[k]
  {
    Coverage(rows, now, picks);
    var all, covered := Eligible(rows, now), Covered(picks);
    assert |all - covered| == |all| - |covered|;
    k := CoveredFrom(picks, j);
  }

  // ----- Messages survive the call that sends them -----

  /** The entries for the listed jobs, numbered on from an id. */
  function Numbered(id: nat, ids: seq<JobId>): (entries: seq<Entry>)
    ensures |entries| == |ids|
    ensures forall i :: 0 <= i < |ids| ==> entries[i] == Entry(id + 1 + i, Some(ids[i]), Some("run"))
  {
    seq(|ids|, i requires 0 <= i < |ids| => Entry(id + 1 + i, Some(ids[i]), Some("run")))
  }

  /** Trimming after each message amounts to trimming once at the end. */
  lemma {:induction false} SendAllTrimsOnce(st: Stream, ids: seq<JobId>, maxLen: int)
    ensures SendAll(st, ids, maxLen).lastId == st.lastId + |ids| && SendAll(st, ids, maxLen).delivered == st.delivered
    ensures ids != [] ==> SendAll(st, ids, maxLen).entries == Trim(st.entries + Numbered(st.lastId, ids), maxLen)
  {
    if ids != [] {
      var n := |ids| - 1;
      SendAllTrimsOnce(st, ids[..n], maxLen);
      assert Numbered(st.lastId, ids) == Numbered(st.lastId, ids[..n]) + Numbered(st.lastId, ids)[n..];
      assert st.entries + Numbered(st.lastId, ids) ==
        st.entries + Numbered(st.lastId, ids[..n]) + [Entry(st.lastId + |ids|, Some(ids[n]), Some("run"))];
      TrimTwice(st.entries + Numbered(st.lastId, ids[..n]), Entry(st.lastId + |ids|, Some(ids[n]), Some("run")),
        maxLen);
      if n == 0 {
        assert st.entries + Numbered(st.lastId, ids[..n]) == st.entries;
      }
    }
  }

  lemma {:induction false} SendAllOk(st: Stream, ids: seq<JobId>, maxLen: int)
    requires StreamOk(st)
    ensures StreamOk(SendAll(st, ids, maxLen))
  {
    if ids != [] {
      SendAllOk(st, ids[..|ids| - 1], maxLen);
      XAddOk(SendAll(st, ids[..|ids| - 1], maxLen), maxLen, Some(ids[|ids| - 1]), Some("run"));
    }
  }

  lemma SentMessagesAreUndelivered(st: Stream, ids: seq<JobId>, maxLen: int, j: JobId)
    requires StreamOk(st) && (maxLen <= 0 || |ids| <= maxLen) && j in ids
    ensures Undelivered(SendAll(st, ids, maxLen), j)
  {
    SendAllTrimsOnce(st, ids, maxLen);
    var sent, after := Numbered(st.lastId, ids), SendAll(st, ids, maxLen);
    var i :| 0 <= i < |ids| && ids[i] == j;
    TailStays(st.entries, sent, maxLen, i);
    assert sent[i] in after.entries && sent[i].id > after.delivered && IsFor(sent[i], j);
  }

  lemma TailStays(entries: seq<Entry>, tail: seq<Entry>, maxLen: int, i: nat)
    requires i < |tail| && (maxLen <= 0 || |tail| <= maxLen)
    ensures tail[i] in Trim(entries + tail, maxLen)
  {
    var trimmed := Trim(entries + tail, maxLen);
    assert trimmed[|trimmed| - |tail| + i] == tail[i];
  }

  /** The first of more messages than MAXLEN is trimmed by the later ones. */
  lemma FirstMessageIsTrimmed(st: Stream, ids: seq<JobId>, maxLen: int)
    requires Distinct(ids) && 0 < maxLen < |ids|
    ensures !Undelivered(SendAll(st, ids, maxLen), ids[0])
  {
    SendAllTrimsOnce(st, ids, maxLen);
    var sent := Numbered(st.lastId, ids);
    var after := SendAll(st, ids, maxLen);
    assert after.entries == sent[|ids| - maxLen..];
    forall e | e in after.entries
      ensures !IsFor(e, ids[0])
    {
      var i :| |ids| - maxLen <= i < |ids| && sent[i] == e;
      assert ids[0] != ids[i];
    }
  }

  /** All messages of a call survive it if and only if MAXLEN is off or at least the number of messages. */
  lemma CallSurvivesIff(st: Stream, ids: seq<JobId>, maxLen: int)
    requires StreamOk(st) && Distinct(ids)
    ensures (forall j :: j in ids ==> Undelivered(SendAll(st, ids, maxLen), j)) <==> (maxLen <= 0 || |ids| <= maxLen)
  {
    if maxLen <= 0 || |ids| <= maxLen {
      forall j | j in ids
        ensures Undelivered(SendAll(st, ids, maxLen), j)
      {
        SentMessagesAreUndelivered(st, ids, maxLen, j);
      }
    } else {
      FirstMessageIsTrimmed(st, ids, maxLen);
      assert ids[0] in ids;
    }
  }

  // ----- Which schedules serve whom -----

  lemma {:induction false} ChooseFrom(pool: set<JobId>, n: nat) returns (ids: seq<JobId>)
    requires n <= |pool|
    ensures |ids| == n && Distinct(ids) && forall id :: id in ids ==> id in pool
  {
    ids := [];
    if n > 0 {
      var id :| id in pool;
      ids := ChooseFrom(pool - {id}, n - 1);
      ids := ids + [id];
    }
  }

  /** The size of the next batch: all eligible jobs, but no more than the query's limit. */
  function BatchSize(rows: Table, now: Time): nat {
    if |Eligible(rows, now)| < DISPATCH_LIMIT then |Eligible(rows, now)| else DISPATCH_LIMIT
  }

  /** The query may return any eligible job last. */
  lemma SelectionEndingWith(rows: Table, now: Time, j: JobId) returns (ids: seq<JobId>)
    requires j in Eligible(rows, now)
    ensures Selection(rows, now, ids) && ids != [] && ids[|ids| - 1] == j
  {
    assert |Eligible(rows, now) - {j}| == |Eligible(rows, now)| - 1;
    ids := ChooseFrom(Eligible(rows, now) - {j}, BatchSize(rows, now) - 1);
    ids := ids + [j];
  }

  /** There are legal results of any number of calls. */
  lemma {:induction false} LegalPicksExist(rows: Table, now: Time, n: nat) returns (picks: seq<seq<JobId>>)
    ensures LegalPicks(rows, now, picks) && |picks| == n
    decreases n
  {
    picks := [];
    if n > 0 {
      var ids := ChooseFrom(Eligible(rows, now), BatchSize(rows, now));
      picks := LegalPicksExist(Dispatched(rows, ids, now), now, n - 1);
      picks := [ids] + picks;
    }
  }

  /** Queued, and waiting for nothing: a message is on the stream and any worker's Claim succeeds. */
  ghost predicate Served(rows: Table, st: Stream, j: JobId, now: Time) {
    && j in rows && rows[j].status.Queued? && Undelivered(st, j)
    && forall w, lease :: Affects(rows, j, Claim(w, lease), now)
  }

  ghost predicate ServedAfter(rows: Table, st: Stream, maxLen: int, now: Time, picks: seq<seq<JobId>>, j: JobId) {
    Served(RowsAfter(rows, now, picks), StreamAfter(st, maxLen, picks), j, now)
  }

  /** Some call leaves the job served. */
  ghost predicate GetsServed(rows: Table, st: Stream, maxLen: int, now: Time, picks: seq<seq<JobId>>, j: JobId) {
    exists k :: 0 < k <= |picks| && ServedAfter(rows, st, maxLen, now, picks[..k], j)
  }

  lemma {:induction false} PickSizes(rows: Table, now: Time, picks: seq<seq<JobId>>, k: nat)
    requires LegalPicks(rows, now, picks) && k < |picks|
    ensures |picks[k]| <= BatchSize(rows, now)
    decreases k
  {
    if k > 0 {
      DispatchShrinksEligible(rows, picks[0], now);
      PickSizes(Dispatched(rows, picks[0], now), now, picks[1..], k - 1);
    }
  }

  /** A job whose message survives the call that sends it is served after that call. */
  lemma {:induction false} PickServes(rows: Table, st: Stream, maxLen: int, now: Time, picks: seq<seq<JobId>>, k: nat,
          j: JobId)
    requires LegalPicks(rows, now, picks) && StreamOk(st)
    requires k < |picks| && j in picks[k] && (maxLen <= 0 || |picks[k]| <= maxLen)
    ensures ServedAfter(rows, st, maxLen, now, picks[..k + 1], j)
    decreases k
  {
    SendAllOk(st, picks[0], maxLen);
    if k == 0 {
      SentMessagesAreUndelivered(st, picks[0], maxLen, j);
      assert j in Eligible(rows, now);
      assert picks[..1][1..] == [];
    } else {
      assert picks[..k + 1][1..] == picks[1..][..k];
      PickServes(Dispatched(rows, picks[0], now), SendAll(st, picks[0], maxLen), maxLen, now, picks[1..], k - 1, j);
    }
  }

  lemma UnsentStaysGone(st: Stream, ids: seq<JobId>, maxLen: int, j: JobId)
    requires !Undelivered(st, j) && j !in ids
    ensures !Undelivered(SendAll(st, ids, maxLen), j)
  {
    SendAllTrimsOnce(st, ids, maxLen);
    var sent, after := Numbered(st.lastId, ids), SendAll(st, ids, maxLen);
    forall e | e in after.entries && e.id > after.delivered
      ensures !IsFor(e, j)
    {
      if ids != [] && e !in st.entries {
        assert e in st.entries + sent;
        var i :| 0 <= i < |sent| && sent[i] == e;
        assert ids[i] in ids;
      }
    }
  }

  lemma {:induction false} UnpickedStaysGone(st: Stream, maxLen: int, picks: seq<seq<JobId>>, j: JobId)
    requires !Undelivered(st, j) && j !in Covered(picks)
    ensures !Undelivered(StreamAfter(st, maxLen, picks), j)
    decreases |picks|
  {
    if picks != [] {
      UnsentStaysGone(st, picks[0], maxLen, j);
      UnpickedStaysGone(SendAll(st, picks[0], maxLen), maxLen, picks[1..], j);
    }
  }

  lemma {:induction false} CoveredPrefix(picks: seq<seq<JobId>>, k: nat)
    requires k <= |picks|
    ensures Covered(picks[..k]) <= Covered(picks)
  {
    if k > 0 {
      assert picks[..k][1..] == picks[1..][..k - 1];
      CoveredPrefix(picks[1..], k - 1);
    }
  }

  lemma GoneAfter(st: Stream, maxLen: int, picks: seq<seq<JobId>>, k: nat, j: JobId)
    requires 0 < k <= |picks| && !Undelivered(SendAll(st, picks[0], maxLen), j) && j !in Covered(picks[1..])
    ensures !Undelivered(StreamAfter(st, maxLen, picks[..k]), j)
  {
    CoveredPrefix(picks[1..], k - 1);
    assert picks[..k][1..] == picks[1..][..k - 1];
    UnpickedStaysGone(SendAll(st, picks[0], maxLen), maxLen, picks[1..][..k - 1], j);
  }

  /**
   The first job of a first batch that is longer than MAXLEN is served by no call:
   its message is trimmed and never sent again.
   */
  lemma FirstOfLongBatchIsNotServed(rows: Table, st: Stream, maxLen: int, now: Time, picks: seq<seq<JobId>>)
    requires LegalPicks(rows, now, picks) && picks != [] && 0 < maxLen < |picks[0]|
    ensures !GetsServed(rows, st, maxLen, now, picks, picks[0][0])
  {
    var j := picks[0][0];
    FirstMessageIsTrimmed(st, picks[0], maxLen);
    DispatchShrinksEligible(rows, picks[0], now);
    Coverage(Dispatched(rows, picks[0], now), now, picks[1..]);
    forall k | 0 < k <= |picks|
      ensures !ServedAfter(rows, st, maxLen, now, picks[..k], j)
    {
      GoneAfter(st, maxLen, picks, k, j);
    }
  }

  /**
   However the query picks, one call per hundred eligible jobs serves all of them if and only if
   MAXLEN is off or at least the size of the first batch.
   */
  lemma AllAreServedIff(rows: Table, st: Stream, maxLen: int, now: Time, picks: seq<seq<JobId>>)
    requires StreamOk(st) && LegalPicks(rows, now, picks) && DISPATCH_LIMIT * |picks| >= |Eligible(rows, now)|
    ensures (forall j :: j in Eligible(rows, now) ==> GetsServed(rows, st, maxLen, now, picks, j)) <==>
      maxLen <= 0 || BatchSize(rows, now) <= maxLen
  {
    if maxLen <= 0 || BatchSize(rows, now) <= maxLen {
      forall j | j in Eligible(rows, now)
        ensures GetsServed(rows, st, maxLen, now, picks, j)
      {
        var k := EveryEligibleJobIsPicked(rows, now, picks, j);
        PickSizes(rows, now, picks, k);
        PickServes(rows, st, maxLen, now, picks, k, j);
        assert ServedAfter(rows, st, maxLen, now, picks[..k + 1], j);
      }
    } else {
      FirstOfLongBatchIsNotServed(rows, st, maxLen, now, picks);
      assert picks[0][0] in Eligible(rows, now);
    }
  }

  // ----- Everybody at once -----

  function AllOf(picks: seq<seq<JobId>>): seq<JobId> {
    if picks == [] then [] else picks[0] + AllOf(picks[1..])
  }

  lemma {:induction false} AllOfCovers(picks: seq<seq<JobId>>, j: JobId)
    ensures j in AllOf(picks) <==> j in Covered(picks)
  {
    if picks != [] {
      AllOfCovers(picks[1..], j);
    }
  }

  lemma {:induction false} AllOfDistinct(rows: Table, now: Time, picks: seq<seq<JobId>>)
    requires LegalPicks(rows, now, picks)
    ensures Distinct(AllOf(picks))
    decreases |picks|
  {
    if picks != [] {
      var rest := Dispatched(rows, picks[0], now);
      DispatchShrinksEligible(rows, picks[0], now);
      AllOfDistinct(rest, now, picks[1..]);
      Coverage(rest, now, picks[1..]);
      forall id | id in AllOf(picks[1..])
        ensures id !in picks[0]
      {
        AllOfCovers(picks[1..], id);
      }
      DistinctConcat(picks[0], AllOf(picks[1..]));
    }
  }

  lemma DistinctConcat(first: seq<JobId>, second: seq<JobId>)
    requires Distinct(first) && Distinct(second) && forall id :: id in second ==> id !in first
    ensures Distinct(first + second)
  {
    var all := first + second;
    forall i, k | 0 <= i < k < |all|
      ensures all[i] != all[k]
    {
      assert k >= |first| ==> all[k] in second;
      assert i < |first| ==> all[i] in first;
    }
  }

  lemma {:induction false} SendAllConcat(st: Stream, first: seq<JobId>, second: seq<JobId>, maxLen: int)
    ensures SendAll(st, first + second, maxLen) == SendAll(SendAll(st, first, maxLen), second, maxLen)
  {
    if second == [] {
      assert first + second == first;
    } else {
      var n := |second| - 1;
      assert (first + second)[..|first| + n] == first + second[..n];
      SendAllConcat(st, first, second[..n], maxLen);
    }
  }

  lemma {:induction false} StreamAfterSendsAll(st: Stream, maxLen: int, picks: seq<seq<JobId>>)
    ensures StreamAfter(st, maxLen, picks) == SendAll(st, AllOf(picks), maxLen)
    decreases |picks|
  {
    if picks != [] {
      StreamAfterSendsAll(SendAll(st, picks[0], maxLen), maxLen, picks[1..]);
      SendAllConcat(st, picks[0], AllOf(picks[1..]), maxLen);
    }
  }

  /** Dispatching changes nothing but the markers. */
  lemma {:induction false} RowsAfterKeeps(rows: Table, now: Time, picks: seq<seq<JobId>>, j: JobId)
    requires j in rows
    ensures j in RowsAfter(rows, now, picks)
    ensures RowsAfter(rows, now, picks)[j].(lastDispatchedAt := rows[j].lastDispatchedAt) == rows[j]
    decreases |picks|
  {
    if picks != [] {
      RowsAfterKeeps(Dispatched(rows, picks[0], now), now, picks[1..], j);
    }
  }

  lemma ServedAtEndIff(rows: Table, st: Stream, maxLen: int, now: Time, picks: seq<seq<JobId>>, j: JobId)
    requires j in Eligible(rows, now)
    ensures ServedAfter(rows, st, maxLen, now, picks, j) <==> Undelivered(SendAll(st, AllOf(picks), maxLen), j)
  {
    RowsAfterKeeps(rows, now, picks, j);
    StreamAfterSendsAll(st, maxLen, picks);
  }

  /**
   After enough calls every eligible job is served at the same time, with all the messages still
   there, if and only if MAXLEN is off or at least the number of eligible jobs.
   */
  lemma AllAreServedAtOnceIff(rows: Table, st: Stream, maxLen: int, now: Time, picks: seq<seq<JobId>>)
    requires StreamOk(st) && LegalPicks(rows, now, picks) && DISPATCH_LIMIT * |picks| >= |Eligible(rows, now)|
    ensures (forall j :: j in Eligible(rows, now) ==> ServedAfter(rows, st, maxLen, now, picks, j)) <==>
      maxLen <= 0 || |Eligible(rows, now)| <= maxLen
  {
    var ids := AllOf(picks);
    Coverage(rows, now, picks);
    AllOfDistinct(rows, now, picks);
    DistinctSize(ids);
    forall j
      ensures j in ids <==> j in Eligible(rows, now)
    {
      AllOfCovers(picks, j);
      if j in Eligible(rows, now) {
        var k := EveryEligibleJobIsPicked(rows, now, picks, j);
        CoveredHas(picks, k);
      }
    }
    assert Ids(ids) == Eligible(rows, now);
    CallSurvivesIff(st, ids, maxLen);
    forall j | j in Eligible(rows, now)
      ensures ServedAfter(rows, st, maxLen, now, picks, j) <==> Undelivered(SendAll(st, ids, maxLen), j)
    {
      ServedAtEndIff(rows, st, maxLen, now, picks, j);
    }
  }

  // ----- No job is stuck -----

  /**
   One lease duration after any reachable state, every unsettled job is dead-lettered
   or eligible once the sweep has run.
   */
  lemma SweptJobIsDeadOrEligible(s: State, later: Time, j: JobId)
    requires Reachable(s) && j in s.rows && !Terminal(s.rows[j]) && later > s.now + LEASE_DURATION
    ensures
      var rows := ExpireAll(s.rows, later);
      rows[j].status.DeadLettered? || j in Eligible(rows, later)
  {
    ReachableInv(s);
  }

  /** Every unsettled job is dead-lettered by the sweep at the later time, or served by one of the calls after it. */
  ghost predicate NobodyIsStuck(rows: Table, st: Stream, maxLen: int, later: Time, picks: seq<seq<JobId>>) {
    var swept := ExpireAll(rows, later);
    forall j :: j in rows && !Terminal(rows[j]) ==>
      swept[j].status.DeadLettered? || GetsServed(swept, st, maxLen, later, picks, j)
  }

  /**
   Whatever happened before and whatever became of the messages, let the clock pass one lease
   duration, run the sweep, and make one dispatch call per hundred eligible jobs. Then nobody is
   stuck, whichever rows the query picks, if and only if MAXLEN is off or at least the first batch.
   */
  lemma EveryScheduleServesIff(s: State, st: Stream, maxLen: int, later: Time, picks: seq<seq<JobId>>)
    requires Reachable(s) && later > s.now + LEASE_DURATION && StreamOk(st)
    requires LegalPicks(ExpireAll(s.rows, later), later, picks)
    requires DISPATCH_LIMIT * |picks| >= |Eligible(ExpireAll(s.rows, later), later)|
    ensures NobodyIsStuck(s.rows, st, maxLen, later, picks) <==>
      maxLen <= 0 || BatchSize(ExpireAll(s.rows, later), later) <= maxLen
  {
    var rows := ExpireAll(s.rows, later);
    forall j | j in s.rows && !Terminal(s.rows[j])
      ensures rows[j].status.DeadLettered? || j in Eligible(rows, later)
    {
      SweptJobIsDeadOrEligible(s, later, j);
    }
    forall j | j in Eligible(rows, later)
      ensures j in s.rows && !Terminal(s.rows[j]) && !rows[j].status.DeadLettered?
    {
    }
    AllAreServedIff(rows, st, maxLen, later, picks);
  }

  // ----- The schedule consists of steps of the protocol -----

  datatype Run = Run(states: seq<State>, acts: seq<Action>)

  ghost predicate RunOk(r: Run) {
    IsRun(r.states, r.acts)
  }

  function Last(r: Run): State
    requires |r.states| == |r.acts| + 1
  {
    r.states[|r.acts|]
  }

  /** The clock, the sweep and the dispatcher, which may drop a batch; nobody else. */
  predicate Background(a: Action) {
    a.Tick? || a.RecoverAbandoned? || a.SelectBatch? || a.SendHead? || a.MarkHead? || a.DropBatch?
  }

  /** The second run goes on from the first with background steps only. */
  ghost predicate Continues(r: Run, later: Run) {
    && r.states <= later.states && r.acts <= later.acts
    && forall i :: |r.acts| <= i < |later.acts| ==> Background(later.acts[i])
  }

  lemma ContinuesFurther(r: Run, mid: Run, later: Run)
    requires Continues(r, mid) && Continues(mid, later)
    ensures Continues(r, later)
  {
    forall i | |r.acts| <= i < |later.acts|
      ensures Background(later.acts[i])
    {
      if i < |mid.acts| {
        assert later.acts[i] == mid.acts[i];
      }
    }
  }

  function StreamStep(st: Stream, maxLen: int, s: State, a: Action): Stream {
    if a.SendHead? && a.added && s.batch != [] then XAdd(st, maxLen, Some(s.batch[0]), Some("run")) else st
  }

  /** The stream after the first n steps of a run, if it was st after the first from of them. */
  function StreamAt(st: Stream, maxLen: int, r: Run, from: nat, n: nat): Stream
    requires from <= n <= |r.acts| < |r.states|
    decreases n
  {
    if n == from then st else StreamStep(StreamAt(st, maxLen, r, from, n - 1), maxLen, r.states[n - 1], r.acts[n - 1])
  }

  lemma {:induction false} StreamOfPrefix(st: Stream, maxLen: int, r: Run, later: Run, from: nat, n: nat)
    requires from <= n <= |r.acts| < |r.states| && |later.acts| < |later.states|
    requires r.states <= later.states && r.acts <= later.acts
    ensures StreamAt(st, maxLen, later, from, n) == StreamAt(st, maxLen, r, from, n)
    decreases n
  {
    if n > from {
      StreamOfPrefix(st, maxLen, r, later, from, n - 1);
    }
  }

  function StreamNow(st: Stream, maxLen: int, r: Run, from: nat): Stream
    requires from <= |r.acts| < |r.states|
  {
    StreamAt(st, maxLen, r, from, |r.acts|)
  }

  lemma Go(r: Run, a: Action, st: Stream, maxLen: int, from: nat) returns (later: Run)
    requires RunOk(r) && from <= |r.acts| && Enabled(Last(r), a) && Background(a)
    ensures RunOk(later) && Continues(r, later) && Last(later) == Next(Last(r), a)
    ensures StreamNow(st, maxLen, later, from) == StreamStep(StreamNow(st, maxLen, r, from), maxLen, Last(r), a)
  {
    later := Run(r.states + [Next(Last(r), a)], r.acts + [a]);
    StreamOfPrefix(st, maxLen, r, later, from, |r.acts|);
  }

  /** Sending and marking the head of the batch. */
  lemma DispatchOne(r: Run, st: Stream, maxLen: int, from: nat) returns (later: Run)
    requires RunOk(r) && from <= |r.acts| && Last(r).batch != [] && !Last(r).sent
    ensures RunOk(later) && Continues(r, later)
    ensures Last(later).now == Last(r).now && Last(later).batch == Last(r).batch[1..] && !Last(later).sent
    ensures Last(later).rows == Dispatched(Last(r).rows, [Last(r).batch[0]], Last(r).now)
    ensures StreamNow(st, maxLen, later, from) == XAdd(StreamNow(st, maxLen, r, from), maxLen, Some(Last(r).batch[0]),
        Some("run"))
  {
    QuietRows(Last(r), SendHead(true));
    var sent := Go(r, SendHead(true), st, maxLen, from);
    MarkRows(Last(sent));
    later := Go(sent, MarkHead(true), st, maxLen, from);
    ContinuesFurther(r, sent, later);
  }

  /** These steps change no row. */
  lemma QuietRows(s: State, a: Action)
    requires a.SendHead? || a.SelectBatch? || a.DropBatch? || a.Tick?
    ensures NextRows(s, a) == s.rows
  {
  }

  lemma MarkRows(s: State)
    requires s.batch != []
    ensures NextRows(s, MarkHead(true)) == Dispatched(s.rows, [s.batch[0]], s.now)
  {
  }

  lemma {:induction false} SendHeadFirst(st: Stream, ids: seq<JobId>, maxLen: int)
    requires ids != []
    ensures SendAll(XAdd(st, maxLen, Some(ids[0]), Some("run")), ids[1..], maxLen) == SendAll(st, ids, maxLen)
  {
    var n := |ids| - 1;
    if n > 0 {
      SendHeadFirst(st, ids[..n], maxLen);
      assert ids[..n][1..] == ids[1..][..n - 1];
    }
  }

  lemma {:induction false} DispatchBatch(r: Run, st: Stream, maxLen: int, from: nat) returns (later: Run)
    requires RunOk(r) && from <= |r.acts| && !Last(r).sent
    ensures RunOk(later) && Continues(r, later)
    ensures Last(later).now == Last(r).now && Last(later).batch == [] && !Last(later).sent
    ensures Last(later).rows == Dispatched(Last(r).rows, Last(r).batch, Last(r).now)
    ensures StreamNow(st, maxLen, later, from) == SendAll(StreamNow(st, maxLen, r, from), Last(r).batch, maxLen)
    decreases |Last(r).batch|
  {
    later := r;
    if Last(r).batch != [] {
      var one := DispatchOne(r, st, maxLen, from);
      later := DispatchBatch(one, st, maxLen, from);
      ContinuesFurther(r, one, later);
      SendHeadFirst(StreamNow(st, maxLen, r, from), Last(r).batch, maxLen);
      DispatchedHeadFirst(Last(r).rows, Last(r).batch, Last(r).now);
    }
  }

  lemma DispatchedHeadFirst(rows: Table, ids: seq<JobId>, now: Time)
    requires ids != []
    ensures Dispatched(Dispatched(rows, [ids[0]], now), ids[1..], now) == Dispatched(rows, ids, now)
  {
  }

  lemma {:induction false} DispatchPicks(r: Run, picks: seq<seq<JobId>>, st: Stream, maxLen: int,
          from: nat) returns (later: Run)
    requires RunOk(r) && from <= |r.acts| && Last(r).batch == [] && !Last(r).sent
        && LegalPicks(Last(r).rows, Last(r).now, picks)
    ensures RunOk(later) && Continues(r, later)
    ensures Last(later).now == Last(r).now && Last(later).rows == RowsAfter(Last(r).rows, Last(r).now, picks)
    ensures StreamNow(st, maxLen, later, from) == StreamAfter(StreamNow(st, maxLen, r, from), maxLen, picks)
    decreases |picks|
  {
    later := r;
    if picks != [] {
      QuietRows(Last(r), SelectBatch(picks[0]));
      var selected := Go(r, SelectBatch(picks[0]), st, maxLen, from);
      var sent := DispatchBatch(selected, st, maxLen, from);
      later := DispatchPicks(sent, picks[1..], st, maxLen, from);
      ContinuesFurther(r, selected, sent);
      ContinuesFurther(r, sent, later);
    }
  }

  /** The current batch is dropped, the clock moves on, and the sweep runs. */
  lemma WaitAndSweep(r: Run, time: Time, st: Stream, maxLen: int, from: nat) returns (later: Run)
    requires RunOk(r) && from <= |r.acts| && time >= Last(r).now
    ensures RunOk(later) && Continues(r, later)
    ensures Last(later).now == time && Last(later).rows == ExpireAll(Last(r).rows, time)
    ensures Last(later).batch == [] && !Last(later).sent
    ensures StreamNow(st, maxLen, later, from) == StreamNow(st, maxLen, r, from)
  {
    var d: nat := time - Last(r).now;
    QuietRows(Last(r), DropBatch);
    var dropped := Go(r, DropBatch, st, maxLen, from);
    QuietRows(Last(dropped), Tick(d));
    var waited := Go(dropped, Tick(d), st, maxLen, from);
    SweepRows(Last(waited));
    later := Go(waited, RecoverAbandoned, st, maxLen, from);
    ContinuesFurther(r, dropped, waited);
    ContinuesFurther(r, waited, later);
  }

  lemma SweepRows(s: State)
    ensures NextRows(s, RecoverAbandoned) == ExpireAll(s.rows, s.now)
  {
  }

  /**
   The clock passing, the sweep and the dispatch calls continue any run, and leave
   the rows and the stream that they should.
   */
  lemma ScheduleIsARun(r: Run, time: Time, picks: seq<seq<JobId>>, st: Stream, maxLen: int) returns (later: Run)
    requires RunOk(r) && time >= Last(r).now && LegalPicks(ExpireAll(Last(r).rows, time), time, picks)
    ensures RunOk(later) && Continues(r, later)
    ensures Last(later).now == time && Last(later).rows == RowsAfter(ExpireAll(Last(r).rows, time), time, picks)
    ensures StreamNow(st, maxLen, later, |r.acts|) == StreamAfter(st, maxLen, picks)
  {
    var swept := WaitAndSweep(r, time, st, maxLen, |r.acts|);
    later := DispatchPicks(swept, picks, st, maxLen, |r.acts|);
    ContinuesFurther(r, swept, later);
  }

  /** XADD always keeps the newest entry. */
  lemma NewestStays(st: Stream, maxLen: int, job: JobId)
    requires StreamOk(st)
    ensures Undelivered(XAdd(st, maxLen, Some(job), Some("run")), job)
  {
    var after := XAdd(st, maxLen, Some(job), Some("run"));
    var e := after.entries[|after.entries| - 1];
    assert e in after.entries && e.id > after.delivered && IsFor(e, job);
  }

  lemma OneCall(rows: Table, st: Stream, maxLen: int, now: Time, ids: seq<JobId>)
    ensures RowsAfter(rows, now, [ids]) == Dispatched(rows, ids, now)
        && StreamAfter(st, maxLen, [ids]) == SendAll(st, ids, maxLen)
  {
    assert [ids][1..] == [];
  }

  lemma DispatchedIsServed(rows: Table, st: Stream, now: Time, ids: seq<JobId>, j: JobId)
    requires j in Eligible(rows, now) && Undelivered(st, j)
    ensures Served(Dispatched(rows, ids, now), st, j, now)
  {
  }

  /** So the last job of a batch is served whatever MAXLEN is. */
  lemma LastIsServed(rows: Table, st: Stream, maxLen: int, now: Time, ids: seq<JobId>)
    requires Selection(rows, now, ids) && ids != [] && StreamOk(st)
    ensures ServedAfter(rows, st, maxLen, now, [ids], ids[|ids| - 1])
  {
    var n := |ids| - 1;
    SendAllOk(st, ids[..n], maxLen);
    NewestStays(SendAll(st, ids[..n], maxLen), maxLen, ids[n]);
    OneCall(rows, st, maxLen, now, ids);
    DispatchedIsServed(rows, SendAll(st, ids, maxLen), now, ids, ids[n]);
  }

  /**
   No job is ever stuck: any run, with any stream and MAXLEN, can be continued by the clock, the
   sweep and the dispatcher alone to where an unsettled job is dead-lettered or served.
   */
  lemma NoJobIsStuck(r: Run, st: Stream, maxLen: int, j: JobId) returns (later: Run)
    requires RunOk(r) && StreamOk(st) && j in Last(r).rows && !Terminal(Last(r).rows[j])
    ensures RunOk(later) && Continues(r, later) && j in Last(later).rows
    ensures Last(later).rows[j].status.DeadLettered? ||
      Served(Last(later).rows, StreamNow(st, maxLen, later, |r.acts|), j, Last(later).now)
  {
    var s := Last(r);
    var time := s.now + LEASE_DURATION + 1;
    SweptJobIsDeadOrEligible(s, time, j);
    var picks := [];
    if j in Eligible(ExpireAll(s.rows, time), time) {
      var ids := SelectionEndingWith(ExpireAll(s.rows, time), time, j);
      LastIsServed(ExpireAll(s.rows, time), st, maxLen, time, ids);
      picks := [ids];
      assert picks[1..] == [];
    }
    later := ScheduleIsARun(r, time, picks, st, maxLen);
  }
}
