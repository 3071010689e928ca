/**
 The Redis stream with its one consumer group, as far as the queue uses it, and the queue on
 top. Entry ids are natural numbers that grow; 0 plays the part of the id "0-0".
 */
module RedisQueue {
  import opened JobRows
  import opened Options

  /** A stream entry; a field that is missing or not a string is None. */
  datatype Entry = Entry(id: nat, job: Option<JobId>, kind: Option<string>)

  /** An entry of the group's pending list: delivered and not yet acknowledged. */
  datatype Pending = Pending(id: nat, consumer: string, deliveredAt: Time)

  datatype Stream = Stream(entries: seq<Entry>, lastId: nat, delivered: nat, pending: seq<Pending>)

  const EMPTY: Stream := Stream([], 0, 0, [])

  /** Entries and pending ids are in increasing order, and only delivered ids are pending. */
  ghost predicate StreamOk(st: Stream) {
    && (forall i, k :: 0 <= i < k < |st.entries| ==> st.entries[i].id < st.entries[k].id)
    && (forall e :: e in st.entries ==> 0 < e.id <= st.lastId)
    && SortedPending(st.pending)
    && (forall p :: p in st.pending ==> 0 < p.id <= st.delivered)
    && st.delivered <= st.lastId
  }

  ghost predicate SortedPending(ps: seq<Pending>) {
    forall i, k :: 0 <= i < k < |ps| ==> ps[i].id < ps[k].id
  }

  // ----- XADD with MAXLEN -----

  /** MAXLEN n keeps the n newest entries; go-redis sends it only for n > 0. */
  function Trim(entries: seq<Entry>, maxLen: int): seq<Entry> {
    if 0 < maxLen < |entries| then entries[|entries| - maxLen..] else entries
  }

  function XAdd(st: Stream, maxLen: int, job: Option<JobId>, kind: Option<string>): Stream {
    var id := st.lastId + 1;
    st.(entries := Trim(st.entries + [Entry(id, job, kind)], maxLen), lastId := id)
  }

  lemma TrimTwice(entries: seq<Entry>, e: Entry, maxLen: int)
    ensures Trim(Trim(entries, maxLen) + [e], maxLen) == Trim(entries + [e], maxLen)
  {
  }

  lemma XAddOk(st: Stream, maxLen: int, job: Option<JobId>, kind: Option<string>)
    requires StreamOk(st)
    ensures StreamOk(XAdd(st, maxLen, job, kind))
  {
  }

  // ----- XREADGROUP ">" COUNT 1 and XACK -----

  /** The position of the first entry that was not delivered yet; |entries| if there is none. */
  function FirstNew(st: Stream): (i: nat)
    ensures i <= |st.entries|
    ensures forall k :: 0 <= k < i ==> st.entries[k].id <= st.delivered
    ensures i < |st.entries| ==> st.entries[i].id > st.delivered
  {
    FirstNewFrom(st, 0)
  }

  function FirstNewFrom(st: Stream, from: nat): (i: nat)
    requires from <= |st.entries|
    ensures from <= i <= |st.entries|
    ensures forall k :: from <= k < i ==> st.entries[k].id <= st.delivered
    ensures i < |st.entries| ==> st.entries[i].id > st.delivered
    decreases |st.entries| - from
  {
    if from < |st.entries| && st.entries[from].id <= st.delivered then FirstNewFrom(st, from + 1) else from
  }

  /** The entry is delivered to the consumer and becomes pending. */
  function Deliver(st: Stream, e: Entry, consumer: string, now: Time): Stream {
    st.(delivered := e.id, pending := st.pending + [Pending(e.id, consumer, now)])
  }

  function Without(ps: seq<Pending>, id: nat): seq<Pending> {
    if ps == [] then [] else (if ps[0].id == id then [] else [ps[0]]) + Without(ps[1..], id)
  }

  lemma {:induction false} WithoutMembers(ps: seq<Pending>, id: nat, p: Pending)
    ensures p in Without(ps, id) <==> p in ps && p.id != id
  {
    if ps != [] {
      WithoutMembers(ps[1..], id, p);
    }
  }

  /** An entry older than the others goes first. */
  lemma SortedFirst(p: Pending, ps: seq<Pending>)
    requires SortedPending(ps) && forall q :: q in ps ==> p.id < q.id
    ensures SortedPending([p] + ps)
  {
  }

  lemma {:induction false} WithoutSorted(ps: seq<Pending>, id: nat)
    requires SortedPending(ps)
    ensures SortedPending(Without(ps, id))
  {
    if ps != [] {
      var rest := Without(ps[1..], id);
      WithoutSorted(ps[1..], id);
      forall q | q in rest
        ensures ps[0].id < q.id
      {
        WithoutMembers(ps[1..], id, q);
      }
      SortedFirst(ps[0], rest);
      assert Without(ps, id) == rest || Without(ps, id) == [ps[0]] + rest;
    }
  }

  lemma WithoutKeeps(ps: seq<Pending>, id: nat)
    requires SortedPending(ps)
    ensures SortedPending(Without(ps, id))
    ensures forall p :: p in Without(ps, id) <==> p in ps && p.id != id
  {
    WithoutSorted(ps, id);
    forall p: Pending
      ensures p in Without(ps, id) <==> p in ps && p.id != id
    {
      WithoutMembers(ps, id, p);
    }
  }

  function PendingIds(ps: seq<Pending>): set<nat> {
    set p | p in ps :: p.id
  }

  function XAck(st: Stream, id: nat): Stream {
    st.(pending := Without(st.pending, id))
  }

  lemma XAckOk(st: Stream, id: nat)
    requires StreamOk(st)
    ensures StreamOk(XAck(st, id))
  {
    WithoutKeeps(st.pending, id);
  }

  // ----- Outstanding messages -----

  function Lookup(entries: seq<Entry>, id: nat): (r: Option<Entry>)
    ensures r.Some? ==> r.value in entries && r.value.id == id
    ensures r.None? ==> forall e :: e in entries ==> e.id != id
  {
    if entries == [] then None else if entries[0].id == id then Some(entries[0]) else Lookup(entries[1..], id)
  }

  predicate IsFor(e: Entry, j: JobId) {
    e.job == Some(j)
  }

  /** The ids of the messages for job j that may still be consumed or recovered. */
  ghost function OutstandingIds(st: Stream, j: JobId): set<nat> {
    set e | e in st.entries && IsFor(e, j) && (e.id > st.delivered || e.id in PendingIds(st.pending)) :: e.id
  }

  /** A message for job j waits on the stream and was not delivered to anyone. */
  ghost predicate Undelivered(st: Stream, j: JobId) {
    exists e :: e in st.entries && e.id > st.delivered && IsFor(e, j)
  }

  // ----- The queue -----

  class Server {
    var st: Stream

    constructor ()
      ensures st == EMPTY
    {
      st := EMPTY;
    }
  }

  datatype QueueMessage = QueueMessage(id: nat, job: JobId, kind: string)

  /** The entry has no job id: Consume skips it and leaves it pending. */
  predicate Malformed(e: Entry) {
    e.job.None?
  }

  /** Delivered between the two states. */
  predicate NewlyRead(before: Stream, after: Stream, e: Entry) {
    before.delivered < e.id <= after.delivered
  }

  /** Made pending by the consumer between the two states. */
  ghost predicate ReadBy(before: Stream, after: Stream, p: Pending, consumer: string, now: Time) {
    && p.consumer == consumer && p.deliveredAt == now
    && exists e :: e in after.entries && e.id == p.id && NewlyRead(before, after, e)
  }

  class Queue {
    const server: Server
    const maxLen: int
    var closed: bool

    constructor (server: Server, maxLen: int)
      ensures this.server == server && this.maxLen == maxLen && !closed
    {
      this.server, this.maxLen, closed := server, maxLen, false;
    }

    method Enqueue(job: JobId, kind: string) returns (ok: bool)
      modifies server
      ensures ok == !closed
      ensures server.st == if ok then XAdd(old(server.st), maxLen, Some(job), Some(kind)) else old(server.st)
    {
      if closed {
        return false;
      }
      server.st := XAdd(server.st, maxLen, Some(job), Some(kind));
      ok := true;
    }

    /**
     The next well-formed message, or None where the original goes on waiting or the queue is
     closed. Each new entry up to it becomes pending, and none is skipped or delivered twice.
     */
    method Consume(consumer: string, now: Time) returns (msg: Option<QueueMessage>)
      requires StreamOk(server.st)
      modifies server
      ensures StreamOk(server.st) && server.st.entries == old(server.st.entries)
          && server.st.lastId == old(server.st.lastId)
      ensures closed ==> msg.None? && server.st == old(server.st)
      ensures old(server.st.delivered) <= server.st.delivered
      ensures forall p :: p in server.st.pending <==>
        p in old(server.st.pending) || ReadBy(old(server.st), server.st, p, consumer, now)
      ensures forall e :: e in server.st.entries && NewlyRead(old(server.st), server.st, e) ==>
        if msg.Some? && e.id == msg.value.id
        then e.job == Some(msg.value.job) && msg.value.kind == (if e.kind.Some? then e.kind.value else "run")
        else Malformed(e)
      ensures msg.Some? ==> msg.value.id == server.st.delivered && old(server.st.delivered) < msg.value.id
      ensures msg.None? && !closed ==> forall e :: e in server.st.entries ==> e.id <= server.st.delivered
    {
      if closed {
        return None;
      }
      msg := None;
      while true
        invariant StreamOk(server.st) && server.st.entries == old(server.st.entries)
            && server.st.lastId == old(server.st.lastId)
        invariant old(server.st.delivered) <= server.st.delivered
        invariant forall p :: p in server.st.pending <==>
            p in old(server.st.pending) || ReadBy(old(server.st), server.st, p, consumer, now)
        invariant forall e :: e in server.st.entries && NewlyRead(old(server.st), server.st, e) ==> Malformed(e)
        decreases server.st.lastId - server.st.delivered
      {
        var i := FirstNew(server.st);
        if i == |server.st.entries| {
          return None;
        }
        var e := server.st.entries[i];
        ghost var before := server.st;
        server.st := Deliver(server.st, e, consumer, now);
        DeliverReadsOne(old(server.st), before, i, consumer, now);
        if e.job.Some? {
          return Some(QueueMessage(e.id, e.job.value, if e.kind.Some? then e.kind.value else "run"));
        }
      }
    }

    method Ack(id: nat)
      modifies server
      ensures server.st == XAck(old(server.st), id)
    {
      server.st := XAck(server.st, id);
    }

    method Close()
      modifies this
      ensures closed
    {
      closed := true;
    }
  }

  lemma DeliverReadsOne(first: Stream, st: Stream, i: nat, consumer: string, now: Time)
    requires StreamOk(st) && i == FirstNew(st) && i < |st.entries| && first.delivered <= st.delivered
    ensures StreamOk(Deliver(st, st.entries[i], consumer, now))
    ensures forall e :: e in st.entries ==>
      (NewlyRead(first, Deliver(st, st.entries[i], consumer, now), e) <==>
        NewlyRead(first, st, e) || e == st.entries[i])
  {
    var after := Deliver(st, st.entries[i], consumer, now);
    forall e | e in st.entries
      ensures NewlyRead(first, after, e) <==> NewlyRead(first, st, e) || e == st.entries[i]
    {
      var k :| 0 <= k < |st.entries| && st.entries[k] == e;
    }
  }
}
