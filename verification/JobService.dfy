/** Accepting a run request: the job is stored first and announced second. */
module JobService {
  import opened Domain
  import opened JobRows
  import opened JobStore
  import opened Options
  import opened RedisQueue

  datatype Created = Accepted | InvalidRequest | StoreFailed | EnqueueFailed

  class Service {
    const store: PostgresJobStore
    const queue: Queue
    const languages: set<string>

    constructor (store: PostgresJobStore, queue: Queue, languages: set<string>)
      ensures this.store == store && this.queue == queue && this.languages == languages
    {
      this.store, this.queue, this.languages := store, queue, languages;
    }

    /**
     The request becomes a stored job with no further attempts than the first. If the queue
     refuses its message, the caller sees an error but the job stays, due for dispatch at once.
     */
    method CreateExecution(id: JobId, language: string, source: string, inputs: seq<string>,
            now: Time) returns (created: Created)
      requires StreamOk(queue.server.st)
      modifies store, queue.server
      ensures created.InvalidRequest? <==> language == "" || source == "" || language !in languages
      ensures created.InvalidRequest? || created.StoreFailed? ==>
        store.rows == old(store.rows) && queue.server.st == old(queue.server.st)
      ensures created.StoreFailed? ==> id in old(store.rows)
      ensures created.Accepted? || created.EnqueueFailed? ==>
        && id !in old(store.rows) && store.rows == old(store.rows)[id := NewRow(inputs, now, 0)]
        && Dispatchable(store.rows[id], now) && RowOk(store.rows[id])
      ensures created.Accepted? ==> Undelivered(queue.server.st, id)
      ensures created.EnqueueFailed? ==> queue.closed && queue.server.st == old(queue.server.st)
    {
      if language == "" || source == "" {
        return InvalidRequest;
      }
      if language !in languages {
        return InvalidRequest;
      }
      var outcome := store.Create(id, inputs, Queued, now, 0);
      if !outcome.Ok? {
        return StoreFailed;
      }
      var ok := queue.Enqueue(id, "run");
      if !ok {
        return EnqueueFailed;
      }
      var st := queue.server.st;
      assert st.entries[|st.entries| - 1] in st.entries;
      created := Accepted;
    }
  }
}
