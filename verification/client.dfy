/** `SwiftkiqClient.enqueue`: building the payload that is pushed, and the
    single push onto the target queue. The generated jid is an input. */
module Client {
  import opened Wrappers
  import opened Jobs

  /** The retry budget a worker type gets unless it declares its own. */
  const DefaultRetry: int := 25

  /** A worker type: its name (`String(describing:)`) and its defaults. */
  datatype WorkerClass = WorkerClass(name: string, defaultQueue: Queue, defaultRetry: int)

  /** A worker type that keeps the defaults of the `Worker` extension. */
  function PlainWorker(name: string): (w: WorkerClass)
    ensures w.defaultQueue == Queue("default") && w.defaultRetry == 25
  {
    WorkerClass(name, DefaultQueue, DefaultRetry)
  }

  /** The payload `enqueue(_:to:)` pushes: the caller's job with a `jid`
      added when it has none. */
  function WithJid(job: Payload, generated: Jid): (r: Payload)
    ensures r.Keys == job.Keys + {"jid"}
    ensures "jid" in job ==> r["jid"] == job["jid"]
    ensures "jid" !in job ==> r["jid"] == Str(generated)
    ensures forall k :: k in job && k != "jid" ==> r[k] == job[k]
  {
    if "jid" in job then job else job["jid" := Str(generated)]
  }

  /** A payload that already carries a jid is pushed as it is, so enqueueing
      the stored payload again keeps its identity. */
  lemma WithJidIdempotent(job: Payload, first: Jid, second: Jid)
    ensures WithJid(WithJid(job, first), second) == WithJid(job, first)
  {
  }

  datatype Enqueued = Enqueued(store: ListStore<Payload>, outcome: Result<(), Error>)

  /** `enqueue(_:to:)`: one push of the completed payload onto `queue`; a
      failing store leaves everything as it was and the error propagates. */
  function Enqueue(store: ListStore<Payload>, job: Payload, queue: Queue, generated: Jid, pushError: Option<Error>): (r: Enqueued)
    ensures pushError.Some? ==> r == Enqueued(store, Failure(pushError.value))
    ensures pushError.None? ==> r.outcome.Success?
    ensures pushError.None? ==> Items(r.store, queue) == Items(store, queue) + [WithJid(job, generated)]
    ensures forall q :: q != queue ==> Items(r.store, q) == Items(store, q)
    ensures pushError.None? ==> Total(r.store) == Total(store) + 1
  {
    match pushError
    case Some(e) => Enqueued(store, Failure(e))
    case None => Enqueued(Push(store, queue, WithJid(job, generated)), Success(()))
  }

  /** `enqueue(_:)` with the default argument `Queue("default")`. */
  function EnqueueToDefault(store: ListStore<Payload>, job: Payload, generated: Jid, pushError: Option<Error>): (r: Enqueued)
    ensures pushError.None? ==> Items(r.store, Queue("default")) == Items(store, Queue("default")) + [WithJid(job, generated)]
    ensures forall q :: q != Queue("default") ==> Items(r.store, q) == Items(store, q)
  {
    Enqueue(store, job, DefaultQueue, generated, pushError)
  }

  /** The payload the typed `enqueue(class:args:retry:to:)` builds: always a
      generated jid, and exactly the keys jid, class, args, retry and queue. */
  function TypedPayload(w: WorkerClass, args: Payload, retry: int, queue: Queue, generated: Jid): (r: Payload)
    ensures r.Keys == {"jid", "class", "args", "retry", "queue"}
    ensures r["jid"] == Str(generated) && r["class"] == Str(w.name) && r["args"] == Dict(args)
    ensures r["retry"] == Int(retry) && r["queue"] == Str(queue.name)
  {
    map["jid" := Str(generated), "class" := Str(w.name), "args" := Dict(args), "retry" := Int(retry), "queue" := Str(queue.name)]
  }

  /** The typed `enqueue`: push the typed payload onto `queue`. */
  function EnqueueTyped(
    store: ListStore<Payload>, w: WorkerClass, args: Payload, retry: int, queue: Queue,
    generated: Jid, pushError: Option<Error>): (r: Enqueued)
    ensures pushError.Some? ==> r == Enqueued(store, Failure(pushError.value))
    ensures pushError.None? ==> r.outcome.Success?
    ensures pushError.None? ==> Items(r.store, queue) == Items(store, queue) + [TypedPayload(w, args, retry, queue, generated)]
    ensures forall q :: q != queue ==> Items(r.store, q) == Items(store, q)
  {
    match pushError
    case Some(e) => Enqueued(store, Failure(e))
    case None => Enqueued(Push(store, queue, TypedPayload(w, args, retry, queue, generated)), Success(()))
  }

  /** The typed `enqueue` with its default arguments: the worker type's
      retry budget and queue. */
  function EnqueueTypedDefaults(store: ListStore<Payload>, w: WorkerClass, args: Payload, generated: Jid, pushError: Option<Error>): (r: Enqueued)
    ensures pushError.Some? ==> r == Enqueued(store, Failure(pushError.value))
    ensures pushError.None? ==>
      var before := Items(store, w.defaultQueue);
      var after := Items(r.store, w.defaultQueue);
      && r.outcome.Success?
      && |after| == |before| + 1 && after[..|before|] == before
      && after[|before|].Keys == {"jid", "class", "args", "retry", "queue"}
      && after[|before|]["retry"] == Int(w.defaultRetry)
      && after[|before|]["queue"] == Str(w.defaultQueue.name)
      && after[|before|]["jid"] == Str(generated)
    ensures forall q :: q != w.defaultQueue ==> Items(r.store, q) == Items(store, q)
  {
    EnqueueTyped(store, w, args, w.defaultRetry, w.defaultQueue, generated, pushError)
  }

  /** A plain worker's job goes to "default" with a retry budget of 25. */
  lemma PlainWorkerDefaults(store: ListStore<Payload>, name: string, args: Payload, generated: Jid)
    ensures var r := EnqueueTypedDefaults(store, PlainWorker(name), args, generated, None);
      var pushed := TypedPayload(PlainWorker(name), args, 25, Queue("default"), generated);
      && Items(r.store, Queue("default")) == Items(store, Queue("default")) + [pushed]
      && pushed["retry"] == Int(25) && pushed["queue"] == Str("default")
  {
  }

  /** The untyped `enqueue` leaves a typed payload untouched: it already has
      its jid. */
  lemma TypedPayloadKeepsJid(w: WorkerClass, args: Payload, retry: int, queue: Queue, generated: Jid, other: Jid)
    ensures WithJid(TypedPayload(w, args, retry, queue, generated), other) == TypedPayload(w, args, retry, queue, generated)
  {
  }
}
