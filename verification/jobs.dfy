/** Types shared by the fetcher, the processor and the client: queues, job
    payloads, units of work, the error taxonomy, and an abstract list store in
    which a push appends to the end of one queue's list. */
module Jobs {

  /** A named queue; its identity is its name. */
  datatype Queue = Queue(name: string)

  /** The queue a job goes to when the caller names none. */
  const DefaultQueue: Queue := Queue("default")

  /** A value inside a job payload (Swift's `[String: Any]`), kept abstract:
      strings, integers, flags, nested dictionaries and lists. */
  datatype Value =
    | Str(s: string)
    | Int(i: int)
    | Flag(b: bool)
    | Dict(fields: map<string, Value>)
    | List(items: seq<Value>)

  /** A job descriptor: `jid`, `class`, `args`, `retry`, `queue`, ... */
  type Payload = map<string, Value>

  /** A claimed job together with the queue it came from. */
  datatype UnitOfWork = UnitOfWork(queue: Queue, job: Payload)

  /** The errors the core raises or passes through. */
  datatype Error =
    | Timeout                    // the pool had no permit
    | StoreError(reason: string) // any failure reaching the store
    | ConversionError(reason: string)
    | Shutdown                   // the cooperative shutdown control signal
    | HandlerError(reason: string)

  /** A generated job identity: at least six characters long. */
  type Jid = s: string | |s| >= 6 witness "000000"

  /** An abstract list store: each queue holds a list; an absent queue is empty. */
  type ListStore<T> = map<Queue, seq<T>>

  function Items<T>(s: ListStore<T>, q: Queue): (r: seq<T>) {
    if q in s then s[q] else []
  }

  /** RPUSH: append one element to the end of one queue's list. */
  function Push<T>(s: ListStore<T>, q: Queue, x: T): (r: ListStore<T>)
    ensures Items(r, q) == Items(s, q) + [x]
    ensures forall q' :: q' != q ==> Items(r, q') == Items(s, q')
    ensures Total(r) == Total(s) + 1
  {
    var r := s[q := Items(s, q) + [x]];
    TotalUpdate(s, q, Items(s, q) + [x]);
    r
  }

  /** The number of elements held by all queues of the store together. */
  ghost function Total<T>(s: ListStore<T>): (r: nat)
    decreases |s.Keys|
  {
    if s == map[] then 0
    else
      var q :| q in s;
      |s[q]| + Total(s - {q})
  }

  /** Total splits over any one key, whichever key its definition chose. */
  lemma {:induction false} TotalSplit<T>(s: ListStore<T>, q: Queue)
    requires q in s
    ensures Total(s) == |s[q]| + Total(s - {q})
    decreases |s.Keys|
  {
    var k :| k in s && Total(s) == |s[k]| + Total(s - {k});
    if k != q {
      var rest := s - {k};
      assert q in rest;
      TotalSplit(rest, q);
      var both := rest - {q};
      var restQ := s - {q};
      assert k in restQ;
      TotalSplit(restQ, k);
      assert restQ - {k} == both;
    }
  }

  /** Replacing one queue's list changes the total by the difference in length. */
  lemma TotalUpdate<T>(s: ListStore<T>, q: Queue, xs: seq<T>)
    ensures Total(s[q := xs]) + |Items(s, q)| == Total(s) + |xs|
  {
    var t := s[q := xs];
    TotalSplit(t, q);
    if q in s {
      TotalSplit(s, q);
      assert t - {q} == s - {q};
    } else {
      assert t - {q} == s;
    }
  }
}
