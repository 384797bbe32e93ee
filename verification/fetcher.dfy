/** `BasicFetcher`: the swap-based shuffle of the configured queues, work
    retrieval through one pooled connection, and the pipelined bulk requeue. */
module Fetcher {
  import opened Wrappers
  import opened Jobs
  import opened ConnectionPool

  /** The fetcher's configuration; a value, so no operation can change it. */
  datatype BasicFetcher = BasicFetcher(queues: seq<Queue>)

  /** The random indices `Compat.random(n)` returns, one per iteration, each
      below `n`. */
  predicate ValidDraws(n: nat, draws: seq<nat>): (r: bool) {
    |draws| == n && forall k :: 0 <= k < |draws| ==> draws[k] < n
  }

  /** Exchange positions `i` and `j`. */
  function Swap<T>(s: seq<T>, i: nat, j: nat): (r: seq<T>)
    requires i < |s| && j < |s|
    ensures |r| == |s| && r[i] == s[j] && r[j] == s[i]
    ensures forall k :: 0 <= k < |s| && k != i && k != j ==> r[k] == s[k]
    ensures i == j ==> r == s
    ensures multiset(r) == multiset(s)
  {
    s[i := s[j]][j := s[i]]
  }

  /** The shuffle as a reference definition: the swaps of iterations
      `i .. n-1`, applied in order. */
  function SwapPass<T>(s: seq<T>, draws: seq<nat>, i: nat): (r: seq<T>)
    requires ValidDraws(|s|, draws)
    requires i <= |s|
    ensures |r| == |s|
    ensures multiset(r) == multiset(s)
    decreases |s| - i
  {
    if i == |s| then s else SwapPass(Swap(s, i, draws[i]), draws, i + 1)
  }

  /** `randomSortedQueues()`: shuffle a copy of the queues in place. For each
      `i`, remember `a[i]`, draw `j`, copy `a[j]` to `a[i]` unless `i == j`,
      and store the remembered queue at `a[j]`. */
  method RandomSortedQueues(f: BasicFetcher, draws: seq<nat>) returns (r: seq<Queue>)
    requires ValidDraws(|f.queues|, draws)
    ensures |r| == |f.queues|
    ensures multiset(r) == multiset(f.queues)
    ensures r == SwapPass(f.queues, draws, 0)
  {
    var n := |f.queues|;
    var a := new Queue[n](k requires 0 <= k < n => f.queues[k]);
    assert a[..] == f.queues;
    for i := 0 to n
      invariant multiset(a[..]) == multiset(f.queues)
      invariant SwapPass(a[..], draws, i) == SwapPass(f.queues, draws, 0)
    {
      ghost var before := a[..];
      ShuffleStep(a, i, draws[i]);
      assert SwapPass(before, draws, i) == SwapPass(a[..], draws, i + 1);
    }
    r := a[..];
  }

  /** One iteration of the shuffle loop, exactly as the source writes it. */
  method ShuffleStep(a: array<Queue>, i: nat, j: nat)
    requires i < a.Length && j < a.Length
    modifies a
    ensures a[..] == Swap(old(a[..]), i, j)
  {
    var ai := a[i];
    if i != j {
      a[i] := a[j];
    }
    a[j] := ai;
  }

  /** `retriveWork()`: shuffle, then hand the shuffled list to the store's
      `dequeue` on one pooled connection. `dequeue` stands for the store. */
  method RetrieveWork(
    f: BasicFetcher, pool: Pool, connect: Connect, draws: seq<nat>,
    dequeue: seq<Queue> -> Result<Option<UnitOfWork>, Error>)
    returns (pool': Pool, r: Result<Option<UnitOfWork>, Error>)
    requires Valid(pool)
    requires ValidDraws(|f.queues|, draws)
    ensures Valid(pool') && pool'.permits == pool.permits && pool'.lent == pool.lent
    ensures Borrow(pool, connect).Lent? ==> r == dequeue(SwapPass(f.queues, draws, 0))
    ensures Borrow(pool, connect).Refused? ==> pool' == pool && r == Failure(Borrow(pool, connect).error)
  {
    var order := RandomSortedQueues(f, draws);
    var outcome := With(pool, connect, (c: Connection) => dequeue(order));
    pool', r := outcome.0, outcome.1;
  }

  /** One pipelined `RPUSH key payload`. */
  datatype PushCommand = RPush(queue: Queue, payload: string)

  /** The pipeline `bulkRequeue` builds: one push per job, in input order, to
      the job's own queue, with its serialized payload. The first failing
      serialization aborts the whole batch. */
  function RequeueCommands(jobs: seq<UnitOfWork>, serialize: Payload -> Result<string, Error>): (r: Result<seq<PushCommand>, Error>)
    ensures r.Success? <==> forall k :: 0 <= k < |jobs| ==> serialize(jobs[k].job).Success?
    ensures r.Success? ==> |r.value| == |jobs|
    ensures r.Success? ==> forall k :: 0 <= k < |jobs| ==>
      r.value[k] == RPush(jobs[k].queue, serialize(jobs[k].job).value)
    ensures r.Failure? ==> exists k :: 0 <= k < |jobs| && serialize(jobs[k].job) == Failure(r.error) &&
                                        forall k' :: 0 <= k' < k ==> serialize(jobs[k'].job).Success?
  {
    if |jobs| == 0 then Success([])
    else
      match serialize(jobs[0].job)
      case Failure(e) => Failure(e)
      case Success(payload) =>
        match RequeueCommands(jobs[1..], serialize)
        case Failure(e) => Failure(e)
        case Success(rest) => Success([RPush(jobs[0].queue, payload)] + rest)
  }

  /** Executing the pipeline against the list store: each push appends. */
  function Execute(s: ListStore<string>, pushes: seq<PushCommand>): (r: ListStore<string>)
    decreases |pushes|
  {
    if |pushes| == 0 then s
    else Execute(Push(s, pushes[0].queue, pushes[0].payload), pushes[1..])
  }

  /** The payloads of the pushes aimed at one queue, in order. */
  function PushedTo(pushes: seq<PushCommand>, q: Queue): (r: seq<string>) {
    if |pushes| == 0 then []
    else (if pushes[0].queue == q then [pushes[0].payload] else []) + PushedTo(pushes[1..], q)
  }

  /** Every queue ends as its old list followed by the payloads pushed to it. */
  lemma {:induction false} ExecutePerQueue(s: ListStore<string>, pushes: seq<PushCommand>, q: Queue)
    ensures Items(Execute(s, pushes), q) == Items(s, q) + PushedTo(pushes, q)
    decreases |pushes|
  {
    if |pushes| > 0 {
      var s' := Push(s, pushes[0].queue, pushes[0].payload);
      ExecutePerQueue(s', pushes[1..], q);
    }
  }

  /** The store grows by exactly one element per push. */
  lemma {:induction false} ExecuteTotal(s: ListStore<string>, pushes: seq<PushCommand>)
    ensures Total(Execute(s, pushes)) == Total(s) + |pushes|
    decreases |pushes|
  {
    if |pushes| > 0 {
      ExecuteTotal(Push(s, pushes[0].queue, pushes[0].payload), pushes[1..]);
    }
  }

  datatype Requeued = Requeued(pool: Pool, store: ListStore<string>, outcome: Result<(), Error>)

  /** `bulkRequeue(_:)`: on one pooled connection, build the pipeline and
      execute it once. `executeError` is the pipeline's own failure, if any,
      including a failure to queue one of its RPUSH commands; the model
      treats a failed execution as applying nothing. */
  function BulkRequeue(
    pool: Pool, connect: Connect, store: ListStore<string>, jobs: seq<UnitOfWork>,
    serialize: Payload -> Result<string, Error>, executeError: Option<Error>): (r: Requeued)
    requires Valid(pool)
    ensures Valid(r.pool) && r.pool.permits == pool.permits && r.pool.lent == pool.lent
    ensures r.outcome.Failure? ==> r.store == store
    ensures r.outcome.Success? <==>
      && Borrow(pool, connect).Lent?
      && RequeueCommands(jobs, serialize).Success?
      && executeError.None?
    ensures r.outcome.Success? ==>
      forall q :: Items(r.store, q) == Items(store, q) + PushedTo(RequeueCommands(jobs, serialize).value, q)
    ensures r.outcome.Success? ==> Total(r.store) == Total(store) + |jobs|
  {
    var pipeline := (c: Connection) =>
      match RequeueCommands(jobs, serialize)
      case Failure(e) => Failure(e)
      case Success(pushes) =>
        match executeError
        case Some(e) => Failure(e)
        case None => Success(Execute(store, pushes));
    var (pool', result) := With(pool, connect, pipeline);
    match result
    case Failure(e) => Requeued(pool', store, Failure(e))
    case Success(store') =>
      var pushes := RequeueCommands(jobs, serialize).value;
      ExecuteTotal(store, pushes);
      assert forall q :: Items(store', q) == Items(store, q) + PushedTo(pushes, q) by {
        forall q { ExecutePerQueue(store, pushes, q); }
      }
      Requeued(pool', store', Success(()))
  }
}
