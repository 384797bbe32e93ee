/** The bounded connection pool: an idle list (a LIFO stack), a creation
    counter, and the permit count of a counting semaphore initialised to
    `maxCapacity`. Each mutex-guarded block is one atomic step; the polling
    wait with its deadline becomes "is a permit available now". */
module ConnectionPool {
  import opened Wrappers
  import opened Jobs

  /** A connection, identified by the order in which the pool created it. */
  datatype Connection = Connection(serial: nat)

  /** The outcome of `makeConnection()`, supplied by the environment. */
  datatype Connect = Connected | ConnectFailed(reason: string)

  /** `lent` is not a field of the source: it records the connections that
      borrowers currently hold, so that the accounting can be stated. */
  datatype Pool = Pool(
    maxCapacity: nat,
    idle: seq<Connection>,
    created: nat,
    permits: nat,
    lent: multiset<Connection>)

  /** The connections created so far: serials 0 .. n-1, once each. */
  function Made(n: nat): (m: multiset<Connection>)
    ensures |m| == n
  {
    if n == 0 then multiset{} else Made(n - 1) + multiset{Connection(n - 1)}
  }

  /** The resource-accounting invariant: never more than `maxCapacity`
      creations; every created connection is either idle or lent, exactly
      once; every idle connection and every creation not yet made is one
      available permit. */
  predicate Valid(p: Pool): (r: bool) {
    && p.created <= p.maxCapacity
    && multiset(p.idle) + p.lent == Made(p.created)
    && p.permits == |p.idle| + (p.maxCapacity - p.created)
  }

  lemma ValidCounts(p: Pool)
    requires Valid(p)
    ensures |p.idle| + |p.lent| == p.created
  {
    assert |multiset(p.idle)| == |p.idle|;
  }

  /** `init(maxCapacity:)`: no connection yet, every permit free. */
  function NewPool(maxCapacity: nat): (p: Pool)
    ensures Valid(p)
    ensures p.idle == [] && p.lent == multiset{}
    ensures p.permits == maxCapacity
  {
    Pool(maxCapacity, [], 0, maxCapacity, multiset{})
  }

  /** The double-checked creation step of `borrow`: below the ceiling, make
      one connection and push it on the idle list; a failing
      `makeConnection()` propagates its error and changes nothing. */
  function Grow(p: Pool, connect: Connect): (r: Result<Pool, Error>) {
    if p.created < p.maxCapacity then
      match connect
      case Connected =>
        Success(p.(idle := p.idle + [Connection(p.created)], created := p.created + 1))
      case ConnectFailed(reason) => Failure(StoreError(reason))
    else Success(p)
  }

  /** The idle list `borrow` pops from once the creation step is done. */
  function GrownIdle(p: Pool): (r: seq<Connection>) {
    if p.created < p.maxCapacity then p.idle + [Connection(p.created)] else p.idle
  }

  datatype Borrowed =
    | Lent(pool: Pool, conn: Connection)
    | Refused(error: Error)  // the pool is left as it was
    | Crashed                // the `fatalError` branch

  /** `borrow()`: creation step, then take a permit and pop the last idle
      connection; no permit means `.timeout`; a permit without an idle
      connection is the fatal branch. */
  function Borrow(p: Pool, connect: Connect): (r: Borrowed)
    ensures r.Lent? ==> r.pool.idle + [r.conn] == GrownIdle(p)
    ensures r.Lent? ==> r.pool.permits + 1 == p.permits && r.pool.lent == p.lent + multiset{r.conn}
    ensures r.Lent? ==> r.pool.created == p.created + (if p.created < p.maxCapacity then 1 else 0)
    ensures r.Lent? ==> r.pool.maxCapacity == p.maxCapacity
    ensures (p.created < p.maxCapacity && connect.ConnectFailed?) <==> r.Refused? && r.error.StoreError?
  {
    match Grow(p, connect)
    case Failure(e) => Refused(e)
    case Success(g) =>
      if g.permits == 0 then Refused(Timeout)
      else if |g.idle| == 0 then Crashed
      else
        var c := g.idle[|g.idle| - 1];
        Lent(g.(idle := g.idle[..|g.idle| - 1], permits := g.permits - 1, lent := g.lent + multiset{c}), c)
  }

  /** The creation step keeps the pool valid. */
  lemma GrowKeepsValid(p: Pool, connect: Connect)
    requires Valid(p) && Grow(p, connect).Success?
    ensures Valid(Grow(p, connect).value)
  {
    if p.created < p.maxCapacity {
      var c := Connection(p.created);
      assert multiset(p.idle + [c]) == multiset(p.idle) + multiset{c};
    }
  }

  lemma PopLast(s: seq<Connection>)
    requires |s| > 0
    ensures multiset(s) == multiset(s[..|s| - 1]) + multiset{s[|s| - 1]}
  {
    assert s == s[..|s| - 1] + [s[|s| - 1]];
  }

  /** The pool `borrow` leaves behind after popping from a valid grown pool
      is valid again. */
  lemma TakeKeepsValid(g: Pool)
    requires Valid(g) && g.permits > 0 && |g.idle| > 0
    ensures var c := g.idle[|g.idle| - 1];
      Valid(g.(idle := g.idle[..|g.idle| - 1], permits := g.permits - 1, lent := g.lent + multiset{c}))
  {
    PopLast(g.idle);
  }

  /** On a valid pool `borrow` never reaches `fatalError`, and a successful
      borrow leaves the pool valid. */
  lemma {:induction false} BorrowKeepsValid(p: Pool, connect: Connect)
    requires Valid(p)
    ensures !Borrow(p, connect).Crashed?
    ensures Borrow(p, connect).Lent? ==> Valid(Borrow(p, connect).pool)
  {
    if Grow(p, connect).Success? {
      PermitMeansIdle(p, connect);
      GrowKeepsValid(p, connect);
      var g := Grow(p, connect).value;
      if g.permits > 0 {
        TakeKeepsValid(g);
      }
    }
  }

  /** `borrow` fails with `.timeout` exactly when every connection the pool
      may ever hold is out with a borrower. */
  lemma BorrowTimesOutIffExhausted(p: Pool, connect: Connect)
    requires Valid(p)
    ensures Borrow(p, connect) == Refused(Timeout) <==> |p.lent| == p.maxCapacity
  {
    ValidCounts(p);
  }

  /** `checkin(_:)`: the source's precondition is that the idle list has
      room; the connection goes on the end and one permit is released. */
  function Checkin(p: Pool, c: Connection): (r: Pool)
    requires |p.idle| < p.maxCapacity
    ensures r.idle == p.idle + [c] && r.permits == p.permits + 1
    ensures r.created == p.created && r.maxCapacity == p.maxCapacity
    ensures c in p.lent ==> r.lent + multiset{c} == p.lent
    ensures Valid(p) && c in p.lent ==> Valid(r)
  {
    p.(idle := p.idle + [c], permits := p.permits + 1, lent := p.lent - multiset{c})
  }

  /** `checkin` guards only the idle count, not where the connection came
      from: checking in a connection no borrower holds breaks the
      accounting, since the pool then owns one more connection than it
      created. */
  lemma ForeignCheckinBreaksValid(p: Pool, c: Connection)
    requires Valid(p) && c !in p.lent && |p.idle| < p.maxCapacity
    ensures !Valid(Checkin(p, c))
  {
  }

  /** A connection a borrower holds can always be checked in: the
      precondition of `checkin` never fails on a valid pool. */
  lemma CheckinAllowed(p: Pool, c: Connection)
    requires Valid(p) && c in p.lent
    ensures |p.idle| < p.maxCapacity
  {
    ValidCounts(p);
  }

  /** Every operation keeps the creation counter at or below the ceiling and
      creates at most one connection. */
  lemma CreationBounded(p: Pool, connect: Connect)
    requires Valid(p)
    ensures Borrow(p, connect).Lent? ==> Borrow(p, connect).pool.created <= p.maxCapacity
    ensures Borrow(p, connect).Lent? && p.created == p.maxCapacity ==> Borrow(p, connect).pool.created == p.created
  {
  }

  /** Whenever a permit is free after the creation step, the idle list is
      not empty: this is why `fatalError` cannot be reached. */
  lemma {:induction false} PermitMeansIdle(p: Pool, connect: Connect)
    requires Valid(p)
    requires Grow(p, connect).Success?
    ensures Grow(p, connect).value.permits > 0 ==> |Grow(p, connect).value.idle| > 0
  {
    var g := Grow(p, connect).value;
    if p.created < p.maxCapacity {
      assert |g.idle| == |p.idle| + 1;
    } else {
      assert g == p;
    }
  }

  /** `with(handler:)`: borrow, run the handler, and check the connection
      back in on both the normal and the throwing path (`defer`). The
      handler's value or error is passed through. */
  function With<T>(p: Pool, connect: Connect, handler: Connection -> Result<T, Error>): (r: (Pool, Result<T, Error>))
    requires Valid(p)
    ensures Valid(r.0)
    ensures r.0.permits == p.permits && r.0.lent == p.lent
    ensures r.0.idle == GrownIdle(p) || (r.0 == p && r.1.Failure?)
    ensures Borrow(p, connect).Refused? ==> r == (p, Failure(Borrow(p, connect).error))
    ensures Borrow(p, connect).Lent? ==>
      r.1 == handler(Borrow(p, connect).conn) && r.0.idle == GrownIdle(p)
  {
    BorrowKeepsValid(p, connect);
    match Borrow(p, connect)
    case Refused(e) => (p, Failure(e))
    case Crashed => assert false; (p, Failure(Timeout))
    case Lent(q, c) =>
      CheckinAllowed(q, c);
      var back := Checkin(q, c);
      assert back.lent == p.lent by {
        assert back.lent + multiset{c} == q.lent;
      }
      (back, handler(c))
  }

  /** `AnyConnectablePool`: a type-erased wrapper that forwards to the pool
      it was built from. */
  datatype AnyPool = AnyPool(wrapped: Pool)

  function AnyBorrow(a: AnyPool, connect: Connect): (r: Borrowed)
    ensures Valid(a.wrapped) ==> !r.Crashed?
    ensures Valid(a.wrapped) && r.Lent? ==>
      Valid(r.pool) && r.pool.idle + [r.conn] == GrownIdle(a.wrapped) && r.pool.permits + 1 == a.wrapped.permits
    ensures Valid(a.wrapped) ==> (r == Refused(Timeout) <==> |a.wrapped.lent| == a.wrapped.maxCapacity)
  {
    if Valid(a.wrapped) then
      BorrowKeepsValid(a.wrapped, connect);
      BorrowTimesOutIffExhausted(a.wrapped, connect);
      Borrow(a.wrapped, connect)
    else Borrow(a.wrapped, connect)
  }

  function AnyCheckin(a: AnyPool, c: Connection): (r: AnyPool)
    requires |a.wrapped.idle| < a.wrapped.maxCapacity
    ensures r.wrapped.idle == a.wrapped.idle + [c] && r.wrapped.permits == a.wrapped.permits + 1
    ensures Valid(a.wrapped) && c in a.wrapped.lent ==> Valid(r.wrapped)
  {
    AnyPool(Checkin(a.wrapped, c))
  }
}
