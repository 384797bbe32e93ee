/** `Manager`: the supervisor's processor list and its monotonic `done`
    flag. Each mutex-guarded callback is one atomic step. A processor is
    known by its object identity, modelled as an allocation serial. */
module Manager {
  import opened Wrappers

  /** A live processor: its identity, the index `makeProcessor` received,
      whether `terminate()` has been called on it, and whether `start()`
      has (which is what runs its fetch loop). */
  datatype ProcessorRef = ProcessorRef(id: nat, index: int, terminated: bool, started: bool)

  /** `nextId` is the identity the next allocated processor receives. */
  datatype ManagerState = ManagerState(
    concurrency: nat,
    processors: seq<ProcessorRef>,
    done: bool,
    nextId: nat)

  /** Identities are distinct and were all allocated; the list never holds
      more than `concurrency` processors; once `done` is set every live
      processor has been told to terminate. */
  predicate Valid(m: ManagerState): (r: bool) {
    && |m.processors| <= m.concurrency
    && (forall i :: 0 <= i < |m.processors| ==> m.processors[i].id < m.nextId)
    && (forall i, j :: 0 <= i < j < |m.processors| ==> m.processors[i].id != m.processors[j].id)
    && (m.done ==> forall i :: 0 <= i < |m.processors| ==> m.processors[i].terminated)
  }

  function Ids(ps: seq<ProcessorRef>): (r: seq<nat>)
    ensures |r| == |ps| && forall i :: 0 <= i < |ps| ==> r[i] == ps[i].id
  {
    if |ps| == 0 then [] else [ps[0].id] + Ids(ps[1..])
  }

  /** The lazily built initial list: processors with indices
      1 ... `concurrency`. `1...concurrency` traps below 1. */
  function NewManager(concurrency: nat): (m: ManagerState)
    requires concurrency >= 1
    ensures Valid(m) && !m.done
    ensures |m.processors| == concurrency
    ensures forall i :: 0 <= i < concurrency ==>
      m.processors[i].index == i + 1 && !m.processors[i].terminated && !m.processors[i].started
  {
    ManagerState(
      concurrency,
      seq(concurrency, i requires 0 <= i < concurrency => ProcessorRef(i, i + 1, false, false)),
      false,
      concurrency)
  }

  /** The concurrency `init` uses when the caller gives none. */
  const DefaultConcurrency: nat := 25

  /** `init` with its default argument: 25 processors. */
  function NewDefaultManager(): (m: ManagerState)
    ensures Valid(m) && !m.done
    ensures m.concurrency == 25 && |m.processors| == 25
  {
    NewManager(DefaultConcurrency)
  }

  /** Every listed processor has been started. */
  predicate AllStarted(m: ManagerState): (r: bool) {
    forall i :: 0 <= i < |m.processors| ==> m.processors[i].started
  }

  /** `start()`: start every processor in the list, in order; the list
      itself does not change. */
  function Start(m: ManagerState): (r: ManagerState)
    ensures AllStarted(r)
    ensures Ids(r.processors) == Ids(m.processors)
    ensures forall i :: 0 <= i < |m.processors| ==> r.processors[i] == m.processors[i].(started := true)
    ensures r.done == m.done && r.concurrency == m.concurrency && r.nextId == m.nextId
    ensures Valid(m) ==> Valid(r)
  {
    var ps := seq(|m.processors|, i requires 0 <= i < |m.processors| => m.processors[i].(started := true));
    assert forall i :: 0 <= i < |ps| ==> ps[i].id == m.processors[i].id;
    m.(processors := ps)
  }

  datatype Quieted = Quieted(manager: ManagerState, terminated: seq<nat>)

  /** `quiet()`: the first call sets `done` and terminates every processor
      in the list, in list order; later calls return at once. */
  function Quiet(m: ManagerState): (r: Quieted)
    ensures r.manager.done
    ensures m.done ==> r == Quieted(m, [])
    ensures !m.done ==> r.terminated == Ids(m.processors)
    ensures Ids(r.manager.processors) == Ids(m.processors)
    ensures !m.done ==> forall i :: 0 <= i < |m.processors| ==>
      r.manager.processors[i] == m.processors[i].(terminated := true)
    ensures r.manager.concurrency == m.concurrency && r.manager.nextId == m.nextId
    ensures Valid(m) ==> Valid(r.manager)
  {
    if m.done then Quieted(m, [])
    else
      var ps := seq(|m.processors|, i requires 0 <= i < |m.processors| => m.processors[i].(terminated := true));
      assert forall i :: 0 <= i < |ps| ==> ps[i].id == m.processors[i].id;
      Quieted(m.(done := true, processors := ps), Ids(m.processors))
  }

  /** A second `quiet()` changes nothing and terminates nobody. */
  lemma QuietIdempotent(m: ManagerState)
    ensures Quiet(Quiet(m).manager) == Quieted(Quiet(m).manager, [])
  {
  }

  /** The position of the first processor with this identity. */
  function IndexOf(ps: seq<ProcessorRef>, id: nat): (r: Option<nat>)
    ensures r.None? <==> forall i :: 0 <= i < |ps| ==> ps[i].id != id
    ensures r.Some? ==> r.value < |ps| && ps[r.value].id == id
    ensures r.Some? ==> forall i :: 0 <= i < r.value ==> ps[i].id != id
  {
    if |ps| == 0 then None
    else if ps[0].id == id then Some(0)
    else match IndexOf(ps[1..], id)
      case None => None
      case Some(k) => Some(k + 1)
  }

  function RemoveAt(ps: seq<ProcessorRef>, i: nat): (r: seq<ProcessorRef>)
    requires i < |ps|
  {
    ps[..i] + ps[i + 1..]
  }

  /** `stopped(processor:)`: drop the first processor with this identity and
      keep the rest in order; an unknown processor changes nothing. */
  function Stopped(m: ManagerState, id: nat): (r: ManagerState)
    ensures IndexOf(m.processors, id).None? ==> r == m
    ensures IndexOf(m.processors, id).Some? ==>
      var i := IndexOf(m.processors, id).value;
      r == m.(processors := m.processors[..i] + m.processors[i + 1..])
  {
    match IndexOf(m.processors, id)
    case None => m
    case Some(i) => m.(processors := RemoveAt(m.processors, i))
  }

  /** `died(processor:reason:)`: drop the processor and, unless `done`, append
      one freshly allocated processor whose index is the list's new length. */
  function Died(m: ManagerState, id: nat, reason: string): (r: ManagerState)
    ensures r.done == m.done && r.concurrency == m.concurrency
    ensures IndexOf(m.processors, id).None? ==> r == m
    ensures IndexOf(m.processors, id).Some? && !m.done ==>
      var i := IndexOf(m.processors, id).value;
      var rest := m.processors[..i] + m.processors[i + 1..];
      && r.processors == rest + [ProcessorRef(m.nextId, |rest|, false, false)]
      && r.nextId == m.nextId + 1
    ensures IndexOf(m.processors, id).Some? && m.done ==> r == Stopped(m, id)
  {
    match IndexOf(m.processors, id)
    case None => m
    case Some(i) =>
      var rest := RemoveAt(m.processors, i);
      if m.done then m.(processors := rest)
      else m.(processors := rest + [ProcessorRef(m.nextId, |rest|, false, false)], nextId := m.nextId + 1)
  }

  /** Removing one element keeps the identities distinct and allocated. */
  lemma RemoveKeepsValid(m: ManagerState, i: nat)
    requires Valid(m) && i < |m.processors|
    ensures Valid(m.(processors := RemoveAt(m.processors, i)))
  {
    var ps := RemoveAt(m.processors, i);
    assert forall k :: 0 <= k < |ps| ==> ps[k] == m.processors[if k < i then k else k + 1];
  }

  lemma StoppedKeepsValid(m: ManagerState, id: nat)
    requires Valid(m)
    ensures Valid(Stopped(m, id))
    ensures IndexOf(m.processors, id).Some? ==> |Stopped(m, id).processors| == |m.processors| - 1
  {
    if IndexOf(m.processors, id).Some? {
      RemoveKeepsValid(m, IndexOf(m.processors, id).value);
    }
  }

  /** `died` keeps the supervisor valid: the replacement's identity is fresh,
      and the count is restored while not `done` and drops by one after. */
  lemma {:induction false} DiedKeepsValid(m: ManagerState, id: nat, reason: string)
    requires Valid(m)
    ensures Valid(Died(m, id, reason))
    ensures IndexOf(m.processors, id).Some? && !m.done ==>
      |Died(m, id, reason).processors| == |m.processors|
    ensures IndexOf(m.processors, id).Some? && m.done ==>
      |Died(m, id, reason).processors| == |m.processors| - 1
    ensures forall i :: 0 <= i < |m.processors| ==> m.processors[i].id != m.nextId
  {
    match IndexOf(m.processors, id)
    case None =>
    case Some(i) =>
      RemoveKeepsValid(m, i);
      var rest := RemoveAt(m.processors, i);
      var removed := m.(processors := rest);
      if !m.done {
        var r := Died(m, id, reason);
        assert r.processors == rest + [ProcessorRef(m.nextId, |rest|, false, false)];
        assert forall k :: 0 <= k < |rest| ==> rest[k].id < m.nextId;
      }
  }

  /** As written, the replacement `died` appends is never started: after
      `start()`, a death while not `done` keeps the count but leaves one
      listed processor that never runs its fetch loop. */
  lemma {:induction false} DiedLeavesReplacementIdle(m: ManagerState, id: nat, reason: string)
    requires AllStarted(m) && !m.done && IndexOf(m.processors, id).Some?
    ensures var r := Died(m, id, reason);
      && |r.processors| == |m.processors|
      && !r.processors[|r.processors| - 1].started
      && !AllStarted(r)
  {
    var i := IndexOf(m.processors, id).value;
    var rest := RemoveAt(m.processors, i);
    assert Died(m, id, reason).processors == rest + [ProcessorRef(m.nextId, |rest|, false, false)];
  }

  /** `died` with the replacement started, as a respawn is meant to be. */
  function DiedIntended(m: ManagerState, id: nat, reason: string): (r: ManagerState) {
    match IndexOf(m.processors, id)
    case None => m
    case Some(i) =>
      var rest := RemoveAt(m.processors, i);
      if m.done then m.(processors := rest)
      else m.(processors := rest + [ProcessorRef(m.nextId, |rest|, false, true)], nextId := m.nextId + 1)
  }

  /** Validity and the identity list do not depend on which processors
      have been started. */
  lemma ValidIgnoresStarted(a: ManagerState, b: ManagerState)
    requires a.concurrency == b.concurrency && a.done == b.done && a.nextId == b.nextId
    requires |a.processors| == |b.processors|
    requires forall k :: 0 <= k < |a.processors| ==>
      a.processors[k].id == b.processors[k].id && a.processors[k].terminated == b.processors[k].terminated
    ensures Valid(a) ==> Valid(b)
    ensures Ids(a.processors) == Ids(b.processors)
  {
  }

  /** The corrected respawn keeps every listed processor running, and the
      count is restored while not `done`. */
  lemma {:induction false} DiedIntendedKeepsRunning(m: ManagerState, id: nat, reason: string)
    ensures var r := DiedIntended(m, id, reason);
      && (AllStarted(m) ==> AllStarted(r))
      && (IndexOf(m.processors, id).Some? && !m.done ==> |r.processors| == |m.processors|)
  {
    match IndexOf(m.processors, id)
    case None =>
    case Some(i) =>
      var rest := RemoveAt(m.processors, i);
      assert forall k :: 0 <= k < |rest| ==> rest[k] == m.processors[if k < i then k else k + 1];
  }

  /** The corrected respawn lists the same identities as `died` as written
      and keeps the supervisor valid. */
  lemma {:induction false} DiedIntendedAgrees(m: ManagerState, id: nat, reason: string)
    requires Valid(m)
    ensures Ids(DiedIntended(m, id, reason).processors) == Ids(Died(m, id, reason).processors)
    ensures Valid(DiedIntended(m, id, reason))
  {
    DiedKeepsValid(m, id, reason);
    var r := DiedIntended(m, id, reason);
    var d := Died(m, id, reason);
    if IndexOf(m.processors, id).Some? && !m.done {
      var rest := RemoveAt(m.processors, IndexOf(m.processors, id).value);
      assert r.processors == rest + [ProcessorRef(m.nextId, |rest|, false, true)];
      assert d.processors == rest + [ProcessorRef(m.nextId, |rest|, false, false)];
      ValidIgnoresStarted(d, r);
    }
  }

  /** The lifecycle events the supervisor reacts to. */
  datatype Event = QuietEvent | StoppedEvent(id: nat) | DiedEvent(id: nat, reason: string)

  function Handle(m: ManagerState, e: Event): (r: ManagerState) {
    match e
    case QuietEvent => Quiet(m).manager
    case StoppedEvent(id) => Stopped(m, id)
    case DiedEvent(id, reason) => Died(m, id, reason)
  }

  function Supervise(m: ManagerState, events: seq<Event>): (r: ManagerState)
    decreases |events|
  {
    if |events| == 0 then m else Supervise(Handle(m, events[0]), events[1..])
  }

  /** Over any sequence of events the supervisor stays valid (so never more
      than `concurrency` processors), `done` never returns to false, and the
      allocation counter only grows. */
  lemma {:induction false} SuperviseKeepsValid(m: ManagerState, events: seq<Event>)
    requires Valid(m)
    ensures Valid(Supervise(m, events))
    ensures m.done ==> Supervise(m, events).done
    ensures Supervise(m, events).nextId >= m.nextId
    decreases |events|
  {
    if |events| > 0 {
      match events[0] {
        case QuietEvent =>
        case StoppedEvent(id) => StoppedKeepsValid(m, id);
        case DiedEvent(id, reason) => DiedKeepsValid(m, id, reason);
      }
      SuperviseKeepsValid(Handle(m, events[0]), events[1..]);
    }
  }

  /** After `quiet()` no processor is ever spawned again: every processor
      alive after any further events was already alive before them. */
  lemma {:induction false} NoRespawnAfterQuiet(m: ManagerState, events: seq<Event>)
    requires m.done
    ensures forall p :: p in Supervise(m, events).processors ==> p in m.processors
    decreases |events|
  {
    if |events| > 0 {
      var h := Handle(m, events[0]);
      assert forall p :: p in h.processors ==> p in m.processors by {
        match events[0]
        case QuietEvent =>
        case StoppedEvent(id) =>
        case DiedEvent(id, reason) =>
      }
      NoRespawnAfterQuiet(h, events[1..]);
    }
  }
}
