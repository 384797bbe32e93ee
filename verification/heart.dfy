/** `Heart.beat(done:)` and `Heart.clear()`: the counter take-and-restore
    accounting and the two store transactions, as command lists executed
    against the abstract store. */
module Heart {
  import opened StoreModel

  const ProcessedKey: string := "stat:processed"
  const FailedKey: string := "stat:failed"
  const ProcessesKey: string := "processes"
  /** Seconds before the workers hash and the process record expire. */
  const Ttl: int := 60

  function WorkersKey(processKey: string): (r: string) {
    processKey + ":workers"
  }

  function SignalsKey(processKey: string): (r: string) {
    processKey + "-signals"
  }

  /** The per-day variant of a statistics key. */
  function DatedKey(base: string, date: string): (r: string) {
    base + ":" + date
  }

  /** The process-wide processed/failed counters. */
  datatype Counters = Counters(processed: nat, failed: nat)

  /** One in-flight job: its jid and its serialized payload. */
  datatype WorkerState = WorkerState(jid: string, job: string)

  /** What `beat` reads besides the counters: the process key, the formatted
      date, the worker states, the serialized process record and the beat
      time. Dates, JSON and clocks stay opaque text. */
  datatype Snapshot = Snapshot(
    processKey: string,
    date: string,
    workers: seq<WorkerState>,
    info: string,
    beatTime: string)

  /** One HSET per worker state, in iteration order, keyed by jid. */
  function WorkerWrites(key: string, ws: seq<WorkerState>): (r: seq<Command>)
    ensures |r| == |ws|
    ensures forall k :: 0 <= k < |ws| ==> r[k] == HSet(key, ws[k].jid, ws[k].job)
  {
    if |ws| == 0 then [] else [HSet(key, ws[0].jid, ws[0].job)] + WorkerWrites(key, ws[1..])
  }

  /** The counter updates and the reset of the workers hash that open the
      first transaction. */
  function StatsHeader(processKey: string, date: string, processed: int, failed: int, datedFailed: int): (r: seq<Command>)
    ensures |r| == 6 && r[0] == Multi
    ensures r[1] == IncrBy(ProcessedKey, processed) && r[2] == IncrBy(FailedKey, failed)
    ensures r[3] == IncrBy(DatedKey(ProcessedKey, date), processed)
    ensures r[4] == IncrBy(DatedKey(FailedKey, date), datedFailed)
    ensures r[5] == Del(WorkersKey(processKey))
  {
    [ Multi,
      IncrBy(ProcessedKey, processed),
      IncrBy(FailedKey, failed),
      IncrBy(DatedKey(ProcessedKey, date), processed),
      IncrBy(DatedKey(FailedKey, date), datedFailed),
      Del(WorkersKey(processKey)) ]
  }

  /** The shape of the first transaction; `datedFailed` is the amount added
      to the dated failed key. */
  function StatsTransaction(
    processKey: string, date: string, processed: int, failed: int, datedFailed: int,
    ws: seq<WorkerState>): (r: seq<Command>)
  {
    StatsHeader(processKey, date, processed, failed, datedFailed)
    + WorkerWrites(WorkersKey(processKey), ws)
    + [Expire(WorkersKey(processKey), Ttl), Exec]
  }

  /** The first transaction as the source writes it: the dated failed key is
      incremented by the processed count. */
  function FirstTransaction(processKey: string, date: string, processed: int, failed: int, ws: seq<WorkerState>): (r: seq<Command>)
    ensures |r| == 8 + |ws|
    ensures r[0] == Multi && r[|r| - 1] == Exec
    ensures r[1] == IncrBy(ProcessedKey, processed) && r[2] == IncrBy(FailedKey, failed)
    ensures r[3] == IncrBy(DatedKey(ProcessedKey, date), processed)
    ensures r[4] == IncrBy(DatedKey(FailedKey, date), processed)
    ensures r[5] == Del(WorkersKey(processKey))
    ensures forall k :: 0 <= k < |ws| ==> r[6 + k] == HSet(WorkersKey(processKey), ws[k].jid, ws[k].job)
    ensures r[|r| - 2] == Expire(WorkersKey(processKey), Ttl)
  {
    StatsTransaction(processKey, date, processed, failed, processed, ws)
  }

  /** The first transaction with the dated failed key incremented by the
      failed count. */
  function FirstTransactionIntended(processKey: string, date: string, processed: int, failed: int, ws: seq<WorkerState>): (r: seq<Command>) {
    StatsTransaction(processKey, date, processed, failed, failed, ws)
  }

  /** The fields of the process record written by HMSET. */
  function RecordFields(info: string, busy: int, beatTime: string, done: bool): (r: map<string, Field>) {
    map["info" := Text(info), "busy" := Number(busy), "beat" := Text(beatTime), "quit" := Flag(done)]
  }

  /** The second transaction: register the process, write its record with
      `busy` and `quit`, refresh its expiry, and pop one signal. */
  function SecondTransaction(processKey: string, info: string, busy: int, beatTime: string, done: bool): (r: seq<Command>) {
    [ Multi,
      SAdd(ProcessesKey, processKey),
      Exists(processKey),
      HMSet(processKey, RecordFields(info, busy, beatTime, done)),
      Expire(processKey, Ttl),
      RPop(SignalsKey(processKey)),
      Exec ]
  }

  /** Where a beat can fail: borrowing the connection, the first
      transaction (nothing of it applies), or the second (the first has
      committed). A failure while the first transaction is still being
      built (serialising a worker's job or queueing its HSET,
      Heart.swift:52-55) sends nothing and is modelled by `PoolFault`,
      which has the same effect. */
  datatype Fault = NoFault | PoolFault | FirstTxFault | SecondTxFault

  /** The counters afterwards, the store afterwards, and the transactions
      sent, in order. */
  datatype BeatResult = BeatResult(counters: Counters, store: Store, sent: seq<seq<Command>>)

  /** The counters `beat` takes (resetting both to zero) before any store
      traffic, and adds back in its `catch`. */
  function Restore(c: Counters, taken: Counters): (r: Counters) {
    Counters(c.processed + taken.processed, c.failed + taken.failed)
  }

  /** `beat(done:)` as written: take both counters, run both transactions;
      on any error, add both taken amounts back. Nothing propagates. */
  function Beat(c: Counters, s: Store, snap: Snapshot, done: bool, fault: Fault): (r: BeatResult)
    ensures fault == NoFault ==> r.counters == Counters(0, 0)
    ensures fault != NoFault ==> r.counters == c
    ensures fault == NoFault || fault == SecondTxFault ==>
      && |r.sent| == 2
      && r.sent[0] == FirstTransaction(snap.processKey, snap.date, c.processed, c.failed, snap.workers)
      && r.sent[1] == SecondTransaction(snap.processKey, snap.info, |snap.workers|, snap.beatTime, done)
    ensures fault == FirstTxFault ==>
      r.sent == [FirstTransaction(snap.processKey, snap.date, c.processed, c.failed, snap.workers)]
    ensures fault == NoFault ==> r.store == ApplyAll(ApplyAll(s, r.sent[0]), r.sent[1])
    ensures fault == PoolFault ==> r.sent == [] && r.store == s
    ensures fault == FirstTxFault ==> |r.sent| == 1 && r.store == s
    ensures fault == SecondTxFault ==> r.store == ApplyAll(s, r.sent[0])
  {
    var taken := c;
    var zero := Counters(0, 0);
    var t1 := FirstTransaction(snap.processKey, snap.date, taken.processed, taken.failed, snap.workers);
    var t2 := SecondTransaction(snap.processKey, snap.info, |snap.workers|, snap.beatTime, done);
    match fault
    case NoFault => BeatResult(zero, ApplyAll(ApplyAll(s, t1), t2), [t1, t2])
    case PoolFault => BeatResult(Restore(zero, taken), s, [])
    case FirstTxFault => BeatResult(Restore(zero, taken), s, [t1])
    case SecondTxFault => BeatResult(Restore(zero, taken), ApplyAll(s, t1), [t1, t2])
  }

  /** `beat` with both defects corrected: the dated failed key counts
      failures, and the counters are added back only when the first
      transaction did not commit. */
  function BeatIntended(c: Counters, s: Store, snap: Snapshot, done: bool, fault: Fault): (r: BeatResult) {
    var zero := Counters(0, 0);
    var t1 := FirstTransactionIntended(snap.processKey, snap.date, c.processed, c.failed, snap.workers);
    var t2 := SecondTransaction(snap.processKey, snap.info, |snap.workers|, snap.beatTime, done);
    match fault
    case NoFault => BeatResult(zero, ApplyAll(ApplyAll(s, t1), t2), [t1, t2])
    case PoolFault => BeatResult(Restore(zero, c), s, [])
    case FirstTxFault => BeatResult(Restore(zero, c), s, [t1])
    case SecondTxFault => BeatResult(zero, ApplyAll(s, t1), [t1, t2])
  }

  /** `clear()`: remove the process from the process set and delete its
      workers hash, in one pipeline; errors are swallowed. The source builds
      the workers key from the interpolated identity value rather than its
      raw value, so that text is a separate input. */
  function ClearCommands(processKey: string, identityText: string): (r: seq<Command>) {
    [SRem(ProcessesKey, processKey), Del(WorkersKey(identityText))]
  }

  function Clear(s: Store, processKey: string, identityText: string, fails: bool): (r: Store)
    ensures fails ==> r == s
    ensures !fails ==> Members(r, ProcessesKey) == Members(s, ProcessesKey) - {processKey}
    ensures !fails ==> !Present(r, WorkersKey(identityText)) && WorkersKey(identityText) !in r.ttls
    ensures !fails && identityText == processKey ==> Hash(r, WorkersKey(processKey)) == map[]
    ensures !fails ==> forall k :: k != ProcessesKey && k != WorkersKey(identityText) ==>
      && Members(r, k) == Members(s, k) && Hash(r, k) == Hash(s, k)
      && Counter(r, k) == Counter(s, k) && ListAt(r, k) == ListAt(s, k)
      && (k in r.ttls <==> k in s.ttls)
  {
    if fails then s
    else
      var cs := ClearCommands(processKey, identityText);
      var s1 := Apply(s, cs[0]);
      var s2 := Apply(s1, cs[1]);
      assert ApplyAll(s, cs) == ApplyAll(s1, [cs[1]]) by { assert cs[1..] == [cs[1]]; }
      assert ApplyAll(s1, [cs[1]]) == ApplyAll(s2, []) by { assert [cs[1]][1..] == []; }
      var wk := WorkersKey(identityText);
      assert wk != ProcessesKey by { assert wk[|wk| - 2] == 'r' && ProcessesKey[|ProcessesKey| - 2] == 'e'; }
      ApplyAll(s, cs)
  }

  /** The statistics keys differ from one another, and the workers key
      differs from the undated ones. */
  lemma StatKeysDistinct(processKey: string, date: string)
    ensures ProcessedKey != FailedKey
    ensures DatedKey(ProcessedKey, date) != DatedKey(FailedKey, date)
    ensures ProcessedKey !in {DatedKey(ProcessedKey, date), DatedKey(FailedKey, date)}
    ensures FailedKey !in {DatedKey(ProcessedKey, date), DatedKey(FailedKey, date)}
    ensures WorkersKey(processKey) != ProcessedKey && WorkersKey(processKey) != FailedKey
  {
    assert ProcessedKey[5] == 'p' && FailedKey[5] == 'f';
    assert DatedKey(ProcessedKey, date)[5] == 'p' && DatedKey(FailedKey, date)[5] == 'f';
    var w := WorkersKey(processKey);
    assert w[|w| - 2] == 'r';
    assert ProcessedKey[|ProcessedKey| - 2] == 'e' && FailedKey[|FailedKey| - 2] == 'e';
    assert DatedKey(ProcessedKey, date)[14] == ':';
    assert FailedKey[5..] != DatedKey(ProcessedKey, date)[5..];
  }

  /** The workers key is not one of the dated statistics keys (a date such
      as "2017-3-20" never ends in "workers"). */
  predicate DatedKeysApart(processKey: string, date: string): (r: bool) {
    && WorkersKey(processKey) != DatedKey(ProcessedKey, date)
    && WorkersKey(processKey) != DatedKey(FailedKey, date)
  }

  /** The workers hash built by the HSETs, later writes overriding earlier. */
  function Fill(h: map<string, Field>, ws: seq<WorkerState>): (r: map<string, Field>)
    decreases |ws|
  {
    if |ws| == 0 then h else Fill(h[ws[0].jid := Text(ws[0].job)], ws[1..])
  }

  lemma {:induction false} WritesEffect(s: Store, key: string, ws: seq<WorkerState>)
    ensures var t := ApplyAll(s, WorkerWrites(key, ws));
      && Hash(t, key) == Fill(Hash(s, key), ws)
      && t.counters == s.counters
      && (|ws| > 0 ==> key in t.hashes)
    decreases |ws|
  {
    if |ws| > 0 {
      var cs := WorkerWrites(key, ws);
      ApplyFrom(s, cs, 0);
      assert cs[1..] == WorkerWrites(key, ws[1..]);
      WritesEffect(Apply(s, cs[0]), key, ws[1..]);
    }
  }

  /** Writes for other jids leave a field alone. */
  lemma {:induction false} FillOutside(h: map<string, Field>, ws: seq<WorkerState>, x: string)
    requires forall k :: 0 <= k < |ws| ==> ws[k].jid != x
    ensures x in Fill(h, ws) <==> x in h
    ensures x in h ==> Fill(h, ws)[x] == h[x]
    decreases |ws|
  {
    if |ws| > 0 {
      FillOutside(h[ws[0].jid := Text(ws[0].job)], ws[1..], x);
    }
  }

  /** With distinct jids (the source keeps worker states in a dictionary
      keyed by jid) the hash holds one field per worker state, holding that
      state's payload. */
  lemma {:induction false} FillHoldsEachState(h: map<string, Field>, ws: seq<WorkerState>)
    requires forall i, j :: 0 <= i < j < |ws| ==> ws[i].jid != ws[j].jid
    ensures forall k :: 0 <= k < |ws| ==> ws[k].jid in Fill(h, ws) && Fill(h, ws)[ws[k].jid] == Text(ws[k].job)
    decreases |ws|
  {
    if |ws| > 0 {
      var h' := h[ws[0].jid := Text(ws[0].job)];
      var rest := ws[1..];
      FillHoldsEachState(h', rest);
      assert forall k :: 0 <= k < |rest| ==> rest[k].jid != ws[0].jid by {
        assert forall k :: 0 <= k < |rest| ==> rest[k] == ws[k + 1];
      }
      FillOutside(h', rest, ws[0].jid);
      assert forall k :: 1 <= k < |ws| ==> ws[k] == rest[k - 1];
    }
  }

  /** Every key of the hash is a jid of some worker state (or was there). */
  lemma {:induction false} FillKeys(h: map<string, Field>, ws: seq<WorkerState>, x: string)
    requires x in Fill(h, ws)
    ensures x in h || exists k :: 0 <= k < |ws| && ws[k].jid == x
    decreases |ws|
  {
    if |ws| > 0 {
      var h' := h[ws[0].jid := Text(ws[0].job)];
      FillKeys(h', ws[1..], x);
      if exists k :: 0 <= k < |ws[1..]| && ws[1..][k].jid == x {
        var k :| 0 <= k < |ws[1..]| && ws[1..][k].jid == x;
        assert ws[k + 1].jid == x;
      }
    }
  }

  /** What a committed first transaction does: the four statistics counters
      grow by their amounts and the workers hash is rebuilt from the worker
      states alone, with a 60-second expiry when it is not empty. */
  lemma {:induction false} StatsTransactionEffect(
    s: Store, processKey: string, date: string, processed: int, failed: int, datedFailed: int,
    ws: seq<WorkerState>)
    requires DatedKeysApart(processKey, date)
    ensures var t := ApplyAll(s, StatsTransaction(processKey, date, processed, failed, datedFailed, ws));
      && Counter(t, ProcessedKey) == Counter(s, ProcessedKey) + processed
      && Counter(t, FailedKey) == Counter(s, FailedKey) + failed
      && Counter(t, DatedKey(ProcessedKey, date)) == Counter(s, DatedKey(ProcessedKey, date)) + processed
      && Counter(t, DatedKey(FailedKey, date)) == Counter(s, DatedKey(FailedKey, date)) + datedFailed
      && Hash(t, WorkersKey(processKey)) == Fill(map[], ws)
      && (|ws| > 0 ==> WorkersKey(processKey) in t.ttls && t.ttls[WorkersKey(processKey)] == Ttl)
  {
    StatKeysDistinct(processKey, date);
    var wk := WorkersKey(processKey);
    var header := StatsHeader(processKey, date, processed, failed, datedFailed);
    var writes := WorkerWrites(wk, ws);
    var trailer := [Expire(wk, Ttl), Exec];
    ApplyAllThree(s, header, writes, trailer);
    HeaderEffect(s, header, ProcessedKey, FailedKey, DatedKey(ProcessedKey, date), DatedKey(FailedKey, date), wk,
                 processed, failed, datedFailed);
    var s6 := ApplyAll(s, header);
    WritesEffect(s6, wk, ws);
    var w := ApplyAll(s6, writes);
    ApplyThenExec(w, trailer);
    ExpireKeeps(w, wk, Ttl);
  }

  /** The header of the first transaction, over any four distinct counter
      keys and a workers key apart from them. */
  lemma HeaderEffect(
    s: Store, header: seq<Command>, kp: string, kf: string, dp: string, df: string, wk: string,
    processed: int, failed: int, datedFailed: int)
    requires |header| == 6 && header[0] == Multi
    requires header[1] == IncrBy(kp, processed) && header[2] == IncrBy(kf, failed)
    requires header[3] == IncrBy(dp, processed) && header[4] == IncrBy(df, datedFailed) && header[5] == Del(wk)
    requires kp != kf && dp != df && kp !in {dp, df} && kf !in {dp, df}
    requires wk !in {kp, kf, dp, df}
    ensures var t := ApplyAll(s, header);
      && Counter(t, kp) == Counter(s, kp) + processed
      && Counter(t, kf) == Counter(s, kf) + failed
      && Counter(t, dp) == Counter(s, dp) + processed
      && Counter(t, df) == Counter(s, df) + datedFailed
      && Hash(t, wk) == map[]
  {
    ApplySix(s, header);
    assert Apply(s, header[0]) == s;
    var s5 := Apply(Apply(Apply(Apply(s, header[1]), header[2]), header[3]), header[4]);
    FourIncrements(s, kp, processed, kf, failed, dp, processed, df, datedFailed);
    DelStep(s5, wk);
  }

  /** Four INCRBYs on distinct keys each move their own counter. */
  lemma FourIncrements(s: Store, k1: string, n1: int, k2: string, n2: int, k3: string, n3: int, k4: string, n4: int)
    requires k1 != k2 && k3 != k4 && k1 !in {k3, k4} && k2 !in {k3, k4}
    ensures var t := Apply(Apply(Apply(Apply(s, IncrBy(k1, n1)), IncrBy(k2, n2)), IncrBy(k3, n3)), IncrBy(k4, n4));
      && Counter(t, k1) == Counter(s, k1) + n1
      && Counter(t, k2) == Counter(s, k2) + n2
      && Counter(t, k3) == Counter(s, k3) + n3
      && Counter(t, k4) == Counter(s, k4) + n4
      && t.hashes == s.hashes
  {
    var s2 := Apply(s, IncrBy(k1, n1));
    IncrByStep(s, k1, n1);
    var s3 := Apply(s2, IncrBy(k2, n2));
    IncrByStep(s2, k2, n2);
    var s4 := Apply(s3, IncrBy(k3, n3));
    IncrByStep(s3, k3, n3);
    IncrByStep(s4, k4, n4);
  }

  /** What a committed second transaction does: the process is in the
      process set, its record carries `busy` and `quit` and expires in 60
      seconds, one signal is popped from its inbox, and no counter moves. */
  lemma SecondTransactionEffect(s: Store, processKey: string, info: string, busy: int, beatTime: string, done: bool)
    ensures var t := ApplyAll(s, SecondTransaction(processKey, info, busy, beatTime, done));
      var inbox := ListAt(s, SignalsKey(processKey));
      && t.counters == s.counters
      && processKey in Members(t, ProcessesKey)
      && Hash(t, processKey) == Hash(s, processKey) + RecordFields(info, busy, beatTime, done)
      && processKey in t.ttls && t.ttls[processKey] == Ttl
      && ListAt(t, SignalsKey(processKey)) == (if |inbox| == 0 then [] else inbox[..|inbox| - 1])
      && forall k :: k != processKey ==> Hash(t, k) == Hash(s, k)
  {
    var sk := SignalsKey(processKey);
    assert sk != processKey by {
      assert |sk| > |processKey|;
    }
    SecondTransactionSteps(s, processKey, info, busy, beatTime, done);
    RegistrationEffect(s, processKey, RecordFields(info, busy, beatTime, done), sk);
    RegistrationHashes(s, processKey, RecordFields(info, busy, beatTime, done), sk);
  }

  /** Registering a process: it joins the process set, its record expires
      in 60 seconds, one signal is popped from its inbox, and no counter
      moves. */
  lemma RegistrationEffect(s: Store, processKey: string, fields: map<string, Field>, inbox: string)
    ensures var t := Apply(Apply(Apply(Apply(s, SAdd(ProcessesKey, processKey)), HMSet(processKey, fields)),
                           Expire(processKey, Ttl)), RPop(inbox));
      var l := ListAt(s, inbox);
      && t.counters == s.counters
      && processKey in Members(t, ProcessesKey)
      && processKey in t.ttls && t.ttls[processKey] == Ttl
      && ListAt(t, inbox) == (if |l| == 0 then [] else l[..|l| - 1])
  {
    var s1 := Apply(s, SAdd(ProcessesKey, processKey));
    SAddStep(s, ProcessesKey, processKey);
    var s2 := Apply(s1, HMSet(processKey, fields));
    HMSetStep(s1, processKey, fields);
    assert Present(s2, processKey);
    var s3 := Apply(s2, Expire(processKey, Ttl));
    ExpireStep(s2, processKey, Ttl);
    RPopStep(s3, inbox);
  }

  /** Registering a process writes its record fields and no other hash. */
  lemma RegistrationHashes(s: Store, processKey: string, fields: map<string, Field>, inbox: string)
    ensures var t := Apply(Apply(Apply(Apply(s, SAdd(ProcessesKey, processKey)), HMSet(processKey, fields)),
                           Expire(processKey, Ttl)), RPop(inbox));
      && Hash(t, processKey) == Hash(s, processKey) + fields
      && forall k :: k != processKey ==> Hash(t, k) == Hash(s, k)
  {
    var s1 := Apply(s, SAdd(ProcessesKey, processKey));
    SAddStep(s, ProcessesKey, processKey);
    var s2 := Apply(s1, HMSet(processKey, fields));
    HMSetStep(s1, processKey, fields);
    assert Present(s2, processKey);
    var s3 := Apply(s2, Expire(processKey, Ttl));
    ExpireStep(s2, processKey, Ttl);
    RPopStep(s3, inbox);
    var t := Apply(s3, RPop(inbox));
    assert t.hashes == s.hashes[processKey := Hash(s, processKey) + fields];
  }

  /** The second transaction executes as its four effective commands. */
  lemma SecondTransactionSteps(s: Store, processKey: string, info: string, busy: int, beatTime: string, done: bool)
    ensures ApplyAll(s, SecondTransaction(processKey, info, busy, beatTime, done))
      == Apply(Apply(Apply(Apply(s, SAdd(ProcessesKey, processKey)),
           HMSet(processKey, RecordFields(info, busy, beatTime, done))),
           Expire(processKey, Ttl)), RPop(SignalsKey(processKey)))
  {
    var cs := SecondTransaction(processKey, info, busy, beatTime, done);
    BlockSteps(s, cs);
  }

  /** A counter the second transaction does not name keeps its value. */
  lemma SecondTransactionKeepsCounter(s: Store, processKey: string, info: string, busy: int, beatTime: string, done: bool, k: string)
    ensures Counter(ApplyAll(s, SecondTransaction(processKey, info, busy, beatTime, done)), k) == Counter(s, k)
  {
    SecondTransactionEffect(s, processKey, info, busy, beatTime, done);
  }

  /** A committed beat moves the undated counters by exactly the amounts it
      took; a beat that fails before or in its first transaction leaves the
      store alone and keeps the amounts in the counters. Either way nothing
      is lost or counted twice, except in the `SecondTxFault` case below. */
  lemma {:induction false} BeatConservesCounts(c: Counters, s: Store, snap: Snapshot, done: bool, fault: Fault)
    requires fault != SecondTxFault
    requires DatedKeysApart(snap.processKey, snap.date)
    ensures var r := Beat(c, s, snap, done, fault);
      && Counter(r.store, ProcessedKey) + r.counters.processed == Counter(s, ProcessedKey) + c.processed
      && Counter(r.store, FailedKey) + r.counters.failed == Counter(s, FailedKey) + c.failed
  {
    if fault == NoFault {
      var t1 := FirstTransaction(snap.processKey, snap.date, c.processed, c.failed, snap.workers);
      StatsTransactionEffect(s, snap.processKey, snap.date, c.processed, c.failed, c.processed, snap.workers);
      var m := ApplyAll(s, t1);
      SecondTransactionKeepsCounter(m, snap.processKey, snap.info, |snap.workers|, snap.beatTime, done, ProcessedKey);
      SecondTransactionKeepsCounter(m, snap.processKey, snap.info, |snap.workers|, snap.beatTime, done, FailedKey);
    }
  }

  /** A beat that fails at the pool or in its first transaction defers its
      counts: a later committed beat adds them, together with whatever
      accrued in between. */
  lemma FailedBeatDefersCounts(
    c: Counters, s: Store, snap: Snapshot, done: bool, fault: Fault,
    accrued: Counters, next: Snapshot, nextDone: bool)
    requires fault == PoolFault || fault == FirstTxFault
    requires DatedKeysApart(next.processKey, next.date)
    ensures var first := Beat(c, s, snap, done, fault);
      var second := Beat(Restore(first.counters, accrued), first.store, next, nextDone, NoFault);
      && Counter(second.store, ProcessedKey) == Counter(s, ProcessedKey) + c.processed + accrued.processed
      && Counter(second.store, FailedKey) == Counter(s, FailedKey) + c.failed + accrued.failed
      && second.counters == Counters(0, 0)
  {
    var first := Beat(c, s, snap, done, fault);
    BeatConservesCounts(Restore(first.counters, accrued), first.store, next, nextDone, NoFault);
  }

  /** As written, the dated failed counter grows by the processed count on
      every committed beat: with processed = 3 and failed = 0 it grows by 3. */
  lemma DatedFailedCountsProcessed(c: Counters, s: Store, snap: Snapshot, done: bool)
    requires DatedKeysApart(snap.processKey, snap.date)
    ensures var r := Beat(c, s, snap, done, NoFault);
      var key := DatedKey(FailedKey, snap.date);
      Counter(r.store, key) == Counter(s, key) + c.processed
  {
    var t1 := FirstTransaction(snap.processKey, snap.date, c.processed, c.failed, snap.workers);
    StatsTransactionEffect(s, snap.processKey, snap.date, c.processed, c.failed, c.processed, snap.workers);
    SecondTransactionKeepsCounter(ApplyAll(s, t1), snap.processKey, snap.info, |snap.workers|, snap.beatTime, done,
                                  DatedKey(FailedKey, snap.date));
  }

  /** As written, a beat whose second transaction fails has already
      committed the first, yet adds the taken counts back: the next beat
      counts them a second time. */
  lemma SecondFaultCountsTwice(c: Counters, s: Store, snap: Snapshot, done: bool)
    requires DatedKeysApart(snap.processKey, snap.date)
    ensures var r := Beat(c, s, snap, done, SecondTxFault);
      && Counter(r.store, ProcessedKey) + r.counters.processed == Counter(s, ProcessedKey) + 2 * c.processed
      && Counter(r.store, FailedKey) + r.counters.failed == Counter(s, FailedKey) + 2 * c.failed
  {
    FirstTransactionCounts(c, s, snap);
  }

  /** A committed first transaction, as written, adds the taken counts to
      the undated counters. */
  lemma FirstTransactionCounts(c: Counters, s: Store, snap: Snapshot)
    requires DatedKeysApart(snap.processKey, snap.date)
    ensures var m := ApplyAll(s, FirstTransaction(snap.processKey, snap.date, c.processed, c.failed, snap.workers));
      && Counter(m, ProcessedKey) == Counter(s, ProcessedKey) + c.processed
      && Counter(m, FailedKey) == Counter(s, FailedKey) + c.failed
  {
    StatsTransactionEffect(s, snap.processKey, snap.date, c.processed, c.failed, c.processed, snap.workers);
  }

  /** The corrected beat: whatever fails, each of the four statistics
      counters plus the pending counter equals its value before plus the
      pending amount before — every job is counted exactly once, and the
      dated failed key counts failures. */
  lemma {:induction false} IntendedBeatConservesCounts(c: Counters, s: Store, snap: Snapshot, done: bool, fault: Fault)
    requires DatedKeysApart(snap.processKey, snap.date)
    ensures var r := BeatIntended(c, s, snap, done, fault);
      var dp := DatedKey(ProcessedKey, snap.date);
      var df := DatedKey(FailedKey, snap.date);
      && Counter(r.store, ProcessedKey) + r.counters.processed == Counter(s, ProcessedKey) + c.processed
      && Counter(r.store, FailedKey) + r.counters.failed == Counter(s, FailedKey) + c.failed
      && Counter(r.store, dp) + r.counters.processed == Counter(s, dp) + c.processed
      && Counter(r.store, df) + r.counters.failed == Counter(s, df) + c.failed
  {
    var t1 := FirstTransactionIntended(snap.processKey, snap.date, c.processed, c.failed, snap.workers);
    if fault == NoFault || fault == SecondTxFault {
      StatsTransactionEffect(s, snap.processKey, snap.date, c.processed, c.failed, c.failed, snap.workers);
    }
    if fault == NoFault {
      var m := ApplyAll(s, t1);
      var k := snap.processKey;
      SecondTransactionKeepsCounter(m, k, snap.info, |snap.workers|, snap.beatTime, done, ProcessedKey);
      SecondTransactionKeepsCounter(m, k, snap.info, |snap.workers|, snap.beatTime, done, FailedKey);
      SecondTransactionKeepsCounter(m, k, snap.info, |snap.workers|, snap.beatTime, done, DatedKey(ProcessedKey, snap.date));
      SecondTransactionKeepsCounter(m, k, snap.info, |snap.workers|, snap.beatTime, done, DatedKey(FailedKey, snap.date));
    }
  }

  lemma RecordFieldsAt(info: string, busy: int, beatTime: string, done: bool)
    ensures var f := RecordFields(info, busy, beatTime, done);
      && "busy" in f && f["busy"] == Number(busy)
      && "quit" in f && f["quit"] == Flag(done)
      && "info" in f && f["info"] == Text(info)
  {
    assert "quit" != "busy" && "beat" != "busy" by { assert "quit"[0] != "busy"[0]; assert "beat"[1] != "busy"[1]; }
    assert "busy" != "info" && "beat" != "info" && "quit" != "info" by { assert "busy"[0] != "info"[0]; }
  }

  /** A committed beat publishes the in-flight work and the liveness record:
      the workers hash holds exactly the current worker states, the process
      is registered, and its record says how many jobs are busy and whether
      the process is quitting. */
  lemma {:induction false} BeatPublishes(c: Counters, s: Store, snap: Snapshot, done: bool)
    requires DatedKeysApart(snap.processKey, snap.date)
    ensures var r := Beat(c, s, snap, done, NoFault);
      var record := Hash(r.store, snap.processKey);
      && Hash(r.store, WorkersKey(snap.processKey)) == Fill(map[], snap.workers)
      && (forall x :: x in Hash(r.store, WorkersKey(snap.processKey)) ==>
            exists k :: 0 <= k < |snap.workers| && snap.workers[k].jid == x)
      && snap.processKey in Members(r.store, ProcessesKey)
      && "busy" in record && record["busy"] == Number(|snap.workers|)
      && "quit" in record && record["quit"] == Flag(done)
  {
    var k := snap.processKey;
    var t1 := FirstTransaction(k, snap.date, c.processed, c.failed, snap.workers);
    StatsTransactionEffect(s, k, snap.date, c.processed, c.failed, c.processed, snap.workers);
    SecondTransactionEffect(ApplyAll(s, t1), k, snap.info, |snap.workers|, snap.beatTime, done);
    RecordFieldsAt(snap.info, |snap.workers|, snap.beatTime, done);
    assert WorkersKey(k) != k by { assert |WorkersKey(k)| > |k|; }
    forall x | x in Fill(map[], snap.workers)
      ensures exists j :: 0 <= j < |snap.workers| && snap.workers[j].jid == x
    {
      FillKeys(map[], snap.workers, x);
    }
  }
}
