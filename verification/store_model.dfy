/** Store commands as data, and an abstract key-value store that executes
    them: integer counters, hashes, sets, lists and expiry times. A committed
    MULTI ... EXEC block is the commands applied in order; one that fails is
    none of them. */
module StoreModel {

  /** A hash field value, written by the source as text: a string, a decimal
      integer or a Swift `Bool`. */
  datatype Field = Text(text: string) | Number(n: int) | Flag(b: bool)

  datatype Command =
    | Multi
    | Exec
    | IncrBy(key: string, amount: int)
    | Del(key: string)
    | HSet(key: string, field: string, value: string)
    | HMSet(key: string, fields: map<string, Field>)
    | Expire(key: string, seconds: int)
    | SAdd(key: string, member: string)
    | SRem(key: string, member: string)
    | Exists(key: string)
    | RPop(key: string)

  datatype Store = Store(
    counters: map<string, int>,
    hashes: map<string, map<string, Field>>,
    sets: map<string, set<string>>,
    lists: map<string, seq<string>>,
    ttls: map<string, int>)

  function Counter(s: Store, k: string): (r: int) {
    if k in s.counters then s.counters[k] else 0
  }

  function Hash(s: Store, k: string): (r: map<string, Field>) {
    if k in s.hashes then s.hashes[k] else map[]
  }

  function Members(s: Store, k: string): (r: set<string>) {
    if k in s.sets then s.sets[k] else {}
  }

  function ListAt(s: Store, k: string): (r: seq<string>) {
    if k in s.lists then s.lists[k] else []
  }

  predicate Present(s: Store, k: string): (r: bool) {
    k in s.counters || k in s.hashes || k in s.sets || k in s.lists
  }

  /** One command's effect. EXPIRE on a missing key does nothing; RPOP
      removes the last element of a list. */
  function Apply(s: Store, c: Command): (r: Store) {
    match c
    case Multi => s
    case Exec => s
    case Exists(_) => s
    case IncrBy(k, n) => s.(counters := s.counters[k := Counter(s, k) + n])
    case Del(k) =>
      s.(counters := s.counters - {k}, hashes := s.hashes - {k}, sets := s.sets - {k},
         lists := s.lists - {k}, ttls := s.ttls - {k})
    case HSet(k, f, v) => s.(hashes := s.hashes[k := Hash(s, k)[f := Text(v)]])
    case HMSet(k, fs) => s.(hashes := s.hashes[k := Hash(s, k) + fs])
    case Expire(k, secs) => if Present(s, k) then s.(ttls := s.ttls[k := secs]) else s
    case SAdd(k, x) => s.(sets := s.sets[k := Members(s, k) + {x}])
    case SRem(k, x) => s.(sets := s.sets[k := Members(s, k) - {x}])
    case RPop(k) =>
      var l := ListAt(s, k);
      if |l| == 0 then s else s.(lists := s.lists[k := l[..|l| - 1]])
  }

  /** SADD adds one member to one set and touches nothing else. */
  lemma SAddStep(s: Store, k: string, x: string)
    ensures Apply(s, SAdd(k, x)) == s.(sets := s.sets[k := Members(s, k) + {x}])
  {
  }

  /** HMSET merges the fields into one hash and touches nothing else. */
  lemma HMSetStep(s: Store, k: string, fs: map<string, Field>)
    ensures Apply(s, HMSet(k, fs)) == s.(hashes := s.hashes[k := Hash(s, k) + fs])
  {
  }

  /** EXPIRE on a present key sets its expiry and touches nothing else. */
  lemma ExpireStep(s: Store, k: string, secs: int)
    requires Present(s, k)
    ensures Apply(s, Expire(k, secs)) == s.(ttls := s.ttls[k := secs])
  {
  }

  /** RPOP drops the last element of one list and touches nothing else. */
  lemma RPopStep(s: Store, k: string)
    ensures var l := ListAt(s, k);
      Apply(s, RPop(k)) == if |l| == 0 then s else s.(lists := s.lists[k := l[..|l| - 1]])
  {
  }

  function ApplyAll(s: Store, cs: seq<Command>): (r: Store)
    decreases |cs|
  {
    if |cs| == 0 then s else ApplyAll(Apply(s, cs[0]), cs[1..])
  }

  lemma {:induction false} ApplyAllAppend(s: Store, a: seq<Command>, b: seq<Command>)
    ensures ApplyAll(s, a + b) == ApplyAll(ApplyAll(s, a), b)
    decreases |a|
  {
    if |a| > 0 {
      assert (a + b)[1..] == a[1..] + b;
      ApplyAllAppend(Apply(s, a[0]), a[1..], b);
    } else {
      assert a + b == b;
    }
  }

  /** EXPIRE moves no counter and touches no hash; on a present key it
      sets the expiry. */
  lemma ExpireKeeps(s: Store, k: string, secs: int)
    ensures var t := Apply(s, Expire(k, secs));
      && t.counters == s.counters && t.hashes == s.hashes
      && (Present(s, k) ==> k in t.ttls && t.ttls[k] == secs)
  {
  }

  /** Executing three blocks back to back is executing each in turn. */
  lemma ApplyAllThree(s: Store, a: seq<Command>, b: seq<Command>, c: seq<Command>)
    ensures ApplyAll(s, a + b + c) == ApplyAll(ApplyAll(ApplyAll(s, a), b), c)
  {
    ApplyAllAppend(s, a + b, c);
    ApplyAllAppend(s, a, b);
  }

  /** A command followed by EXEC executes as that command. */
  lemma ApplyThenExec(s: Store, cs: seq<Command>)
    requires |cs| == 2 && cs[1] == Exec
    ensures ApplyAll(s, cs) == Apply(s, cs[0])
  {
    ApplyFrom(s, cs, 0);
    ApplyFrom(Apply(s, cs[0]), cs, 1);
    assert cs[0..] == cs && cs[2..] == [];
  }

  /** INCRBY adds to one counter, starting from zero, and touches nothing
      else. */
  lemma IncrByStep(s: Store, k: string, n: int)
    ensures Apply(s, IncrBy(k, n)) == s.(counters := s.counters[k := Counter(s, k) + n])
  {
  }

  /** DEL removes the key from every kind of value and from the expiry
      times. */
  lemma DelStep(s: Store, k: string)
    ensures var t := Apply(s, Del(k));
      && t.counters == s.counters - {k} && t.hashes == s.hashes - {k}
      && !Present(t, k) && k !in t.ttls
  {
  }

  /** A six-command block executes as its commands in order. */
  lemma ApplySix(s: Store, cs: seq<Command>)
    requires |cs| == 6
    ensures ApplyAll(s, cs) == Apply(Apply(Apply(Apply(Apply(Apply(s, cs[0]), cs[1]), cs[2]), cs[3]), cs[4]), cs[5])
  {
    var s1 := Apply(s, cs[0]);
    var s2 := Apply(s1, cs[1]);
    var s3 := Apply(s2, cs[2]);
    var s4 := Apply(s3, cs[3]);
    var s5 := Apply(s4, cs[4]);
    assert cs[0..] == cs;
    ApplyFrom(s, cs, 0);
    ApplyFrom(s1, cs, 1);
    ApplyFrom(s2, cs, 2);
    ApplyFrom(s3, cs, 3);
    ApplyFrom(s4, cs, 4);
    ApplyFrom(s5, cs, 5);
    assert cs[6..] == [];
  }

  /** A seven-command block executes as its commands in order. */
  lemma ApplySeven(s: Store, cs: seq<Command>)
    requires |cs| == 7
    ensures ApplyAll(s, cs)
      == Apply(Apply(Apply(Apply(Apply(Apply(Apply(s, cs[0]), cs[1]), cs[2]), cs[3]), cs[4]), cs[5]), cs[6])
  {
    var s1 := Apply(s, cs[0]);
    var s2 := Apply(s1, cs[1]);
    var s3 := Apply(s2, cs[2]);
    var s4 := Apply(s3, cs[3]);
    var s5 := Apply(s4, cs[4]);
    var s6 := Apply(s5, cs[5]);
    assert cs[0..] == cs;
    ApplyFrom(s, cs, 0);
    ApplyFrom(s1, cs, 1);
    ApplyFrom(s2, cs, 2);
    ApplyFrom(s3, cs, 3);
    ApplyFrom(s4, cs, 4);
    ApplyFrom(s5, cs, 5);
    ApplyFrom(s6, cs, 6);
    assert cs[7..] == [];
  }

  /** A MULTI ... EXEC block of seven commands whose third is EXISTS
      executes as its four writing commands. */
  lemma BlockSteps(s: Store, cs: seq<Command>)
    requires |cs| == 7 && cs[0] == Multi && cs[2].Exists? && cs[6] == Exec
    ensures ApplyAll(s, cs) == Apply(Apply(Apply(Apply(s, cs[1]), cs[3]), cs[4]), cs[5])
  {
    ApplySeven(s, cs);
  }

  /** Executing from position `i` is executing command `i`, then the rest. */
  lemma ApplyFrom(s: Store, cs: seq<Command>, i: nat)
    requires i < |cs|
    ensures ApplyAll(s, cs[i..]) == ApplyAll(Apply(s, cs[i]), cs[i + 1..])
  {
    assert cs[i..][1..] == cs[i + 1..];
  }
}
