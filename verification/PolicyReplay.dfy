/** The online replay: one cache state driven by a policy over a trace, with optional expiry. */
module PolicyReplay {
  import opened Words
  import opened KeyOrder

  datatype TraceEvent = TraceEvent(at: U64, key: Key)

  datatype PolicyKind = Lru | Lfu | Hydra | Random

  datatype EntryMeta = EntryMeta(insertedAt: U64, lastSeenAt: U64, hits: U64)

  type Entries = map<Key, EntryMeta>

  datatype Policy = Policy(
    capacity: nat,
    ttl: Option<U64>,
    kind: PolicyKind,
    entries: Entries,
    observed: map<Key, U64>,
    hits: nat)

  function Fresh(capacity: nat, ttl: Option<U64>, kind: PolicyKind): Policy {
    Policy(capacity, ttl, kind, map[], map[], 0)
  }

  // ---------------------------------------------------------------- scores

  function HydraScore(now: U64, entry: EntryMeta): U64 {
    var age := SaturatingSub(now, entry.lastSeenAt);
    var recency := SaturatingSub(32, Min(age, 32));
    var decayedFrequency := SaturatingMul(entry.hits, 8) / (1 + age / 4);
    SaturatingAdd(decayedFrequency, recency)
  }

  function CandidateScore(observed: U64): U64 {
    SaturatingAdd(SaturatingMul(observed, 4), 32)
  }

  // ---------------------------------------------------------------- victim selection

  /** What a scoring policy minimises when it picks a victim; the second component only
      matters to LFU. */
  function Rank(kind: PolicyKind, now: U64, entry: EntryMeta): (nat, nat) {
    match kind
    case Lru => (entry.lastSeenAt, 0)
    case Lfu => (entry.hits, entry.lastSeenAt)
    case Hydra => (HydraScore(now, entry), 0)
    case Random => (0, 0)
  }

  predicate RankLess(a: (nat, nat), b: (nat, nat)) {
    a.0 < b.0 || (a.0 == b.0 && a.1 < b.1)
  }

  type Ranks = map<Key, (nat, nat)>

  function RankAll(entries: Entries, kind: PolicyKind, now: U64): Ranks {
    map k | k in entries :: Rank(kind, now, entries[k])
  }

  /** A left-to-right minimum that keeps the earlier element on a tie. */
  function FirstMinimum(q: seq<Key>, ranks: Ranks): (v: Key)
    requires q != []
    requires forall k | k in q :: k in ranks
    ensures v in q
  {
    var last := q[|q| - 1];
    if |q| == 1 then last else
      var best := FirstMinimum(q[..|q| - 1], ranks);
      if RankLess(ranks[last], ranks[best]) then last else best
  }

  /** The strict total order in which a scoring policy gives up its entries. */
  predicate GoesBefore(ranks: Ranks, a: Key, b: Key)
    requires a in ranks && b in ranks
  {
    RankLess(ranks[a], ranks[b]) || (ranks[a] == ranks[b] && Less(a, b))
  }

  lemma {:induction false} FirstMinimumIsLeast(q: seq<Key>, ranks: Ranks)
    requires q != [] && Ascending(q)
    requires forall k | k in q :: k in ranks
    ensures var v := FirstMinimum(q, ranks);
            forall k | k in q && k != v :: GoesBefore(ranks, v, k)
  {
    hide Less;
    if |q| > 1 {
      var front := q[..|q| - 1];
      var last := q[|q| - 1];
      assert forall k | k in q :: k in front || k == last;
      FirstMinimumIsLeast(front, ranks);
      var best := FirstMinimum(front, ranks);
      assert best in front;
      var i :| 0 <= i < |front| && front[i] == best;
      assert Less(q[i], q[|q| - 1]);
    }
  }

  /** FNV-style hash of the access that asks for a victim. */
  function StableHash(at: U64, key: Key): U64
  {
    if key == [] then XorWord(at, 0x9e37_79b9_7f4a_7c15) else
      var before := StableHash(at, key[..|key| - 1]);
      WrappingMul(XorWord(before, key[|key| - 1]), 0x100_0000_01b3)
  }

  function StableIndex(at: U64, key: Key, len: nat): (i: nat)
    ensures len > 0 ==> i < len
  {
    StableHash(at, key) % Max(len, 1)
  }

  function Victim(kind: PolicyKind, entries: Entries, event: TraceEvent): (v: Key)
    requires entries != map[]
    ensures v in entries
  {
    var q := SortedKeys(entries.Keys);
    SortedKeysSpec(entries.Keys);
    assert |entries.Keys| > 0;
    if kind == Random then
      q[StableIndex(event.at, event.key, |entries.Keys|)]
    else
      FirstMinimum(q, RankAll(entries, kind, event.at))
  }

  /** A scoring policy evicts the unique least entry of its order. */
  lemma VictimIsLeast(kind: PolicyKind, entries: Entries, event: TraceEvent)
    requires entries != map[] && kind != Random
    ensures var v := Victim(kind, entries, event);
            var ranks := RankAll(entries, kind, event.at);
            forall k | k in entries && k != v :: GoesBefore(ranks, v, k)
  {
    SortedKeysSpec(entries.Keys);
    FirstMinimumIsLeast(SortedKeys(entries.Keys), RankAll(entries, kind, event.at));
  }

  // ---------------------------------------------------------------- one access

  function ObservedAfter(observed: map<Key, U64>, key: Key): U64 {
    if key in observed then SaturatingAdd(observed[key], 1) else 1
  }

  function Expire(entries: Entries, ttl: Option<U64>, now: U64): Entries {
    match ttl
    case None => entries
    case Some(limit) =>
      map k | k in entries && SaturatingSub(now, entries[k].insertedAt) <= limit :: entries[k]
  }

  /** Whether a miss on a full cache leaves the cache as it is. */
  predicate Refuses(kind: PolicyKind, entries: Entries, event: TraceEvent, observed: U64)
    requires entries != map[]
  {
    kind == Hydra &&
    CandidateScore(observed) <= HydraScore(event.at, entries[Victim(kind, entries, event)])
  }

  /** The entries after a miss on `event`, given the entries that survived expiry. */
  function EntriesAfterMiss(capacity: nat, kind: PolicyKind, live: Entries, event: TraceEvent, observed: U64): Entries
  {
    var inserted := EntryMeta(event.at, event.at, 1);
    if capacity == 0 then live
    else if |live| < capacity then live[event.key := inserted]
    else if Refuses(kind, live, event, observed) then live
    else (live - {Victim(kind, live, event)})[event.key := inserted]
  }

  function Touch(entry: EntryMeta, now: U64): EntryMeta {
    EntryMeta(entry.insertedAt, now, SaturatingAdd(entry.hits, 1))
  }

  function Access(p: Policy, event: TraceEvent): Policy {
    var observed := ObservedAfter(p.observed, event.key);
    var live := Expire(p.entries, p.ttl, event.at);
    if event.key in live then
      p.(entries := live[event.key := Touch(live[event.key], event.at)],
         observed := p.observed[event.key := observed],
         hits := p.hits + 1)
    else
      p.(entries := EntriesAfterMiss(p.capacity, p.kind, live, event, observed),
         observed := p.observed[event.key := observed])
  }

  /** The policy state after the first `n` events of a trace. */
  function Replay(trace: seq<TraceEvent>, n: nat, capacity: nat, ttl: Option<U64>, kind: PolicyKind): (p: Policy)
    requires n <= |trace|
    ensures p.capacity == capacity && p.ttl == ttl && p.kind == kind
    ensures p.hits <= n
  {
    if n == 0 then Fresh(capacity, ttl, kind)
    else Access(Replay(trace, n - 1, capacity, ttl, kind), trace[n - 1])
  }

  // ---------------------------------------------------------------- the replay as the program runs it

  method HashKey(at: U64, key: Key, len: nat) returns (index: nat)
    ensures index == StableIndex(at, key, len)
  {
    var hash := XorWord(at, 0x9e37_79b9_7f4a_7c15);
    for i := 0 to |key|
      invariant hash == StableHash(at, key[..i])
    {
      assert key[..i + 1][..i] == key[..i];
      hash := WrappingMul(XorWord(hash, key[i]), 0x100_0000_01b3);
    }
    assert key[..|key|] == key;
    index := hash % Max(len, 1);
  }

  class PolicyState {
    const capacity: nat
    const ttlTicks: Option<U64>
    const kind: PolicyKind
    var entries: Entries
    var observedCounts: map<Key, U64>
    var hits: nat

    function Value(): Policy
      reads this
    {
      Policy(capacity, ttlTicks, kind, entries, observedCounts, hits)
    }

    constructor (capacity: nat, ttlTicks: Option<U64>, kind: PolicyKind)
      ensures Value() == Fresh(capacity, ttlTicks, kind)
    {
      this.capacity, this.ttlTicks, this.kind := capacity, ttlTicks, kind;
      entries, observedCounts, hits := map[], map[], 0;
    }

    method ExpireEntries(now: U64)
      modifies this`entries
      ensures entries == Expire(old(entries), ttlTicks, now)
    {
      if ttlTicks.Some? {
        var limit := ttlTicks.value;
        entries := map k | k in entries && SaturatingSub(now, entries[k].insertedAt) <= limit :: entries[k];
      }
    }

    method SelectVictim(event: TraceEvent) returns (v: Key)
      requires entries != map[]
      ensures v == Victim(kind, entries, event)
      ensures v in entries
    {
      SortedKeysSpec(entries.Keys);
      assert |entries.Keys| > 0;
      if kind == Random {
        var index := HashKey(event.at, event.key, |entries.Keys|);
        var q := SortedKeys(entries.Keys);
        v := q[index];
      } else {
        v := FirstMinimum(SortedKeys(entries.Keys), RankAll(entries, kind, event.at));
      }
    }

    method AccessEvent(event: TraceEvent)
      modifies this`entries, this`observedCounts, this`hits
      ensures Value() == Access(old(Value()), event)
    {
      var observed := ObservedAfter(observedCounts, event.key);
      observedCounts := observedCounts[event.key := observed];
      ExpireEntries(event.at);
      if event.key in entries {
        hits := hits + 1;
        entries := entries[event.key := Touch(entries[event.key], event.at)];
        return;
      }
      if capacity == 0 {
        return;
      }
      if |entries| >= capacity {
        var victim := SelectVictim(event);
        if kind == Hydra {
          if CandidateScore(observed) <= HydraScore(event.at, entries[victim]) {
            return;
          }
        }
        entries := entries - {victim};
      }
      entries := entries[event.key := EntryMeta(event.at, event.at, 1)];
    }
  }

  lemma ReplayStep(trace: seq<TraceEvent>, n: nat, p: Policy)
    requires n < |trace| && p == Replay(trace, n, p.capacity, p.ttl, p.kind)
    ensures Replay(trace, n + 1, p.capacity, p.ttl, p.kind) == Access(p, trace[n])
  {
  }
}
