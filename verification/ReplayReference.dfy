/** The online replay read off the trace alone. The reference keeps nothing but which access took
    in each resident key; age, last use and number of uses are looked up in the trace. The
    program's incremental bookkeeping is proved to agree with it. */
module ReplayReference {
  import opened Words
  import opened KeyOrder
  import opened PolicyReplay
  import opened Belady
  import opened OnlineBounds
  import opened HydraAdmission
  import Optimality

  /** For each resident key, the index of the access that took it in. */
  type Residents = map<Key, nat>

  // ---------------------------------------------------------------- what the trace says of a key

  /** The accesses to `key` with indices in `[from, n)`. */
  ghost function Uses(trace: Trace, from: nat, n: nat, key: Key): set<nat>
    requires n <= |trace|
  {
    set i: nat | from <= i < n && trace[i].key == key
  }

  ghost predicate TakenIn(trace: Trace, n: nat, key: Key, j: nat) {
    j < n <= |trace| && trace[j].key == key
  }

  /** The last access to `key` before index `n`, where access `j` is one. */
  ghost function LastUse(trace: Trace, n: nat, key: Key, j: nat): (i: nat)
    requires TakenIn(trace, n, key, j)
    ensures j <= i < n && trace[i].key == key
    ensures forall l | i < l < n :: trace[l].key != key
  {
    if trace[n - 1].key == key then n - 1 else LastUse(trace, n - 1, key, j)
  }

  /** Whether what access `j` took in is still alive at access `n`. */
  ghost predicate Alive(trace: Trace, ttl: Option<U64>, j: nat, n: nat)
    requires j < |trace| && n < |trace|
  {
    ttl.Some? ==> trace[n].at <= trace[j].at + ttl.value
  }

  ghost predicate Valid(trace: Trace, n: nat, residents: Residents) {
    n <= |trace| && forall k | k in residents :: TakenIn(trace, n, k, residents[k])
  }

  ghost function Survivors(trace: Trace, ttl: Option<U64>, n: nat, residents: Residents): (live: Residents)
    requires n < |trace| && Valid(trace, n, residents)
  {
    map k | k in residents && Alive(trace, ttl, residents[k], n) :: residents[k]
  }

  // ---------------------------------------------------------------- who leaves

  /** Hydra's worth of a key: eight per use, decayed by a quarter of the age, plus up to 32 for
      recency, cut off at the largest word. */
  ghost function WorthOf(uses: nat, age: nat): (worth: nat)
    ensures worth <= U64_MAX
  {
    Min(Min(8 * uses, U64_MAX) / (1 + age / 4) + (if age < 32 then 32 - age else 0), U64_MAX)
  }

  /** That worth of a resident key at access `n`. */
  ghost function Worth(trace: Trace, n: nat, key: Key, j: nat): nat
    requires n < |trace| && TakenIn(trace, n, key, j)
  {
    var seen := trace[LastUse(trace, n, key, j)].at;
    WorthOf(|Uses(trace, j, n, key)|, if trace[n].at <= seen then 0 else trace[n].at - seen)
  }

  /** Hydra's worth of the key that access `n` asks for: four per access so far, plus 32. */
  ghost function CandidateWorth(trace: Trace, n: nat): nat
    requires n < |trace|
  {
    Min(4 * |Uses(trace, 0, n + 1, trace[n].key)| + 32, U64_MAX)
  }

  /** LRU gives up the key whose last use is oldest, LFU the least used and among those the one
      whose last use is oldest, Hydra the least worthy; the smaller key goes on a tie. */
  ghost predicate GoesFirst(kind: PolicyKind, trace: Trace, n: nat, residents: Residents, a: Key, b: Key)
    requires n < |trace| && Valid(trace, n, residents) && a in residents && b in residents
  {
    var lastA := trace[LastUse(trace, n, a, residents[a])].at;
    var lastB := trace[LastUse(trace, n, b, residents[b])].at;
    var usesA := Min(|Uses(trace, residents[a], n, a)|, U64_MAX);
    var usesB := Min(|Uses(trace, residents[b], n, b)|, U64_MAX);
    var worthA, worthB := Worth(trace, n, a, residents[a]), Worth(trace, n, b, residents[b]);
    match kind
    case Lru => lastA < lastB || (lastA == lastB && Less(a, b))
    case Lfu => usesA < usesB || (usesA == usesB && (lastA < lastB || (lastA == lastB && Less(a, b))))
    case Hydra => worthA < worthB || (worthA == worthB && Less(a, b))
    case Random => true
  }

  ghost function Below(keys: set<Key>, v: Key): set<Key> {
    set k | k in keys && Less(k, v)
  }

  /** `v` is who leaves: the first in the policy's order, or for the random policy the key with as
      many smaller ones as the hash of the access says. */
  ghost predicate Leaves(kind: PolicyKind, trace: Trace, n: nat, live: Residents, v: Key)
    requires n < |trace| && Valid(trace, n, live)
  {
    v in live &&
    if kind == Random then
      |Below(live.Keys, v)| == StableIndex(trace[n].at, trace[n].key, |live|)
    else
      forall k | k in live && k != v :: GoesFirst(kind, trace, n, live, v, k)
  }

  // ---------------------------------------------------------------- the reference run

  ghost predicate ReferenceHit(trace: Trace, ttl: Option<U64>, n: nat, residents: Residents)
    requires n < |trace| && Valid(trace, n, residents)
  {
    trace[n].key in residents && Alive(trace, ttl, residents[trace[n].key], n)
  }

  ghost predicate ReferenceStep(trace: Trace, capacity: nat, ttl: Option<U64>, kind: PolicyKind, n: nat,
                                residents: Residents, next: Residents)
    requires n < |trace| && Valid(trace, n, residents)
  {
    var key, live := trace[n].key, Survivors(trace, ttl, n, residents);
    if ReferenceHit(trace, ttl, n, residents) || capacity == 0 then next == live
    else if |live| < capacity then next == live[key := n]
    else exists v ::
      Leaves(kind, trace, n, live, v) &&
      next == if kind == Hydra && CandidateWorth(trace, n) <= Worth(trace, n, v, live[v]) then live
              else (live - {v})[key := n]
  }

  ghost predicate ReferenceRun(trace: Trace, capacity: nat, ttl: Option<U64>, kind: PolicyKind, n: nat,
                               run: seq<Residents>)
  {
    n <= |trace| && |run| == n + 1 && run[0] == map[] &&
    (forall i | 0 <= i <= n :: Valid(trace, i, run[i])) &&
    forall i | 0 <= i < n :: ReferenceStep(trace, capacity, ttl, kind, i, run[i], run[i + 1])
  }

  /** The accesses of the trace that hit. */
  ghost function HitIndices(trace: Trace, ttl: Option<U64>, n: nat, run: seq<Residents>): set<nat>
    requires n <= |trace| && |run| == n + 1 && forall i | 0 <= i <= n :: Valid(trace, i, run[i])
  {
    set i: nat | i < n && ReferenceHit(trace, ttl, i, run[i])
  }

  // ---------------------------------------------------------------- the bookkeeping of one entry

  ghost predicate Describes(trace: Trace, n: nat, key: Key, j: nat, entry: EntryMeta) {
    TakenIn(trace, n, key, j) &&
    entry.insertedAt == trace[j].at &&
    entry.lastSeenAt == trace[LastUse(trace, n, key, j)].at &&
    entry.hits == Min(|Uses(trace, j, n, key)|, U64_MAX)
  }

  ghost predicate DescribesAll(trace: Trace, n: nat, residents: Residents, entries: Entries) {
    residents.Keys == entries.Keys &&
    forall k | k in entries :: k in residents && Describes(trace, n, k, residents[k], entries[k])
  }

  lemma UsesStep(trace: Trace, from: nat, n: nat, key: Key)
    requires from <= n < |trace|
    ensures |Uses(trace, from, n + 1, key)| ==
            |Uses(trace, from, n, key)| + if trace[n].key == key then 1 else 0
  {
    var before := Uses(trace, from, n, key);
    assert Uses(trace, from, n + 1, key) == if trace[n].key == key then before + {n} else before;
  }

  lemma OtherEntryStays(trace: Trace, n: nat, key: Key, j: nat, entry: EntryMeta)
    requires n < |trace| && Describes(trace, n, key, j, entry) && trace[n].key != key
    ensures Describes(trace, n + 1, key, j, entry)
  {
    UsesStep(trace, j, n, key);
  }

  lemma TouchedEntry(trace: Trace, n: nat, key: Key, j: nat, entry: EntryMeta)
    requires n < |trace| && Describes(trace, n, key, j, entry) && trace[n].key == key
    ensures Describes(trace, n + 1, key, j, Touch(entry, trace[n].at))
  {
    UsesStep(trace, j, n, key);
  }

  lemma NewEntry(trace: Trace, n: nat)
    requires n < |trace|
    ensures Describes(trace, n + 1, trace[n].key, n, EntryMeta(trace[n].at, trace[n].at, 1))
  {
    UsesStep(trace, n, n, trace[n].key);
    assert Uses(trace, n, n, trace[n].key) == {};
  }

  lemma OthersStay(trace: Trace, n: nat, residents: Residents, entries: Entries)
    requires n < |trace| && DescribesAll(trace, n, residents, entries) && trace[n].key !in entries
    ensures DescribesAll(trace, n + 1, residents, entries)
  {
    forall k | k in entries ensures Describes(trace, n + 1, k, residents[k], entries[k]) {
      OtherEntryStays(trace, n, k, residents[k], entries[k]);
    }
  }

  lemma Inserted(trace: Trace, n: nat, residents: Residents, entries: Entries)
    requires n < |trace| && DescribesAll(trace, n, residents, entries) && trace[n].key !in entries
    ensures DescribesAll(trace, n + 1, residents[trace[n].key := n],
                         entries[trace[n].key := EntryMeta(trace[n].at, trace[n].at, 1)])
  {
    OthersStay(trace, n, residents, entries);
    NewEntry(trace, n);
  }

  // ---------------------------------------------------------------- expiry and victims agree

  lemma SurvivorsAgree(trace: Trace, ttl: Option<U64>, n: nat, residents: Residents, entries: Entries)
    requires n < |trace| && DescribesAll(trace, n, residents, entries)
    ensures Valid(trace, n, residents)
    ensures DescribesAll(trace, n, Survivors(trace, ttl, n, residents), Expire(entries, ttl, trace[n].at))
  {
    DescribedIsValid(trace, n, residents, entries);
    forall k | k in entries
      ensures Alive(trace, ttl, residents[k], n) <==> k in Expire(entries, ttl, trace[n].at)
    {
      assert Describes(trace, n, k, residents[k], entries[k]);
    }
    hide Describes, Alive;
  }

  lemma ScoreIsWorth(trace: Trace, n: nat, key: Key, j: nat, entry: EntryMeta)
    requires n < |trace| && Describes(trace, n, key, j, entry)
    ensures HydraScore(trace[n].at, entry) == Worth(trace, n, key, j)
  {
    assert SaturatingMul(entry.hits, 8) == Min(8 * |Uses(trace, j, n, key)|, U64_MAX);
  }

  lemma {:induction false} OccurrencesAreUses(trace: Trace, n: nat, key: Key)
    requires n <= |trace|
    ensures Occurrences(trace, n, key) == |Uses(trace, 0, n, key)|
  {
    if n > 0 {
      OccurrencesAreUses(trace, n - 1, key);
      UsesStep(trace, 0, n - 1, key);
    } else {
      assert Uses(trace, 0, 0, key) == {};
    }
  }

  lemma CandidateAgrees(trace: Trace, n: nat, capacity: nat, ttl: Option<U64>, kind: PolicyKind)
    requires n < |trace|
    ensures CandidateScore(ObservedAfter(Replay(trace, n, capacity, ttl, kind).observed, trace[n].key))
            == CandidateWorth(trace, n)
  {
    CountOnAccess(trace, n, capacity, ttl, kind);
    OccurrencesAreUses(trace, n + 1, trace[n].key);
  }

  lemma RanksOrder(kind: PolicyKind, trace: Trace, n: nat, residents: Residents, entries: Entries, a: Key, b: Key)
    requires n < |trace| && DescribesAll(trace, n, residents, entries) && a in entries && b in entries
    requires kind != Random && GoesBefore(RankAll(entries, kind, trace[n].at), a, b)
    ensures Valid(trace, n, residents) && GoesFirst(kind, trace, n, residents, a, b)
  {
    hide Less, HydraScore, Worth;
    assert forall k | k in residents :: Describes(trace, n, k, residents[k], entries[k]);
    ScoreIsWorth(trace, n, a, residents[a], entries[a]);
    ScoreIsWorth(trace, n, b, residents[b], entries[b]);
  }

  /** In ascending order, an element has as many smaller ones as its index says. */
  lemma IndexIsRank(keys: set<Key>, i: nat)
    requires i < |keys|
    ensures |SortedKeys(keys)| == |keys|
    ensures |Below(keys, SortedKeys(keys)[i])| == i
  {
    var q := SortedKeys(keys);
    SortedKeysSpec(keys);
    forall k ensures k in Below(keys, q[i]) <==> k in q[..i] {
      if k in q[..i] {
        var l :| 0 <= l < i && q[l] == k;
        assert Less(q[l], q[i]);
      }
      if k in Below(keys, q[i]) {
        var l :| 0 <= l < |q| && q[l] == k;
        Trichotomy(k, q[i]);
        assert l > i ==> Less(q[i], q[l]);
      }
    }
    PrefixSize(q, i, Below(keys, q[i]));
  }

  lemma {:induction false} PrefixSize(q: seq<Key>, n: nat, front: set<Key>)
    requires Ascending(q) && n <= |q| && forall k :: k in front <==> k in q[..n]
    ensures |front| == n
  {
    if n == 0 {
      assert front == {};
    } else {
      var last := q[n - 1];
      assert q[..n] == q[..n - 1] + [last];
      Trichotomy(last, last);
      assert forall i | 0 <= i < n - 1 :: Less(q[i], q[n - 1]);
      PrefixSize(q, n - 1, front - {last});
    }
  }

  lemma VictimLeaves(kind: PolicyKind, trace: Trace, n: nat, residents: Residents, entries: Entries)
    requires n < |trace| && DescribesAll(trace, n, residents, entries) && entries != map[]
    ensures Valid(trace, n, residents) && Leaves(kind, trace, n, residents, Victim(kind, entries, trace[n]))
  {
    hide Less, GoesFirst, Describes, Below, StableIndex, GoesBefore;
    var v := Victim(kind, entries, trace[n]);
    assert Valid(trace, n, residents) by { DescribedIsValid(trace, n, residents, entries); }
    if kind == Random {
      assert |entries.Keys| > 0 && residents.Keys == entries.Keys;
      SortedKeysSpec(entries.Keys);
      IndexIsRank(entries.Keys, StableIndex(trace[n].at, trace[n].key, |entries.Keys|));
    } else {
      VictimIsLeast(kind, entries, trace[n]);
      forall k | k in residents && k != v ensures GoesFirst(kind, trace, n, residents, v, k) {
        RanksOrder(kind, trace, n, residents, entries, v, k);
      }
    }
  }

  lemma DescribedIsValid(trace: Trace, n: nat, residents: Residents, entries: Entries)
    requires n <= |trace| && DescribesAll(trace, n, residents, entries)
    ensures Valid(trace, n, residents)
  {
    assert forall k | k in residents :: Describes(trace, n, k, residents[k], entries[k]);
  }

  // ---------------------------------------------------------------- the replay is the reference run

  /** A miss changes the entries as the reference says. */
  lemma MissAgrees(trace: Trace, capacity: nat, ttl: Option<U64>, kind: PolicyKind, n: nat, residents: Residents)
    returns (next: Residents)
    requires n < |trace|
    requires var p := Replay(trace, n, capacity, ttl, kind);
             DescribesAll(trace, n, residents, p.entries) && trace[n].key !in Expire(p.entries, ttl, trace[n].at)
    ensures Valid(trace, n, residents) && ReferenceStep(trace, capacity, ttl, kind, n, residents, next)
    ensures !ReferenceHit(trace, ttl, n, residents)
    ensures DescribesAll(trace, n + 1, next, Replay(trace, n + 1, capacity, ttl, kind).entries)
  {
    hide Describes, Worth, Leaves, Alive, CandidateScore, CandidateWorth, Victim, ObservedAfter;
    var p, event := Replay(trace, n, capacity, ttl, kind), trace[n];
    var entries := Expire(p.entries, ttl, event.at);
    SurvivorsAgree(trace, ttl, n, residents, p.entries);
    var live := Survivors(trace, ttl, n, residents);
    assert |live| == |live.Keys| == |entries.Keys| == |entries|;
    if capacity == 0 {
      next := live;
      OthersStay(trace, n, live, entries);
    } else if |entries| < capacity {
      next := live[event.key := n];
      Inserted(trace, n, live, entries);
    } else {
      next := Replaced(trace, capacity, ttl, kind, n, live, entries);
    }
  }

  lemma Replaced(trace: Trace, capacity: nat, ttl: Option<U64>, kind: PolicyKind, n: nat, live: Residents, entries: Entries)
    returns (next: Residents)
    requires n < |trace| && DescribesAll(trace, n, live, entries) && trace[n].key !in entries
    requires |entries| >= capacity > 0
    ensures var observed := ObservedAfter(Replay(trace, n, capacity, ttl, kind).observed, trace[n].key);
            DescribesAll(trace, n + 1, next, EntriesAfterMiss(capacity, kind, entries, trace[n], observed))
    ensures Valid(trace, n, live) && exists v ::
              Leaves(kind, trace, n, live, v) &&
              next == if kind == Hydra && CandidateWorth(trace, n) <= Worth(trace, n, v, live[v]) then live
                      else (live - {v})[trace[n].key := n]
  {
    hide Less, Describes, GoesFirst, Worth, HydraScore, Leaves, CandidateScore, CandidateWorth;
    var event := trace[n];
    var v := Victim(kind, entries, event);
    VictimLeaves(kind, trace, n, live, entries);
    CandidateAgrees(trace, n, capacity, ttl, kind);
    ScoreIsWorth(trace, n, v, live[v], entries[v]);
    if kind == Hydra && CandidateWorth(trace, n) <= Worth(trace, n, v, live[v]) {
      next := live;
      OthersStay(trace, n, live, entries);
    } else {
      next := (live - {v})[event.key := n];
      Inserted(trace, n, live - {v}, entries - {v});
    }
  }

  lemma HitAgrees(trace: Trace, capacity: nat, ttl: Option<U64>, kind: PolicyKind, n: nat, residents: Residents)
    returns (next: Residents)
    requires n < |trace|
    requires var p := Replay(trace, n, capacity, ttl, kind);
             DescribesAll(trace, n, residents, p.entries) && trace[n].key in Expire(p.entries, ttl, trace[n].at)
    ensures Valid(trace, n, residents) && ReferenceStep(trace, capacity, ttl, kind, n, residents, next)
    ensures ReferenceHit(trace, ttl, n, residents)
    ensures DescribesAll(trace, n + 1, next, Replay(trace, n + 1, capacity, ttl, kind).entries)
  {
    hide Describes, Alive;
    var p, event := Replay(trace, n, capacity, ttl, kind), trace[n];
    var entries := Expire(p.entries, ttl, event.at);
    SurvivorsAgree(trace, ttl, n, residents, p.entries);
    next := Survivors(trace, ttl, n, residents);
    forall k | k in entries
      ensures Describes(trace, n + 1, k, next[k], if k == event.key then Touch(entries[k], event.at) else entries[k])
    {
      if k == event.key {
        TouchedEntry(trace, n, k, next[k], entries[k]);
      } else {
        OtherEntryStays(trace, n, k, next[k], entries[k]);
      }
    }
  }

  lemma StepAgrees(trace: Trace, capacity: nat, ttl: Option<U64>, kind: PolicyKind, n: nat, residents: Residents)
    returns (next: Residents)
    requires n < |trace|
    requires DescribesAll(trace, n, residents, Replay(trace, n, capacity, ttl, kind).entries)
    ensures Valid(trace, n, residents) && ReferenceStep(trace, capacity, ttl, kind, n, residents, next)
    ensures Valid(trace, n + 1, next)
    ensures DescribesAll(trace, n + 1, next, Replay(trace, n + 1, capacity, ttl, kind).entries)
    ensures Replay(trace, n + 1, capacity, ttl, kind).hits ==
            Replay(trace, n, capacity, ttl, kind).hits + if ReferenceHit(trace, ttl, n, residents) then 1 else 0
  {
    hide ReferenceStep, DescribesAll, ReferenceHit, Valid;
    ReplayHits(trace, n, capacity, ttl, kind);
    if trace[n].key in Expire(Replay(trace, n, capacity, ttl, kind).entries, ttl, trace[n].at) {
      next := HitAgrees(trace, capacity, ttl, kind, n, residents);
    } else {
      next := MissAgrees(trace, capacity, ttl, kind, n, residents);
    }
    DescribedIsValid(trace, n + 1, next, Replay(trace, n + 1, capacity, ttl, kind).entries);
  }

  lemma HitIndicesGrow(trace: Trace, ttl: Option<U64>, n: nat, run: seq<Residents>, next: Residents)
    requires n < |trace| && |run| == n + 1 && Valid(trace, n + 1, next)
    requires forall i | 0 <= i <= n :: Valid(trace, i, run[i])
    ensures |HitIndices(trace, ttl, n + 1, run + [next])| ==
            |HitIndices(trace, ttl, n, run)| + if ReferenceHit(trace, ttl, n, run[n]) then 1 else 0
  {
    hide ReferenceHit, Valid;
    var now := run + [next];
    assert forall i | 0 <= i <= n :: now[i] == run[i];
    var before := HitIndices(trace, ttl, n, run);
    assert HitIndices(trace, ttl, n + 1, now) ==
           if ReferenceHit(trace, ttl, n, run[n]) then before + {n} else before;
  }

  /** Every replay is a run of the reference: after every prefix of every trace, an entry says when
      its key was taken in, when it was last asked for and how often since it was taken in, and the
      hits are the accesses whose key was taken in earlier, kept since, and has not outlived its time. */
  lemma ReplayIsReference(trace: Trace, capacity: nat, ttl: Option<U64>, kind: PolicyKind, n: nat)
    returns (run: seq<Residents>)
    requires n <= |trace|
    ensures ReferenceRun(trace, capacity, ttl, kind, n, run)
    ensures DescribesAll(trace, n, run[n], Replay(trace, n, capacity, ttl, kind).entries)
    ensures Replay(trace, n, capacity, ttl, kind).hits == |HitIndices(trace, ttl, n, run)|
  {
    hide ReferenceStep, DescribesAll, Valid, HitIndices, Access;
    run := [map[]];
    assert DescribesAll(trace, 0, map[], map[]) && Valid(trace, 0, map[]) by { NothingYet(trace); }
    NoHitsYet(trace, ttl, run);
    for i := 0 to n
      invariant ReferenceRun(trace, capacity, ttl, kind, i, run)
      invariant DescribesAll(trace, i, run[i], Replay(trace, i, capacity, ttl, kind).entries)
      invariant Replay(trace, i, capacity, ttl, kind).hits == |HitIndices(trace, ttl, i, run)|
    {
      var next := StepAgrees(trace, capacity, ttl, kind, i, run[i]);
      HitIndicesGrow(trace, ttl, i, run, next);
      run := run + [next];
    }
  }

  lemma NoHitsYet(trace: Trace, ttl: Option<U64>, run: seq<Residents>)
    requires |run| == 1 && Valid(trace, 0, run[0])
    ensures |HitIndices(trace, ttl, 0, run)| == 0
  {
    assert HitIndices(trace, ttl, 0, run) == {};
  }

  lemma NothingYet(trace: Trace)
    ensures DescribesAll(trace, 0, map[], map[]) && Valid(trace, 0, map[])
  {
  }

  // ---------------------------------------------------------------- the reference is determined

  lemma GoesFirstIsStrict(kind: PolicyKind, trace: Trace, n: nat, live: Residents, a: Key, b: Key)
    requires n < |trace| && Valid(trace, n, live) && a in live && b in live && kind != Random
    ensures !(GoesFirst(kind, trace, n, live, a, b) && GoesFirst(kind, trace, n, live, b, a))
  {
    Trichotomy(a, b);
  }

  lemma LeaverIsUnique(kind: PolicyKind, trace: Trace, n: nat, live: Residents, a: Key, b: Key)
    requires n < |trace| && Valid(trace, n, live)
    requires Leaves(kind, trace, n, live, a) && Leaves(kind, trace, n, live, b)
    ensures a == b
  {
    hide GoesFirst;
    if a != b {
      if kind == Random {
        RankIsInjective(live.Keys, a, b);
      } else {
        GoesFirstIsStrict(kind, trace, n, live, a, b);
      }
    }
  }

  lemma RankIsInjective(keys: set<Key>, a: Key, b: Key)
    requires a in keys && b in keys && a != b
    ensures |Below(keys, a)| != |Below(keys, b)|
  {
    Trichotomy(a, b);
    if Less(a, b) {
      RankGrows(keys, a, b);
    } else {
      RankGrows(keys, b, a);
    }
  }

  lemma RankGrows(keys: set<Key>, a: Key, b: Key)
    requires a in keys && b in keys && Less(a, b)
    ensures |Below(keys, a)| < |Below(keys, b)|
  {
    var below, more := Below(keys, a), Below(keys, b);
    forall k | k in below ensures k in more { Transitive(k, a, b); }
    Trichotomy(a, a);
    assert a !in below && a in more;
    Optimality.SubsetSize(below + {a}, more);
  }

  lemma StepIsDetermined(trace: Trace, capacity: nat, ttl: Option<U64>, kind: PolicyKind, n: nat,
                         residents: Residents, a: Residents, b: Residents)
    requires n < |trace| && Valid(trace, n, residents)
    requires ReferenceStep(trace, capacity, ttl, kind, n, residents, a)
    requires ReferenceStep(trace, capacity, ttl, kind, n, residents, b)
    ensures a == b
  {
    hide Leaves, Worth, CandidateWorth, Alive;
    var live := Survivors(trace, ttl, n, residents);
    if !ReferenceHit(trace, ttl, n, residents) && 0 < capacity <= |live| {
      forall v, w | Leaves(kind, trace, n, live, v) && Leaves(kind, trace, n, live, w) ensures v == w {
        LeaverIsUnique(kind, trace, n, live, v, w);
      }
    }
  }

  /** A trace has one reference run, so the program's replay is the only one there is. */
  lemma ReferenceIsUnique(trace: Trace, capacity: nat, ttl: Option<U64>, kind: PolicyKind, n: nat,
                          a: seq<Residents>, b: seq<Residents>)
    requires ReferenceRun(trace, capacity, ttl, kind, n, a) && ReferenceRun(trace, capacity, ttl, kind, n, b)
    ensures a == b
  {
    hide ReferenceStep;
    for i := 0 to n
      invariant forall j | 0 <= j <= i :: a[j] == b[j]
    {
      StepIsDetermined(trace, capacity, ttl, kind, i, a[i], a[i + 1], b[i + 1]);
    }
  }
}
