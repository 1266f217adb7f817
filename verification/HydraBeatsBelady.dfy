/** At equal capacity Hydra can beat Belady's replay, because it may refuse a key that Belady
    must take in. It does so at every capacity but zero. */
module HydraBeatsBelady {
  import opened Words
  import opened KeyOrder
  import opened PolicyReplay
  import opened Belady
  import opened OnlineBounds
  import opened HydraAdmission
  import Optimality

  function NthKey(i: nat): (key: Key)
    ensures |key| == i
  {
    seq(i, _ => 0)
  }

  ghost function FirstKeys(n: nat): set<Key> {
    set i: nat | i < n :: NthKey(i)
  }

  lemma {:induction false} FirstKeysSize(n: nat)
    ensures |FirstKeys(n)| == n && NthKey(n) !in FirstKeys(n)
    ensures FirstKeys(n + 1) == FirstKeys(n) + {NthKey(n)}
  {
    if n > 0 {
      FirstKeysSize(n - 1);
    }
  }

  /** The keys 0 to k, then 0 to k - 1 again. */
  function LoopKey(k: nat, i: nat): Key {
    NthKey(if i <= k then i else i - k - 1)
  }

  /** All accesses happen at time zero, so that nothing ages or expires. */
  function LoopTrace(k: nat): (trace: Trace)
    ensures |trace| == 2 * k + 1
    ensures forall i | 0 <= i < |trace| :: trace[i] == TraceEvent(0, LoopKey(k, i))
  {
    seq(2 * k + 1, i requires 0 <= i => TraceEvent(0, LoopKey(k, i)))
  }

  // ---------------------------------------------------------------- any cache on this trace

  datatype Snapshot = Snapshot(cache: set<Key>, hits: nat)

  /** What Belady and Hydra have in common on an access at time zero. */
  ghost predicate LazyStep(k: nat, a: Snapshot, key: Key, b: Snapshot) {
    (key in a.cache ==> b == Snapshot(a.cache, a.hits + 1)) &&
    (key !in a.cache ==> b.hits == a.hits) &&
    (key !in a.cache && |a.cache| < k ==> b.cache == a.cache + {key}) &&
    |b.cache| <= k
  }

  ghost predicate LazyRun(k: nat, s: seq<Snapshot>) {
    |s| == 2 * k + 2 && s[0] == Snapshot({}, 0) &&
    forall n | 0 <= n < 2 * k + 1 :: LazyStep(k, s[n], LoopKey(k, n), s[n + 1])
  }

  lemma Fills(k: nat, s: seq<Snapshot>, n: nat)
    requires LazyRun(k, s) && n <= k
    ensures s[n] == Snapshot(FirstKeys(n), 0)
  {
    for i := 0 to n
      invariant s[i] == Snapshot(FirstKeys(i), 0)
    {
      FirstKeysSize(i);
      assert LazyStep(k, s[i], LoopKey(k, i), s[i + 1]);
    }
  }

  /** The second round hits every key if the cache was left alone ... */
  lemma LoopHitsAll(k: nat, s: seq<Snapshot>)
    requires LazyRun(k, s) && s[k + 1].cache == FirstKeys(k)
    ensures s[2 * k + 1].hits == k
  {
    Fills(k, s, k);
    FirstKeysSize(k);
    assert LazyStep(k, s[k], LoopKey(k, k), s[k + 1]);
    for j := 0 to k
      invariant s[k + 1 + j] == Snapshot(FirstKeys(k), j)
    {
      assert NthKey(j) in FirstKeys(k);
      assert LazyStep(k, s[k + 1 + j], LoopKey(k, k + 1 + j), s[k + 2 + j]);
    }
  }

  /** ... and misses one of them if key k was taken in. */
  lemma LoopMissesOne(k: nat, s: seq<Snapshot>)
    requires LazyRun(k, s) && NthKey(k) in s[k + 1].cache
    ensures s[2 * k + 1].hits < k
  {
    var full := s[k + 1].cache;
    Fills(k, s, k);
    FirstKeysSize(k);
    assert LazyStep(k, s[k], LoopKey(k, k), s[k + 1]);
    for j := 0 to k
      invariant s[k + 1 + j].hits <= j
      invariant s[k + 1 + j].hits == j ==> s[k + 1 + j].cache == full && FirstKeys(j) <= full
    {
      FirstKeysSize(j);
      assert LazyStep(k, s[k + 1 + j], LoopKey(k, k + 1 + j), s[k + 2 + j]);
    }
    FirstKeysSize(k + 1);
    if FirstKeys(k) <= full {
      Optimality.SubsetSize(FirstKeys(k + 1), full);
      assert false;
    }
  }

  // ---------------------------------------------------------------- the two replays

  ghost function HydraRun(k: nat, ttl: Option<U64>): (s: seq<Snapshot>)
    ensures |s| == 2 * k + 2
    ensures forall n | 0 <= n < |s| :: s[n] == HydraAt(k, ttl, n)
  {
    seq(2 * k + 2, n requires 0 <= n < 2 * k + 2 => HydraAt(k, ttl, n))
  }

  ghost function HydraAt(k: nat, ttl: Option<U64>, n: nat): Snapshot
    requires n <= 2 * k + 1
  {
    var p := Replay(LoopTrace(k), n, k, ttl, Hydra);
    Snapshot(p.entries.Keys, p.hits)
  }

  lemma AccessAtZero(p: Policy, event: TraceEvent)
    requires event.at == 0 && |p.entries| <= p.capacity
    ensures var q := Access(p, event);
            LazyStep(p.capacity, Snapshot(p.entries.Keys, p.hits), event.key, Snapshot(q.entries.Keys, q.hits))
  {
    assert Expire(p.entries, p.ttl, 0) == p.entries;
    AccessKeys(p, event);
    var q := Access(p, event);
    assert |p.entries.Keys| == |p.entries| && |q.entries.Keys| == |q.entries|;
    if event.key in p.entries {
      assert q.entries.Keys == p.entries.Keys;
    } else if |p.entries| < p.capacity {
      assert q.entries.Keys == p.entries.Keys + {event.key};
    }
  }

  lemma HydraIsLazy(k: nat, ttl: Option<U64>)
    ensures LazyRun(k, HydraRun(k, ttl))
  {
    var s, trace := HydraRun(k, ttl), LoopTrace(k);
    forall n | 0 <= n < 2 * k + 1 ensures LazyStep(k, s[n], LoopKey(k, n), s[n + 1]) {
      var p := Replay(trace, n, k, ttl, Hydra);
      WithinCapacity(trace, n, k, ttl, Hydra);
      AccessAtZero(p, trace[n]);
      ReplayStep(trace, n, p);
    }
  }

  lemma {:induction false} Unseen(k: nat, n: nat, key: Key)
    requires n <= k && key !in FirstKeys(n)
    ensures Occurrences(LoopTrace(k), n, key) == 0
  {
    if n > 0 {
      FirstKeysSize(n - 1);
      Unseen(k, n - 1, key);
    }
  }

  /** Key k is first-seen and every entry is recent, so no entry is displaced ... */
  lemma HydraKeepsAll(k: nat, ttl: Option<U64>)
    ensures HydraAt(k, ttl, k).cache <= HydraAt(k, ttl, k + 1).cache
  {
    var trace := LoopTrace(k);
    var entries := Replay(trace, k, k, ttl, Hydra).entries;
    FirstKeysSize(k);
    Unseen(k, k, NthKey(k));
    assert Expire(entries, ttl, 0) == entries;
    forall key | key in entries ensures key in HydraAt(k, ttl, k + 1).cache {
      FreshKeySparesRecentEntries(trace, k, k, ttl, key);
    }
  }

  /** ... which in a full cache means that the key is refused. */
  lemma HydraRefuses(k: nat, ttl: Option<U64>)
    ensures HydraRun(k, ttl)[k + 1].cache == FirstKeys(k)
  {
    var s := HydraRun(k, ttl);
    HydraIsLazy(k, ttl);
    Fills(k, s, k);
    FirstKeysSize(k);
    HydraKeepsAll(k, ttl);
    assert LazyStep(k, s[k], LoopKey(k, k), s[k + 1]);
    SubsetOfSameSize(s[k].cache, s[k + 1].cache);
  }

  lemma HydraHitsAll(k: nat, ttl: Option<U64>)
    ensures Replay(LoopTrace(k), 2 * k + 1, k, ttl, Hydra).hits == k
  {
    HydraIsLazy(k, ttl);
    HydraRefuses(k, ttl);
    LoopHitsAll(k, HydraRun(k, ttl));
  }

  ghost function BeladyAt(k: nat, n: nat): Snapshot
    requires n <= 2 * k + 1 && k > 0
  {
    Snapshot(Cache(LoopTrace(k), k, n), Hits(LoopTrace(k), k, n))
  }

  ghost function BeladyRun(k: nat): (s: seq<Snapshot>)
    requires k > 0
    ensures |s| == 2 * k + 2
    ensures forall n | 0 <= n < |s| :: s[n] == BeladyAt(k, n)
  {
    seq(2 * k + 2, n requires 0 <= n < 2 * k + 2 => BeladyAt(k, n))
  }

  lemma BeladyAccess(k: nat, n: nat)
    requires n < 2 * k + 1 && k > 0
    ensures LazyStep(k, BeladyAt(k, n), LoopKey(k, n), BeladyAt(k, n + 1))
    ensures LoopKey(k, n) in BeladyAt(k, n + 1).cache
  {
  }

  lemma BeladyMissesOne(k: nat)
    requires k > 0
    ensures Hits(LoopTrace(k), k, 2 * k + 1) < k
  {
    var s := BeladyRun(k);
    forall n | 0 <= n < 2 * k + 1 ensures LazyStep(k, s[n], LoopKey(k, n), s[n + 1]) {
      BeladyAccess(k, n);
    }
    BeladyAccess(k, k);
    LoopMissesOne(k, s);
    assert s[2 * k + 1] == BeladyAt(k, 2 * k + 1);
  }

  /** Belady bounds Hydra at equal capacity exactly when there is no capacity at all. */
  lemma EqualCapacityIsNotEnough(capacity: nat, ttl: Option<U64>)
    ensures (forall trace: Trace ::
               Replay(trace, |trace|, capacity, ttl, Hydra).hits <= Hits(trace, capacity, |trace|))
            <==> capacity == 0
  {
    if capacity == 0 {
      forall trace: Trace ensures Replay(trace, |trace|, 0, ttl, Hydra).hits <= Hits(trace, 0, |trace|) {
        NoRoomNoHits(trace, |trace|, ttl, Hydra);
      }
    } else {
      HydraHitsAll(capacity, ttl);
      BeladyMissesOne(capacity);
      var trace := LoopTrace(capacity);
      assert Replay(trace, |trace|, capacity, ttl, Hydra).hits > Hits(trace, capacity, |trace|);
    }
  }
}
