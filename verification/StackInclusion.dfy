/** Without expiry, a larger LRU cache always holds what a smaller one holds, and so does a
    larger Belady cache; hits therefore never fall as capacity grows. */
module StackInclusion {
  import opened Words
  import opened KeyOrder
  import opened PolicyReplay
  import opened Belady
  import opened OnlineBounds

  // ---------------------------------------------------------------- LRU

  type Recency = map<Key, U64>

  ghost function LastSeen(entries: Entries): Recency {
    map k | k in entries :: entries[k].lastSeenAt
  }

  /** Recency after an access, when `v` is the victim if one is needed. */
  ghost function RecencyAfter(r: Recency, capacity: nat, v: Key, event: TraceEvent): Recency {
    if event.key in r || |r| < capacity then r[event.key := event.at]
    else if capacity == 0 then r
    else (r - {v})[event.key := event.at]
  }

  /** The smaller cache is part of the larger one, agrees with it on recency, and differs from
      it only once it is full. */
  ghost predicate Included(small: Recency, capacity: nat, large: Recency) {
    (forall k | k in small :: k in large && small[k] == large[k]) &&
    (|small| < capacity ==> small == large)
  }

  ghost function LruVictim(entries: Entries, event: TraceEvent): Key {
    if entries == map[] then [] else Victim(Lru, entries, event)
  }

  lemma LruAccess(p: Policy, event: TraceEvent)
    requires p.kind == Lru && p.ttl == None && |p.entries| <= p.capacity
    ensures LastSeen(Access(p, event).entries) ==
            RecencyAfter(LastSeen(p.entries), p.capacity, LruVictim(p.entries, event), event)
    ensures |LastSeen(p.entries)| == |p.entries|
    ensures Access(p, event).hits == p.hits + if event.key in p.entries then 1 else 0
  {
    assert LastSeen(p.entries).Keys == p.entries.Keys;
  }

  /** If the larger cache gives up a key of the smaller one, so does the smaller one. */
  lemma LruVictimsAgree(small: Entries, large: Entries, event: TraceEvent)
    requires small != map[]
    requires forall k | k in small :: k in large && small[k].lastSeenAt == large[k].lastSeenAt
    ensures var v, w := LruVictim(small, event), LruVictim(large, event);
            v in small && (w in small ==> w == v)
  {
    var s :| s in small;
    assert s in large;
    var v, w := Victim(Lru, small, event), Victim(Lru, large, event);
    VictimIsLeast(Lru, small, event);
    VictimIsLeast(Lru, large, event);
    Trichotomy(v, w);
  }

  lemma RecencyStep(small: Recency, k: nat, v: Key, large: Recency, m: nat, w: Key, event: TraceEvent)
    requires |small| <= k <= m && Included(small, k, large)
    requires small != map[] ==> v in small && (w in small ==> w == v)
    ensures Included(RecencyAfter(small, k, v, event), k, RecencyAfter(large, m, w, event))
  {
    var s, l := RecencyAfter(small, k, v, event), RecencyAfter(large, m, w, event);
    if event.key !in small && |small| == k && k > 0 {
      assert s.Keys == small.Keys - {v} + {event.key};
      assert |s| == |s.Keys| == |small.Keys| == k;
    } else if event.key in small {
      assert s.Keys == small.Keys;
      assert |s| == |s.Keys| == |small.Keys|;
    }
  }

  lemma LruStep(small: Policy, large: Policy, event: TraceEvent)
    requires small.kind == large.kind == Lru && small.ttl == large.ttl == None
    requires |small.entries| <= small.capacity && |large.entries| <= large.capacity
    requires small.capacity <= large.capacity
    requires Included(LastSeen(small.entries), small.capacity, LastSeen(large.entries))
    ensures Included(LastSeen(Access(small, event).entries), small.capacity, LastSeen(Access(large, event).entries))
    ensures Access(small, event).hits - small.hits <= Access(large, event).hits - large.hits
  {
    LruAccess(small, event);
    LruAccess(large, event);
    var s, l := LastSeen(small.entries), LastSeen(large.entries);
    assert forall k | k in small.entries :: k in s && k in l;
    if small.entries != map[] {
      LruVictimsAgree(small.entries, large.entries, event);
    }
    RecencyStep(s, small.capacity, LruVictim(small.entries, event), l, large.capacity, LruVictim(large.entries, event), event);
  }

  /** After every prefix of every trace, with the program's own tie-breaks and whatever the
      timestamps, the smaller LRU cache is part of the larger one. */
  lemma LruInclusion(trace: Trace, n: nat, small: nat, large: nat)
    requires n <= |trace| && small <= large
    ensures var s, l := Replay(trace, n, small, None, Lru), Replay(trace, n, large, None, Lru);
            s.entries.Keys <= l.entries.Keys && s.hits <= l.hits
  {
    for i := 0 to n
      invariant Included(LastSeen(Replay(trace, i, small, None, Lru).entries), small,
                         LastSeen(Replay(trace, i, large, None, Lru).entries))
      invariant Replay(trace, i, small, None, Lru).hits <= Replay(trace, i, large, None, Lru).hits
    {
      var s, l := Replay(trace, i, small, None, Lru), Replay(trace, i, large, None, Lru);
      WithinCapacity(trace, i, small, None, Lru);
      WithinCapacity(trace, i, large, None, Lru);
      LruStep(s, l, trace[i]);
      ReplayStep(trace, i, s);
      ReplayStep(trace, i, l);
    }
    var s, l := Replay(trace, n, small, None, Lru).entries, Replay(trace, n, large, None, Lru).entries;
    assert forall k | k in s :: k in LastSeen(s) && k in LastSeen(l);
  }

  // ---------------------------------------------------------------- Belady

  ghost predicate SetIncluded(small: set<Key>, capacity: nat, large: set<Key>) {
    small <= large && (|small| < capacity ==> small == large)
  }

  lemma BeladyVictimsAgree(trace: Trace, start: nat, small: set<Key>, large: set<Key>)
    requires start <= |trace| && small != {} && small <= large
    ensures large != {} && var w := FurthestKey(trace, start, large);
            w in small ==> w == FurthestKey(trace, start, small)
  {
    var s :| s in small;
    assert s in large;
    FurthestIsGreatest(trace, start, small);
    FurthestIsGreatest(trace, start, large);
    Trichotomy(FurthestKey(trace, start, small), FurthestKey(trace, start, large));
  }

  lemma BeladyStep(trace: Trace, i: nat, small: set<Key>, k: nat, large: set<Key>, m: nat)
    requires i < |trace| && 0 < k <= m && |small| <= k && |large| <= m
    requires SetIncluded(small, k, large)
    ensures SetIncluded(CacheAfter(trace, k, i, small), k, CacheAfter(trace, m, i, large))
  {
    if trace[i].key !in small && |small| == k {
      BeladyVictimsAgree(trace, i + 1, small, large);
      assert |CacheAfter(trace, k, i, small)| == k;
    }
  }

  ghost predicate BeladyIncluded(trace: Trace, i: nat, small: nat, large: nat)
    requires i <= |trace| && 0 < small <= large
  {
    SetIncluded(Cache(trace, small, i), small, Cache(trace, large, i)) &&
    Hits(trace, small, i) <= Hits(trace, large, i)
  }

  lemma BeladyNext(trace: Trace, i: nat, small: nat, large: nat)
    requires i < |trace| && 0 < small <= large
    requires BeladyIncluded(trace, i, small, large)
    ensures BeladyIncluded(trace, i + 1, small, large)
  {
    BeladyStep(trace, i, Cache(trace, small, i), small, Cache(trace, large, i), large);
  }

  /** The same for Belady's replay. */
  lemma BeladyInclusion(trace: Trace, n: nat, small: nat, large: nat)
    requires n <= |trace| && small <= large
    ensures small > 0 ==> Cache(trace, small, n) <= Cache(trace, large, n)
    ensures Hits(trace, small, n) <= Hits(trace, large, n)
  {
    if small > 0 {
      for i := 0 to n
        invariant BeladyIncluded(trace, i, small, large)
      {
        BeladyNext(trace, i, small, large);
      }
    }
  }
}
