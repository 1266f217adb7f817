/** Belady's MIN: the offline replay that evicts the key used furthest in the future. */
module Belady {
  import opened Words
  import opened KeyOrder
  import opened PolicyReplay

  type Trace = seq<TraceEvent>

  function NextUse(trace: Trace, start: nat, key: Key): (r: Option<nat>)
    requires start <= |trace|
    decreases |trace| - start
  {
    if start == |trace| then None
    else if trace[start].key == key then Some(start)
    else NextUse(trace, start + 1, key)
  }

  /** The victim score: an absent next use ranks above every index of the trace. */
  function UseRank(trace: Trace, start: nat, key: Key): (r: nat)
    requires start <= |trace|
  {
    match NextUse(trace, start, key)
    case None => |trace|
    case Some(i) => i
  }

  /** The score is the first index at which the key occurs, if it does. */
  lemma {:induction false} UseRankIsFirst(trace: Trace, start: nat, key: Key)
    requires start <= |trace|
    ensures var r := UseRank(trace, start, key);
            start <= r <= |trace| &&
            (r < |trace| ==> trace[r].key == key) &&
            forall j | start <= j < r :: trace[j].key != key
    decreases |trace| - start
  {
    if start < |trace| && trace[start].key != key {
      UseRankIsFirst(trace, start + 1, key);
    }
  }

  /** A left-to-right maximum that keeps the later element on a tie. */
  function LastMaximum(q: seq<Key>, trace: Trace, start: nat): (v: Key)
    requires q != [] && start <= |trace|
    ensures v in q
  {
    var last := q[|q| - 1];
    if |q| == 1 then last else
      var best := LastMaximum(q[..|q| - 1], trace, start);
      if UseRank(trace, start, last) >= UseRank(trace, start, best) then last else best
  }

  /** The strict total order on keys whose greatest cached element is evicted. */
  predicate StaysLonger(trace: Trace, start: nat, a: Key, b: Key)
    requires start <= |trace|
  {
    var ra, rb := UseRank(trace, start, a), UseRank(trace, start, b);
    ra < rb || (ra == rb && Less(a, b))
  }

  lemma {:induction false} LastMaximumIsGreatest(q: seq<Key>, trace: Trace, start: nat)
    requires q != [] && Ascending(q) && start <= |trace|
    ensures var v := LastMaximum(q, trace, start);
            forall k | k in q && k != v :: StaysLonger(trace, start, k, v)
  {
    if |q| > 1 {
      var front := q[..|q| - 1];
      var last := q[|q| - 1];
      assert forall k | k in q :: k in front || k == last;
      LastMaximumIsGreatest(front, trace, start);
      assert forall k | k in front :: Less(k, last) by {
        forall k | k in front ensures Less(k, last) {
          var i :| 0 <= i < |front| && front[i] == k;
          assert Less(q[i], q[|q| - 1]);
        }
      }
    }
  }

  function FurthestKey(trace: Trace, start: nat, cache: set<Key>): (v: Key)
    requires cache != {} && start <= |trace|
    ensures v in cache
  {
    var q := SortedKeys(cache);
    assert q != [] && LastMaximum(q, trace, start) in cache by {
      SortedKeysSpec(cache);
      assert |cache| > 0;
    }
    LastMaximum(q, trace, start)
  }

  lemma FurthestIsGreatest(trace: Trace, start: nat, cache: set<Key>)
    requires cache != {} && start <= |trace|
    ensures var v := FurthestKey(trace, start, cache);
            forall k | k in cache && k != v :: StaysLonger(trace, start, k, v)
  {
    SortedKeysSpec(cache);
    LastMaximumIsGreatest(SortedKeys(cache), trace, start);
  }

  /** The cache after accessing `trace[i]`. */
  function CacheAfter(trace: Trace, capacity: nat, i: nat, cache: set<Key>): (next: set<Key>)
    requires i < |trace| && capacity > 0
  {
    var key := trace[i].key;
    if key in cache then cache
    else if |cache| < capacity then cache + {key}
    else cache - {FurthestKey(trace, i + 1, cache)} + {key}
  }

  /** The cache before accessing `trace[n]`. */
  function Cache(trace: Trace, capacity: nat, n: nat): (cache: set<Key>)
    requires n <= |trace| && capacity > 0
    ensures |cache| <= capacity
  {
    if n == 0 then {} else CacheAfter(trace, capacity, n - 1, Cache(trace, capacity, n - 1))
  }

  /** Hits among the first `n` accesses. */
  function Hits(trace: Trace, capacity: nat, n: nat): (hits: nat)
    requires n <= |trace|
    ensures hits <= n
  {
    if n == 0 || capacity == 0 then 0 else
      Hits(trace, capacity, n - 1) +
      if trace[n - 1].key in Cache(trace, capacity, n - 1) then 1 else 0
  }

  /** One iteration of the replay loop. */
  method AccessKey(trace: Trace, capacity: nat, index: nat, cache: set<Key>) returns (next: set<Key>, hit: bool)
    requires index < |trace| && capacity > 0
    ensures next == CacheAfter(trace, capacity, index, cache)
    ensures hit == (trace[index].key in cache)
  {
    next := cache;
    if trace[index].key in cache {
      return next, true;
    }
    if |next| >= capacity {
      var victim := FurthestKey(trace, index + 1, next);
      next := next - {victim};
    }
    return next + {trace[index].key}, false;
  }
}
