/** Belady's replay makes at least as many hits as any cache of the same capacity that must
    take in every missed key. */
module Optimality {
  import opened Words
  import opened KeyOrder
  import opened PolicyReplay
  import opened Belady

  /** What a cache did at one access: the keys it still held when the access was looked up,
      and the keys it held afterwards. */
  datatype CacheStep = CacheStep(kept: set<Key>, next: set<Key>)

  /** Anything may be dropped at any time, but the accessed key must be resident afterwards. */
  ghost predicate MandatoryStep(capacity: nat, cache: set<Key>, key: Key, step: CacheStep) {
    step.kept <= cache &&
    key in step.next &&
    step.next <= step.kept + {key} &&
    |step.next| <= capacity
  }

  ghost function CacheBefore(run: seq<CacheStep>, i: nat): set<Key>
    requires i <= |run|
  {
    if i == 0 then {} else run[i - 1].next
  }

  ghost predicate MandatoryRun(trace: Trace, capacity: nat, run: seq<CacheStep>) {
    |run| == |trace| &&
    forall i | 0 <= i < |run| :: MandatoryStep(capacity, CacheBefore(run, i), trace[i].key, run[i])
  }

  ghost function RunHits(trace: Trace, run: seq<CacheStep>, n: nat): (hits: nat)
    requires n <= |trace| && n <= |run|
    ensures hits <= n
  {
    if n == 0 then 0 else
      RunHits(trace, run, n - 1) + if trace[n - 1].key in run[n - 1].kept then 1 else 0
  }

  /** The cached keys used again before index `t`. */
  ghost function Soon(trace: Trace, i: nat, cache: set<Key>, t: nat): set<Key>
    requires i <= |trace|
  {
    set x | x in cache && UseRank(trace, i, x) < t
  }

  /** Belady leads by `lead` hits, and by at least as many as the other cache holds soon-used
      keys more than Belady, whatever "soon" means. */
  ghost predicate Ahead(trace: Trace, i: nat, mine: set<Key>, other: set<Key>, lead: int)
    requires i <= |trace|
  {
    lead >= 0 &&
    forall t: nat | t <= |trace| :: |Soon(trace, i, other, t)| - |Soon(trace, i, mine, t)| <= lead
  }

  lemma UseRankStep(trace: Trace, i: nat, x: Key)
    requires i < |trace|
    ensures x == trace[i].key ==> UseRank(trace, i, x) == i
    ensures x != trace[i].key ==> UseRank(trace, i, x) == UseRank(trace, i + 1, x)
  {
  }

  /** How the number of soon-used keys changes when `key` becomes the accessed one. */
  lemma SoonStep(trace: Trace, i: nat, cache: set<Key>, t: nat)
    requires i < |trace| && i < t
    ensures var key := trace[i].key;
            |Soon(trace, i, cache, t)| == |Soon(trace, i + 1, cache - {key}, t)| + (if key in cache then 1 else 0)
  {
    var key := trace[i].key;
    forall x { UseRankStep(trace, i, x); }
    var rest := Soon(trace, i + 1, cache - {key}, t);
    assert Soon(trace, i, cache, t) == if key in cache then rest + {key} else rest;
  }

  lemma SoonInsert(trace: Trace, i: nat, cache: set<Key>, key: Key, t: nat)
    requires i <= |trace| && key in cache
    ensures |Soon(trace, i, cache, t)| ==
            |Soon(trace, i, cache - {key}, t)| + (if UseRank(trace, i, key) < t then 1 else 0)
  {
    var rest := Soon(trace, i, cache - {key}, t);
    assert Soon(trace, i, cache, t) == if UseRank(trace, i, key) < t then rest + {key} else rest;
  }

  lemma SubsetSize<T>(a: set<T>, b: set<T>)
    requires a <= b
    ensures |a| <= |b|
  {
    assert b == a + (b - a);
  }

  lemma SoonMonotone(trace: Trace, i: nat, a: set<Key>, b: set<Key>, t: nat)
    requires i <= |trace| && a <= b
    ensures |Soon(trace, i, a, t)| <= |Soon(trace, i, b, t)|
  {
    SubsetSize(Soon(trace, i, a, t), Soon(trace, i, b, t));
  }

  /** Apart from the accessed key, Belady keeps every soon-used key, or is full of them. */
  lemma BeladyKeepsSoon(trace: Trace, capacity: nat, i: nat, cache: set<Key>, t: nat)
    requires i < |trace| && capacity > 0 && |cache| <= capacity && t <= |trace|
    ensures var key := trace[i].key;
            var kept := |Soon(trace, i + 1, CacheAfter(trace, capacity, i, cache) - {key}, t)|;
            kept == |Soon(trace, i + 1, cache - {key}, t)| || kept == capacity - 1
  {
    var key := trace[i].key;
    var next := CacheAfter(trace, capacity, i, cache);
    if key in cache || |cache| < capacity {
      assert next - {key} == cache - {key};
    } else {
      var v := FurthestKey(trace, i + 1, cache);
      FurthestIsGreatest(trace, i + 1, cache);
      assert next - {key} == cache - {v};
      if UseRank(trace, i + 1, v) < t {
        assert Soon(trace, i + 1, cache - {v}, t) == cache - {v};
      } else {
        assert cache - {key} == cache;
        assert Soon(trace, i + 1, cache - {v}, t) == Soon(trace, i + 1, cache, t);
      }
    }
  }

  lemma AheadAt(trace: Trace, capacity: nat, i: nat, mine: set<Key>, other: set<Key>, step: CacheStep, t: nat)
    requires i < t <= |trace| && capacity > 0 && |mine| <= capacity
    requires MandatoryStep(capacity, other, trace[i].key, step)
    ensures var key := trace[i].key;
            var was := |Soon(trace, i, other, t)| - |Soon(trace, i, mine, t)|;
            var now := |Soon(trace, i + 1, step.next, t)| - |Soon(trace, i + 1, CacheAfter(trace, capacity, i, mine), t)|;
            now <= 0 || now <= was + (if key in mine then 1 else 0) - (if key in step.kept then 1 else 0)
  {
    var key := trace[i].key;
    SoonStep(trace, i, mine, t);
    OtherSoonShrinks(trace, capacity, i, other, step, t);
    BeladyKeepsSoon(trace, capacity, i, mine, t);
    SoonInsert(trace, i + 1, step.next, key, t);
    SoonInsert(trace, i + 1, CacheAfter(trace, capacity, i, mine), key, t);
  }

  lemma OtherSoonShrinks(trace: Trace, capacity: nat, i: nat, other: set<Key>, step: CacheStep, t: nat)
    requires i < t <= |trace|
    requires MandatoryStep(capacity, other, trace[i].key, step)
    ensures var key := trace[i].key;
            var rest := |Soon(trace, i + 1, step.next - {key}, t)|;
            rest <= |Soon(trace, i, other, t)| - (if key in step.kept then 1 else 0) && rest <= capacity - 1
  {
    var key := trace[i].key;
    SoonStep(trace, i, other, t);
    SoonMonotone(trace, i + 1, step.next - {key}, other - {key}, t);
    SubsetSize(Soon(trace, i + 1, step.next - {key}, t), step.next - {key});
  }

  /** Being ahead survives one access. */
  lemma AheadStep(trace: Trace, capacity: nat, i: nat, mine: set<Key>, other: set<Key>, step: CacheStep, lead: int)
    requires i < |trace| && capacity > 0 && |mine| <= capacity
    requires MandatoryStep(capacity, other, trace[i].key, step)
    requires Ahead(trace, i, mine, other, lead)
    ensures var key := trace[i].key;
            Ahead(trace, i + 1, CacheAfter(trace, capacity, i, mine), step.next,
                  lead + (if key in mine then 1 else 0) - (if key in step.kept then 1 else 0))
  {
    var key := trace[i].key;
    var j, mine' := i + 1, CacheAfter(trace, capacity, i, mine);
    var lead' := lead + (if key in mine then 1 else 0) - (if key in step.kept then 1 else 0);
    LeadStaysNonNegative(trace, i, mine, other, lead);
    forall t: nat | t <= |trace|
      ensures |Soon(trace, j, step.next, t)| - |Soon(trace, j, mine', t)| <= lead'
    {
      if t <= i {
        forall x { UseRankIsFirst(trace, j, x); }
        assert Soon(trace, j, step.next, t) == {};
      } else {
        assert |Soon(trace, i, other, t)| - |Soon(trace, i, mine, t)| <= lead;
        AheadAt(trace, capacity, i, mine, other, step, t);
      }
    }
  }

  lemma LeadStaysNonNegative(trace: Trace, i: nat, mine: set<Key>, other: set<Key>, lead: int)
    requires i < |trace| && Ahead(trace, i, mine, other, lead)
    ensures trace[i].key in other && trace[i].key !in mine ==> lead >= 1
  {
    var key := trace[i].key;
    forall x { UseRankStep(trace, i, x); }
    forall x { UseRankIsFirst(trace, i + 1, x); }
    assert Soon(trace, i, other, i + 1) == if key in other then {key} else {};
    assert Soon(trace, i, mine, i + 1) == if key in mine then {key} else {};
    assert |Soon(trace, i, other, i + 1)| - |Soon(trace, i, mine, i + 1)| <= lead;
  }

  lemma {:induction false} AheadAlways(trace: Trace, capacity: nat, run: seq<CacheStep>, n: nat)
    requires n <= |trace| && capacity > 0 && MandatoryRun(trace, capacity, run)
    ensures Ahead(trace, n, Cache(trace, capacity, n), CacheBefore(run, n),
                  Hits(trace, capacity, n) - RunHits(trace, run, n))
  {
    hide Ahead, MandatoryStep, CacheAfter;
    if n == 0 {
      AheadAtStart(trace);
    } else {
      AheadAlways(trace, capacity, run, n - 1);
      assert MandatoryStep(capacity, CacheBefore(run, n - 1), trace[n - 1].key, run[n - 1]);
      AheadStep(trace, capacity, n - 1, Cache(trace, capacity, n - 1), CacheBefore(run, n - 1), run[n - 1],
                Hits(trace, capacity, n - 1) - RunHits(trace, run, n - 1));
    }
  }

  lemma AheadAtStart(trace: Trace)
    ensures Ahead(trace, 0, {}, {}, 0)
  {
    forall t: nat | t <= |trace| ensures Soon(trace, 0, {}, t) == {} {}
  }

  /** Belady is optimal among caches that must take in every missed key, on every trace and
      at every prefix of it. */
  lemma BeladyIsOptimal(trace: Trace, capacity: nat, run: seq<CacheStep>, n: nat)
    requires n <= |trace| && MandatoryRun(trace, capacity, run)
    ensures RunHits(trace, run, n) <= Hits(trace, capacity, n)
  {
    hide *;
    if trace != [] {
      NeedsRoom(trace, capacity, run);
      AheadAlways(trace, capacity, run, n);
      LeadIsNatural(trace, n, Cache(trace, capacity, n), CacheBefore(run, n),
                    Hits(trace, capacity, n) - RunHits(trace, run, n));
    }
  }

  lemma LeadIsNatural(trace: Trace, i: nat, mine: set<Key>, other: set<Key>, lead: int)
    requires i <= |trace| && Ahead(trace, i, mine, other, lead)
    ensures lead >= 0
  {
  }

  lemma NeedsRoom(trace: Trace, capacity: nat, run: seq<CacheStep>)
    requires trace != [] && MandatoryRun(trace, capacity, run)
    ensures capacity > 0 && |run| == |trace|
  {
    assert MandatoryStep(capacity, CacheBefore(run, 0), trace[0].key, run[0]);
  }

  // ---------------------------------------------------------------- the optimum is attained

  /** The accesses that found their key. */
  ghost function Found(trace: Trace, run: seq<CacheStep>, n: nat): set<nat>
    requires n <= |trace| && n <= |run|
  {
    set i: nat | i < n && trace[i].key in run[i].kept
  }

  lemma RunHitsCounts(trace: Trace, run: seq<CacheStep>, n: nat)
    requires n <= |trace| && n <= |run|
    ensures RunHits(trace, run, n) == |Found(trace, run, n)|
  {
    assert Found(trace, run, 0) == {};
    hide Found;
    for i := 0 to n
      invariant RunHits(trace, run, i) == |Found(trace, run, i)|
    {
      FoundStep(trace, run, i);
    }
  }

  lemma FoundStep(trace: Trace, run: seq<CacheStep>, n: nat)
    requires n < |trace| && n < |run|
    ensures |Found(trace, run, n + 1)| == |Found(trace, run, n)| + if trace[n].key in run[n].kept then 1 else 0
  {
    var before := Found(trace, run, n);
    assert Found(trace, run, n + 1) == if trace[n].key in run[n].kept then before + {n} else before;
  }

  /** `best` is the largest number of hits of any run, and some run makes it. */
  ghost predicate IsOptimum(trace: Trace, capacity: nat, best: nat) {
    (forall run | MandatoryRun(trace, capacity, run) :: |Found(trace, run, |trace|)| <= best) &&
    if capacity == 0 then best == 0
    else exists run :: MandatoryRun(trace, capacity, run) && |Found(trace, run, |trace|)| == best
  }

  /** What Belady's replay did, as a run. */
  ghost function BeladyRun(trace: Trace, capacity: nat): (run: seq<CacheStep>)
    requires capacity > 0
    ensures |run| == |trace|
    ensures forall i | 0 <= i < |run| :: run[i] == CacheStep(Cache(trace, capacity, i), Cache(trace, capacity, i + 1))
  {
    seq(|trace|, i requires 0 <= i < |trace| =>
      CacheStep(Cache(trace, capacity, i), Cache(trace, capacity, i + 1)))
  }

  lemma BeladyRunIsMandatory(trace: Trace, capacity: nat)
    requires capacity > 0
    ensures MandatoryRun(trace, capacity, BeladyRun(trace, capacity))
  {
    var run := BeladyRun(trace, capacity);
    forall i | 0 <= i < |run|
      ensures MandatoryStep(capacity, CacheBefore(run, i), trace[i].key, run[i])
    {
      assert CacheBefore(run, i) == Cache(trace, capacity, i);
      assert run[i].next == CacheAfter(trace, capacity, i, Cache(trace, capacity, i));
    }
  }

  lemma BeladyRunHits(trace: Trace, capacity: nat, n: nat)
    requires capacity > 0 && n <= |trace|
    ensures RunHits(trace, BeladyRun(trace, capacity), n) == Hits(trace, capacity, n)
  {
    var run := BeladyRun(trace, capacity);
    for i := 0 to n
      invariant RunHits(trace, run, i) == Hits(trace, capacity, i)
    {
    }
  }

  /** Belady's hits are exactly the optimum. */
  lemma BeladyIsTheOptimum(trace: Trace, capacity: nat)
    ensures IsOptimum(trace, capacity, Hits(trace, capacity, |trace|))
  {
    forall run | MandatoryRun(trace, capacity, run)
      ensures |Found(trace, run, |trace|)| <= Hits(trace, capacity, |trace|)
    {
      BeladyIsOptimal(trace, capacity, run, |trace|);
      RunHitsCounts(trace, run, |trace|);
    }
    if capacity > 0 {
      BeladyRunIsMandatory(trace, capacity);
      BeladyRunHits(trace, capacity, |trace|);
      RunHitsCounts(trace, BeladyRun(trace, capacity), |trace|);
    }
  }

  lemma OptimumIsUnique(trace: Trace, capacity: nat, best: nat)
    requires IsOptimum(trace, capacity, best)
    ensures best == Hits(trace, capacity, |trace|)
  {
    BeladyIsTheOptimum(trace, capacity);
  }
}
