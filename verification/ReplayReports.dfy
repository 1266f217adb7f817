/** The reports of the simulator: what the two replay entry points return. */
module ReplayReports {
  import opened Words
  import opened KeyOrder
  import opened PolicyReplay
  import opened Belady
  import opened Optimality
  import opened OnlineBounds
  import opened ReplayReference

  datatype HitRateReport = HitRateReport(accesses: nat, hits: nat, misses: nat)

  function Report(hits: nat, accesses: nat): HitRateReport {
    HitRateReport(accesses, hits, if accesses >= hits then accesses - hits else 0)
  }

  /** The offline replay: its hits are the optimum of its capacity. */
  method BeladyOptimal(trace: Trace, capacity: nat) returns (report: HitRateReport)
    ensures report.accesses == |trace| && report.hits + report.misses == |trace|
    ensures report.hits == Hits(trace, capacity, |trace|) && IsOptimum(trace, capacity, report.hits)
  {
    hide IsOptimum, CacheAfter;
    BeladyIsTheOptimum(trace, capacity);
    if capacity == 0 {
      return Report(0, |trace|);
    }
    var cache: set<Key> := {};
    var hits := 0;
    for index := 0 to |trace|
      invariant cache == Cache(trace, capacity, index)
      invariant hits == Hits(trace, capacity, index)
    {
      var next, hit := AccessKey(trace, capacity, index, cache);
      cache := next;
      hits := hits + if hit then 1 else 0;
    }
    report := Report(hits, |trace|);
  }

  /** The slots whose optimum bounds a policy: Hydra may refuse a key and so needs one more. */
  function Room(capacity: nat, kind: PolicyKind): nat {
    if kind == Hydra then capacity + 1 else capacity
  }

  lemma OptimumBounds(trace: Trace, capacity: nat, ttl: Option<U64>, kind: PolicyKind)
    ensures forall best | IsOptimum(trace, Room(capacity, kind), best) ::
              Replay(trace, |trace|, capacity, ttl, kind).hits <= best
  {
    var room := Room(capacity, kind);
    if kind == Hydra {
      BeladyBoundsHydra(trace, capacity, ttl);
    } else {
      BeladyBoundsOnline(trace, capacity, ttl, kind);
    }
    forall best | IsOptimum(trace, room, best) ensures Hits(trace, room, |trace|) <= best {
      OptimumIsUnique(trace, room, best);
    }
  }

  /** The online replay: its hits are those of the reference run, and never above the optimum. */
  method ReplayPolicy(trace: seq<TraceEvent>, capacity: nat, ttlTicks: Option<U64>, kind: PolicyKind)
    returns (report: HitRateReport)
    ensures report.accesses == |trace| && report.hits + report.misses == |trace|
    ensures report.hits == Replay(trace, |trace|, capacity, ttlTicks, kind).hits
    ensures exists run ::
              ReferenceRun(trace, capacity, ttlTicks, kind, |trace|, run) &&
              report.hits == |HitIndices(trace, ttlTicks, |trace|, run)|
    ensures forall best | IsOptimum(trace, Room(capacity, kind), best) :: report.hits <= best
  {
    var state := new PolicyState(capacity, ttlTicks, kind);
    for i := 0 to |trace|
      invariant state.Value() == Replay(trace, i, capacity, ttlTicks, kind)
    {
      ghost var before := state.Value();
      state.AccessEvent(trace[i]);
      ReplayStep(trace, i, before);
    }
    report := Report(state.hits, |trace|);
    OptimumBounds(trace, capacity, ttlTicks, kind);
    ghost var run := ReplayIsReference(trace, capacity, ttlTicks, kind, |trace|);
  }
}
