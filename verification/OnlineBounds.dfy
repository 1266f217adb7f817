/** How many hits the online policies can make, measured against Belady's replay. */
module OnlineBounds {
  import opened Words
  import opened KeyOrder
  import opened PolicyReplay
  import opened Belady
  import opened Optimality

  lemma ExpireShrinks(entries: Entries, ttl: Option<U64>, now: U64)
    ensures Expire(entries, ttl, now).Keys <= entries.Keys
    ensures |Expire(entries, ttl, now)| <= |entries|
  {
    SubsetSize(Expire(entries, ttl, now).Keys, entries.Keys);
  }

  /** A miss leaves the cache within capacity and only ever adds the missed key, which is
      resident afterwards unless the cache has no room at all or the policy refuses it. */
  lemma MissKeys(capacity: nat, kind: PolicyKind, live: Entries, event: TraceEvent, observed: U64)
    requires |live| <= capacity && event.key !in live
    ensures var after := EntriesAfterMiss(capacity, kind, live, event, observed);
            after.Keys <= live.Keys + {event.key} && |after| <= capacity &&
            (capacity > 0 && kind != Hydra ==> event.key in after)
  {
    var after := EntriesAfterMiss(capacity, kind, live, event, observed);
    if capacity > 0 && |live| < capacity {
      assert after.Keys == live.Keys + {event.key};
    } else if capacity > 0 && !Refuses(kind, live, event, observed) {
      var v := Victim(kind, live, event);
      assert after.Keys == live.Keys - {v} + {event.key};
    }
  }

  lemma AccessKeys(p: Policy, event: TraceEvent)
    requires |p.entries| <= p.capacity
    ensures var live := Expire(p.entries, p.ttl, event.at);
            var after := Access(p, event).entries;
            live.Keys <= p.entries.Keys && after.Keys <= live.Keys + {event.key} &&
            |after| <= p.capacity && (p.capacity > 0 && p.kind != Hydra ==> event.key in after)
  {
    var live := Expire(p.entries, p.ttl, event.at);
    ExpireShrinks(p.entries, p.ttl, event.at);
    if event.key in live {
      assert Access(p, event).entries.Keys == live.Keys;
    } else {
      MissKeys(p.capacity, p.kind, live, event, ObservedAfter(p.observed, event.key));
    }
  }

  lemma {:induction false} WithinCapacity(trace: Trace, n: nat, capacity: nat, ttl: Option<U64>, kind: PolicyKind)
    requires n <= |trace|
    ensures |Replay(trace, n, capacity, ttl, kind).entries| <= capacity
  {
    if n > 0 {
      WithinCapacity(trace, n - 1, capacity, ttl, kind);
      AccessKeys(Replay(trace, n - 1, capacity, ttl, kind), trace[n - 1]);
    }
  }

  /** The keys that access `i` is looked up in. */
  ghost function LiveKeys(trace: Trace, capacity: nat, ttl: Option<U64>, kind: PolicyKind, i: nat): set<Key>
    requires i < |trace|
  {
    Expire(Replay(trace, i, capacity, ttl, kind).entries, ttl, trace[i].at).Keys
  }

  /** What access `i` of a replay did, with the accessed key counted as resident afterwards
      even if the policy refused it. */
  ghost function ShadowStep(trace: Trace, capacity: nat, ttl: Option<U64>, kind: PolicyKind, i: nat): CacheStep
    requires i < |trace|
  {
    CacheStep(
      LiveKeys(trace, capacity, ttl, kind, i),
      Replay(trace, i + 1, capacity, ttl, kind).entries.Keys + {trace[i].key})
  }

  ghost function ShadowRun(trace: Trace, capacity: nat, ttl: Option<U64>, kind: PolicyKind): (run: seq<CacheStep>)
    ensures |run| == |trace|
    ensures forall i | 0 <= i < |run| :: run[i] == ShadowStep(trace, capacity, ttl, kind, i)
  {
    seq(|trace|, i requires 0 <= i < |trace| => ShadowStep(trace, capacity, ttl, kind, i))
  }

  /** The replay took in every key it was asked for. */
  ghost predicate TakesInAll(trace: Trace, capacity: nat, ttl: Option<U64>, kind: PolicyKind) {
    forall i | 0 <= i < |trace| :: trace[i].key in Replay(trace, i + 1, capacity, ttl, kind).entries
  }

  lemma ShadowStepIsMandatory(trace: Trace, capacity: nat, ttl: Option<U64>, kind: PolicyKind, room: nat, i: nat)
    requires i < |trace|
    requires room == capacity + 1 ||
             (room == capacity && trace[i].key in Replay(trace, i + 1, capacity, ttl, kind).entries)
    ensures var run := ShadowRun(trace, capacity, ttl, kind);
            MandatoryStep(room, CacheBefore(run, i), trace[i].key, run[i])
  {
    var run := ShadowRun(trace, capacity, ttl, kind);
    var p := Replay(trace, i, capacity, ttl, kind);
    WithinCapacity(trace, i, capacity, ttl, kind);
    AccessKeys(p, trace[i]);
    var after := Replay(trace, i + 1, capacity, ttl, kind).entries;
    assert after == Access(p, trace[i]).entries;
    assert p.entries.Keys <= CacheBefore(run, i);
    if trace[i].key in after {
      assert after.Keys + {trace[i].key} == after.Keys;
    }
  }

  /** Only a lookup that finds its key after expiry counts as a hit. */
  lemma ReplayHits(trace: Trace, n: nat, capacity: nat, ttl: Option<U64>, kind: PolicyKind)
    requires n < |trace|
    ensures var p := Replay(trace, n, capacity, ttl, kind);
            Replay(trace, n + 1, capacity, ttl, kind).hits ==
            p.hits + if trace[n].key in Expire(p.entries, ttl, trace[n].at) then 1 else 0
  {
  }

  lemma LookupHits(trace: Trace, run: seq<CacheStep>, n: nat, capacity: nat, ttl: Option<U64>, kind: PolicyKind)
    requires n <= |trace| && n <= |run|
    requires forall i | 0 <= i < n :: run[i].kept == LiveKeys(trace, capacity, ttl, kind, i)
    ensures RunHits(trace, run, n) == Replay(trace, n, capacity, ttl, kind).hits
  {
    for i := 0 to n
      invariant RunHits(trace, run, i) == Replay(trace, i, capacity, ttl, kind).hits
    {
      ReplayHits(trace, i, capacity, ttl, kind);
    }
  }

  /** Any replay that takes in every key it is asked for is bounded by Belady. */
  lemma BeladyBoundsEagerReplay(trace: Trace, capacity: nat, ttl: Option<U64>, kind: PolicyKind)
    requires TakesInAll(trace, capacity, ttl, kind)
    ensures Replay(trace, |trace|, capacity, ttl, kind).hits <= Hits(trace, capacity, |trace|)
  {
    var run := ShadowRun(trace, capacity, ttl, kind);
    forall i | 0 <= i < |run| ensures MandatoryStep(capacity, CacheBefore(run, i), trace[i].key, run[i]) {
      ShadowStepIsMandatory(trace, capacity, ttl, kind, capacity, i);
    }
    BeladyIsOptimal(trace, capacity, run, |trace|);
    LookupHits(trace, run, |trace|, capacity, ttl, kind);
  }

  lemma {:induction false} NoRoomNoHits(trace: Trace, n: nat, ttl: Option<U64>, kind: PolicyKind)
    requires n <= |trace|
    ensures Replay(trace, n, 0, ttl, kind).hits == 0
  {
    if n > 0 {
      NoRoomNoHits(trace, n - 1, ttl, kind);
      ReplayHits(trace, n - 1, 0, ttl, kind);
      WithinCapacity(trace, n - 1, 0, ttl, kind);
      ExpireShrinks(Replay(trace, n - 1, 0, ttl, kind).entries, ttl, trace[n - 1].at);
    }
  }

  /** Belady is the optimum the program calls it: on every trace, at every capacity and with
      any expiry, LRU, LFU and Random make at most as many hits. */
  lemma BeladyBoundsOnline(trace: Trace, capacity: nat, ttl: Option<U64>, kind: PolicyKind)
    requires kind != Hydra
    ensures Replay(trace, |trace|, capacity, ttl, kind).hits <= Hits(trace, capacity, |trace|)
  {
    if capacity == 0 {
      NoRoomNoHits(trace, |trace|, ttl, kind);
    } else {
      forall i | 0 <= i < |trace| ensures trace[i].key in Replay(trace, i + 1, capacity, ttl, kind).entries {
        WithinCapacity(trace, i, capacity, ttl, kind);
        AccessKeys(Replay(trace, i, capacity, ttl, kind), trace[i]);
      }
      BeladyBoundsEagerReplay(trace, capacity, ttl, kind);
    }
  }

  /** Hydra may refuse a key, so its bound is Belady with one more slot. */
  lemma BeladyBoundsHydra(trace: Trace, capacity: nat, ttl: Option<U64>)
    ensures Replay(trace, |trace|, capacity, ttl, Hydra).hits <= Hits(trace, capacity + 1, |trace|)
  {
    var run := ShadowRun(trace, capacity, ttl, Hydra);
    forall i | 0 <= i < |run| ensures MandatoryStep(capacity + 1, CacheBefore(run, i), trace[i].key, run[i]) {
      ShadowStepIsMandatory(trace, capacity, ttl, Hydra, capacity + 1, i);
    }
    BeladyIsOptimal(trace, capacity + 1, run, |trace|);
    LookupHits(trace, run, |trace|, capacity, ttl, Hydra);
  }
}
