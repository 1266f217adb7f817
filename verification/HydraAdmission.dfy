/** Hydra's frequency-aware admission: which missed keys get in, and which entries are safe. */
module HydraAdmission {
  import opened Words
  import opened KeyOrder
  import opened PolicyReplay
  import opened Belady
  import opened OnlineBounds

  // ---------------------------------------------------------------- the score

  /** A score falls with age, rises with hits, and is at most eight per hit plus 32. */
  lemma ScoreShape(now: U64, later: U64, a: EntryMeta, b: EntryMeta)
    requires now <= later && a.lastSeenAt == b.lastSeenAt && a.hits <= b.hits
    ensures HydraScore(later, a) <= HydraScore(now, b)
    ensures HydraScore(now, b) <= 8 * b.hits + 32
  {
    var young, old_ := SaturatingSub(now, a.lastSeenAt), SaturatingSub(later, a.lastSeenAt);
    QuotientMonotone(SaturatingMul(a.hits, 8), SaturatingMul(b.hits, 8), 1 + old_ / 4);
    QuotientAntitone(SaturatingMul(b.hits, 8), 1 + young / 4, 1 + old_ / 4);
    QuotientAntitone(SaturatingMul(b.hits, 8), 1, 1 + young / 4);
  }

  /** The largest observation count whose candidate score still separates it from every entry
      with fewer than half as many hits; beyond it both scores saturate. */
  const SEPARATION_LIMIT: nat := 0x3fff_ffff_ffff_fff8

  ghost predicate BeatsWeakEntries(observed: U64) {
    forall now: U64, entry: EntryMeta | 2 * entry.hits < observed :: HydraScore(now, entry) < CandidateScore(observed)
  }

  /** A candidate outranks every entry with fewer than half its observations exactly up to
      the saturation limit. */
  lemma SeparationIsExact(observed: U64)
    ensures BeatsWeakEntries(observed) <==> observed <= SEPARATION_LIMIT
  {
    hide HydraScore;
    if observed <= SEPARATION_LIMIT {
      forall now: U64, entry: EntryMeta | 2 * entry.hits < observed
        ensures HydraScore(now, entry) < CandidateScore(observed)
      {
        ScoreShape(now, now, entry, entry);
      }
    } else {
      SaturatedEntry();
      var entry := EntryMeta(0, 0, 0x1fff_ffff_ffff_fffc);
      assert 2 * entry.hits < observed && CandidateScore(observed) == U64_MAX;
    }
  }

  lemma SaturatedEntry()
    ensures HydraScore(0, EntryMeta(0, 0, 0x1fff_ffff_ffff_fffc)) == U64_MAX
  {
  }

  /** Against an entry seen once, a first-seen key is refused exactly for three ticks. */
  lemma FreshnessIsExact(age: U64)
    ensures CandidateScore(1) <= HydraScore(age, EntryMeta(0, 0, 1)) <==> age <= 3
  {
    if age >= 4 {
      ScoreShape(4, age, EntryMeta(0, 0, 1), EntryMeta(0, 0, 1));
    }
  }

  // ---------------------------------------------------------------- admission on a run

  /** Occurrences of a key among the first `n` events. */
  function Occurrences(trace: Trace, n: nat, key: Key): (c: nat)
    requires n <= |trace|
    ensures c <= n
  {
    if n == 0 then 0 else
      Occurrences(trace, n - 1, key) + if trace[n - 1].key == key then 1 else 0
  }

  ghost predicate CountsMatch(trace: Trace, n: nat, p: Policy)
    requires n <= |trace|
  {
    forall key ::
      (key in p.observed <==> Occurrences(trace, n, key) > 0) &&
      (key in p.observed ==> p.observed[key] == Min(Occurrences(trace, n, key), U64_MAX))
  }

  ghost predicate EveryEntryHit(p: Policy) {
    forall key | key in p.entries :: p.entries[key].hits >= 1
  }

  lemma AccessKeepsHits(p: Policy, event: TraceEvent)
    requires EveryEntryHit(p)
    ensures EveryEntryHit(Access(p, event))
  {
  }

  lemma AccessKeepsCounts(trace: Trace, n: nat, p: Policy)
    requires n < |trace| && CountsMatch(trace, n, p)
    ensures CountsMatch(trace, n + 1, Access(p, trace[n]))
  {
    var observed := p.observed[trace[n].key := ObservedAfter(p.observed, trace[n].key)];
    assert Access(p, trace[n]).observed == observed;
  }

  /** The observation counter counts occurrences, and every entry has been hit. */
  lemma RunCounts(trace: Trace, n: nat, capacity: nat, ttl: Option<U64>, kind: PolicyKind)
    requires n <= |trace|
    ensures CountsMatch(trace, n, Replay(trace, n, capacity, ttl, kind))
    ensures EveryEntryHit(Replay(trace, n, capacity, ttl, kind))
  {
    for i := 0 to n
      invariant CountsMatch(trace, i, Replay(trace, i, capacity, ttl, kind))
      invariant EveryEntryHit(Replay(trace, i, capacity, ttl, kind))
    {
      var p := Replay(trace, i, capacity, ttl, kind);
      AccessKeepsHits(p, trace[i]);
      AccessKeepsCounts(trace, i, p);
    }
  }

  lemma CountOnAccess(trace: Trace, n: nat, capacity: nat, ttl: Option<U64>, kind: PolicyKind)
    requires n < |trace|
    ensures ObservedAfter(Replay(trace, n, capacity, ttl, kind).observed, trace[n].key)
            == Min(Occurrences(trace, n + 1, trace[n].key), U64_MAX)
  {
    RunCounts(trace, n, capacity, ttl, kind);
  }

  /** On every run, a missed key is taken in whenever some resident entry has fewer than half
      as many hits as the key has occurrences so far. */
  lemma FrequentKeyIsAdmitted(trace: Trace, n: nat, capacity: nat, ttl: Option<U64>, weak: Key)
    requires n < |trace|
    requires var live := Expire(Replay(trace, n, capacity, ttl, Hydra).entries, ttl, trace[n].at);
             weak in live && 2 * live[weak].hits < Occurrences(trace, n + 1, trace[n].key)
    requires Occurrences(trace, n + 1, trace[n].key) <= SEPARATION_LIMIT
    ensures trace[n].key in Replay(trace, n + 1, capacity, ttl, Hydra).entries
  {
    var p := Replay(trace, n, capacity, ttl, Hydra);
    var live := Expire(p.entries, ttl, trace[n].at);
    var observed := ObservedAfter(p.observed, trace[n].key);
    CountOnAccess(trace, n, capacity, ttl, Hydra);
    SeparationIsExact(observed);
    WeakestIsVictim(live, trace[n], weak);
    assert !Refuses(Hydra, live, trace[n], observed);
    assert capacity > 0 by {
      WithinCapacity(trace, n, capacity, ttl, Hydra);
      ExpireShrinks(p.entries, ttl, trace[n].at);
      assert weak in live.Keys;
    }
  }

  lemma WeakestIsVictim(live: Entries, event: TraceEvent, k: Key)
    requires k in live
    ensures var v := Victim(Hydra, live, event);
            v in live && HydraScore(event.at, live[v]) <= HydraScore(event.at, live[k])
  {
    VictimIsLeast(Hydra, live, event);
    var v, ranks := Victim(Hydra, live, event), RankAll(live, Hydra, event.at);
    assert k != v ==> GoesBefore(ranks, v, k);
  }

  /** On every run, a key seen for the first time never displaces an entry that was last seen
      at most three ticks ago. */
  lemma FreshKeySparesRecentEntries(trace: Trace, n: nat, capacity: nat, ttl: Option<U64>, k: Key)
    requires n < |trace| && Occurrences(trace, n, trace[n].key) == 0
    requires var live := Expire(Replay(trace, n, capacity, ttl, Hydra).entries, ttl, trace[n].at);
             k in live && SaturatingSub(trace[n].at, live[k].lastSeenAt) <= 3
    ensures k in Replay(trace, n + 1, capacity, ttl, Hydra).entries
  {
    var p := Replay(trace, n, capacity, ttl, Hydra);
    var live := Expire(p.entries, ttl, trace[n].at);
    CountOnAccess(trace, n, capacity, ttl, Hydra);
    RunCounts(trace, n, capacity, ttl, Hydra);
    assert live[k].hits >= 1;
    assert HydraScore(trace[n].at, live[k]) >= 37;
  }
}
