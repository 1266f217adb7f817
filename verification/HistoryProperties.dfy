/** What the bounded history guarantees after every sequence of ingests. */
module HistoryProperties {
  import opened Words
  import opened HistoryRing

  // ---------------------------------------------------------------- eviction only cuts from the front

  ghost predicate IsSuffix(a: seq<Point>, b: seq<Point>) {
    |a| <= |b| && a == b[|b| - |a|..]
  }

  lemma SuffixTransitive(a: seq<Point>, b: seq<Point>, c: seq<Point>)
    requires IsSuffix(a, b) && IsSuffix(b, c)
    ensures IsSuffix(a, c)
  {
  }

  /** The same series in the same order, each cut from the front. */
  ghost predicate Cut(r: SeriesMap, s: SeriesMap) {
    |r| == |s| && forall i | 0 <= i < |s| :: r[i].name == s[i].name && IsSuffix(r[i].points, s[i].points)
  }

  lemma CutTransitive(a: SeriesMap, b: SeriesMap, c: SeriesMap)
    requires Cut(a, b) && Cut(b, c)
    ensures Cut(a, c)
  {
    forall i | 0 <= i < |a| ensures IsSuffix(a[i].points, c[i].points) {
      SuffixTransitive(a[i].points, b[i].points, c[i].points);
    }
  }

  /** Series `i` has the oldest first point, and no earlier series has one as old. */
  ghost predicate HasOldest(s: SeriesMap, i: nat) {
    i < |s| && s[i].points != [] &&
    (forall j | 0 <= j < |s| && s[j].points != [] :: s[i].points[0].at <= s[j].points[0].at) &&
    (forall j | 0 <= j < i && s[j].points != [] :: s[i].points[0].at < s[j].points[0].at)
  }

  /** Dropping the oldest point of `before`, which is over a limit, leaves `r`. */
  ghost predicate DueDrop(enc: Encoding, before: SeriesMap, r: SeriesMap, limits: Limits) {
    (PointCount(before) > limits.maxTotalPoints || |Serialized(enc, before)| > limits.maxBytes) &&
    exists i: nat :: HasOldest(before, i) && r == before[i := Entry(before[i].name, before[i].points[1..])]
  }

  lemma DropIsDue(enc: Encoding, s: SeriesMap, limits: Limits)
    requires OverTotal(s, limits) || OverBytes(enc, s, limits)
    requires Oldest(s, |s|).Some?
    ensures DueDrop(enc, s, DropFirst(s, Oldest(s, |s|).value), limits)
  {
    hide PointCount, Serialized;
    OldestIsOldest(s, |s|);
    hide Oldest;
    assert HasOldest(s, Oldest(s, |s|).value);
  }

  /** Every link of the chain drops the oldest point of a history that is over a limit. */
  ghost predicate DropChain(enc: Encoding, chain: seq<SeriesMap>, limits: Limits) {
    chain != [] && forall i | 0 <= i < |chain| - 1 :: DueDrop(enc, chain[i], chain[i + 1], limits)
  }

  ghost predicate Leads(enc: Encoding, chain: seq<SeriesMap>, s: SeriesMap, r: SeriesMap, limits: Limits) {
    DropChain(enc, chain, limits) && chain[0] == s && chain[|chain| - 1] == r
  }

  lemma Prepend(enc: Encoding, s: SeriesMap, chain: seq<SeriesMap>, r: SeriesMap, limits: Limits)
    requires chain != [] && DueDrop(enc, s, chain[0], limits) && Leads(enc, chain, chain[0], r, limits)
    ensures Leads(enc, [s] + chain, s, r, limits)
  {
    hide DueDrop;
    var longer := [s] + chain;
    forall i | 0 <= i < |longer| - 1
      ensures DueDrop(enc, longer[i], longer[i + 1], limits)
    {
      if i > 0 {
        var before := i - 1;
        assert DueDrop(enc, chain[before], chain[before + 1], limits);
      }
    }
  }

  lemma Join(enc: Encoding, a: seq<SeriesMap>, b: seq<SeriesMap>, s: SeriesMap, m: SeriesMap, r: SeriesMap, limits: Limits)
    requires Leads(enc, a, s, m, limits) && Leads(enc, b, m, r, limits)
    ensures Leads(enc, a + b[1..], s, r, limits)
  {
    hide DueDrop;
    var all := a + b[1..];
    forall i | 0 <= i < |all| - 1
      ensures DueDrop(enc, all[i], all[i + 1], limits)
    {
      if i < |a| - 1 {
        assert DueDrop(enc, a[i], a[i + 1], limits);
      } else {
        var at := i - (|a| - 1);
        assert DueDrop(enc, b[at], b[at + 1], limits);
        assert all[i] == b[at] && all[i + 1] == b[at + 1];
      }
    }
  }

  lemma DropCuts(enc: Encoding, s: SeriesMap, r: SeriesMap, limits: Limits)
    requires DueDrop(enc, s, r, limits)
    ensures Cut(r, s) && PointCount(r) + 1 == PointCount(s)
  {
    var i: nat :| HasOldest(s, i) && r == s[i := Entry(s[i].name, s[i].points[1..])];
    PointCountUpdate(s, i, Entry(s[i].name, s[i].points[1..]));
  }

  /** Along a chain the history is cut from the front, one point at a time. */
  lemma ChainCuts(enc: Encoding, chain: seq<SeriesMap>, limits: Limits, i: nat)
    requires DropChain(enc, chain, limits) && i < |chain|
    ensures Cut(chain[i], chain[0]) && PointCount(chain[i]) + i == PointCount(chain[0])
  {
    for k := 0 to i
      invariant Cut(chain[k], chain[0]) && PointCount(chain[k]) + k == PointCount(chain[0])
    {
      var before, after := chain[k], chain[k + 1];
      assert DueDrop(enc, before, after, limits);
      DropCuts(enc, before, after, limits);
      CutTransitive(after, before, chain[0]);
    }
  }

  lemma {:induction false} DropToTotalChain(enc: Encoding, s: SeriesMap, limits: Limits) returns (chain: seq<SeriesMap>)
    ensures var r := DropToTotal(s, limits);
            Leads(enc, chain, s, r, limits) && PointCount(r) <= limits.maxTotalPoints
    decreases PointCount(s)
  {
    chain := [s];
    if OverTotal(s, limits) {
      NonEmptyHasOldest(s);
      var s' := DropFirst(s, Oldest(s, |s|).value);
      DropIsDue(enc, s, limits);
      var rest := DropToTotalChain(enc, s', limits);
      Prepend(enc, s, rest, DropToTotal(s', limits), limits);
      chain := [s] + rest;
    }
  }

  lemma {:induction false} AllEmpty(s: SeriesMap)
    requires forall j | 0 <= j < |s| :: s[j].points == []
    ensures PointCount(s) == 0
  {
    if s != [] {
      AllEmpty(s[..|s| - 1]);
    }
  }

  lemma NonEmptyHasOldest(s: SeriesMap)
    ensures Oldest(s, |s|) == None ==> PointCount(s) == 0
  {
    OldestIsOldest(s, |s|);
    if Oldest(s, |s|) == None {
      AllEmpty(s);
    }
  }

  lemma {:induction false} DropToBytesStops(enc: Encoding, s: SeriesMap, limits: Limits)
    ensures var r := DropToBytes(enc, s, limits);
            !OverBytes(enc, r, limits) || PointCount(r) == 0
    decreases PointCount(s)
  {
    NonEmptyHasOldest(s);
    if OverBytes(enc, s, limits) && Oldest(s, |s|).Some? {
      DropToBytesStops(enc, DropFirst(s, Oldest(s, |s|).value), limits);
    }
  }

  lemma {:induction false} DropToBytesChain(enc: Encoding, s: SeriesMap, limits: Limits) returns (chain: seq<SeriesMap>)
    ensures Leads(enc, chain, s, DropToBytes(enc, s, limits), limits)
    decreases PointCount(s)
  {
    chain := [s];
    if OverBytes(enc, s, limits) && Oldest(s, |s|).Some? {
      var s' := DropFirst(s, Oldest(s, |s|).value);
      DropIsDue(enc, s, limits);
      var rest := DropToBytesChain(enc, s', limits);
      Prepend(enc, s, rest, DropToBytes(enc, s', limits), limits);
      chain := [s] + rest;
    }
  }

  ghost predicate ShortSeries(s: SeriesMap, max: nat) {
    forall i | 0 <= i < |s| :: |s[i].points| <= max
  }

  ghost predicate WithinLimits(enc: Encoding, s: SeriesMap, limits: Limits) {
    ShortSeries(s, limits.maxPointsPerSeries) && PointCount(s) <= limits.maxTotalPoints &&
    (|Serialized(enc, s)| <= limits.maxBytes || PointCount(s) == 0)
  }

  lemma TrimmedSpec(s: SeriesMap, max: nat)
    ensures var r := Trimmed(s, max, |s|);
            Cut(r, s) && ShortSeries(r, max) && forall i | 0 <= i < |s| :: |r[i].points| == Min(|s[i].points|, max)
  {
  }

  lemma CutStaysShort(r: SeriesMap, s: SeriesMap, max: nat)
    requires Cut(r, s) && ShortSeries(s, max)
    ensures ShortSeries(r, max)
  {
  }

  /** From the trimmed history to the evicted one, drop by drop. */
  lemma EvictionChain(enc: Encoding, s: SeriesMap, limits: Limits) returns (chain: seq<SeriesMap>)
    ensures Leads(enc, chain, Trimmed(s, limits.maxPointsPerSeries, |s|), Evicted(enc, s, limits), limits)
    ensures !OverTotal(Evicted(enc, s, limits), limits)
  {
    hide DueDrop, DropToTotal, DropToBytes;
    var a := Trimmed(s, limits.maxPointsPerSeries, |s|);
    var b := DropToTotal(a, limits);
    var first := DropToTotalChain(enc, a, limits);
    var second := DropToBytesChain(enc, b, limits);
    Join(enc, first, second, a, b, DropToBytes(enc, b, limits), limits);
    ChainCuts(enc, second, limits, |second| - 1);
    chain := first + second[1..];
  }

  lemma EvictedCuts(enc: Encoding, s: SeriesMap, limits: Limits)
    ensures Cut(Evicted(enc, s, limits), s)
    ensures ShortSeries(Evicted(enc, s, limits), limits.maxPointsPerSeries)
    ensures !OverTotal(Evicted(enc, s, limits), limits)
  {
    hide DueDrop, Evicted;
    var a, c := Trimmed(s, limits.maxPointsPerSeries, |s|), Evicted(enc, s, limits);
    var chain := EvictionChain(enc, s, limits);
    TrimmedSpec(s, limits.maxPointsPerSeries);
    ChainCuts(enc, chain, limits, |chain| - 1);
    CutTransitive(c, a, s);
    CutStaysShort(c, a, limits.maxPointsPerSeries);
  }

  /** Eviction meets all three limits, unless only the empty shell is too large, and it cuts
      every series from the front. */
  lemma EvictedSpec(enc: Encoding, s: SeriesMap, limits: Limits)
    ensures WithinLimits(enc, Evicted(enc, s, limits), limits)
    ensures Cut(Evicted(enc, s, limits), s)
  {
    EvictedCuts(enc, s, limits);
    DropToBytesStops(enc, DropToTotal(Trimmed(s, limits.maxPointsPerSeries, |s|), limits), limits);
  }

  /** Beyond the per-series cut every single dropped point was due: from the trimmed history the
      oldest points go one by one, each while a limit is exceeded, and dropping stops at the first
      history within the limits. */
  lemma EvictionIsMinimal(enc: Encoding, s: SeriesMap, limits: Limits) returns (chain: seq<SeriesMap>)
    ensures var a, r := Trimmed(s, limits.maxPointsPerSeries, |s|), Evicted(enc, s, limits);
            Cut(a, s) && (forall i | 0 <= i < |s| :: |a[i].points| == Min(|s[i].points|, limits.maxPointsPerSeries)) &&
            Leads(enc, chain, a, r, limits) && |chain| == PointCount(a) - PointCount(r) + 1 &&
            (forall i | 0 <= i < |chain| :: Cut(chain[i], a)) &&
            (forall i | 0 <= i < |chain| - 1 :: !WithinLimits(enc, chain[i], limits)) && WithinLimits(enc, r, limits)
  {
    hide Evicted;
    var a := Trimmed(s, limits.maxPointsPerSeries, |s|);
    TrimmedSpec(s, limits.maxPointsPerSeries);
    chain := EvictionChain(enc, s, limits);
    EvictedSpec(enc, s, limits);
    forall i | 0 <= i < |chain|
      ensures Cut(chain[i], a) && PointCount(chain[i]) == PointCount(a) - i
    {
      ChainCuts(enc, chain, limits, i);
    }
    forall i | 0 <= i < |chain| - 1
      ensures !WithinLimits(enc, chain[i], limits)
    {
      DueIsOver(enc, chain[i], chain[i + 1], limits);
    }
    ChainCuts(enc, chain, limits, |chain| - 1);
  }

  lemma DueIsOver(enc: Encoding, before: SeriesMap, r: SeriesMap, limits: Limits)
    requires DueDrop(enc, before, r, limits)
    ensures !WithinLimits(enc, before, limits)
  {
    DropCuts(enc, before, r, limits);
  }

  // ---------------------------------------------------------------- series by name

  lemma {:induction false} CutByName(r: SeriesMap, s: SeriesMap, name: string)
    requires Cut(r, s)
    ensures Find(r, name) == Find(s, name)
    ensures IsSuffix(PointsOf(r, name), PointsOf(s, name))
  {
    if s != [] && s[0].name != name {
      forall i | 0 <= i < |s| - 1 ensures r[1..][i].name == s[1..][i].name && IsSuffix(r[1..][i].points, s[1..][i].points) {
        assert r[i + 1].name == s[i + 1].name;
      }
      CutByName(r[1..], s[1..], name);
    }
  }

  lemma {:induction false} FindAfterUpdate(series: SeriesMap, i: nat, e: Entry, name: string)
    requires i < |series| && series[i].name == e.name
    ensures Find(series[i := e], name) == Find(series, name)
  {
    if i > 0 {
      assert series[i := e][1..] == series[1..][i - 1 := e];
      FindAfterUpdate(series[1..], i - 1, e, name);
    } else {
      assert series[i := e][1..] == series[1..];
    }
  }

  lemma {:induction false} FindAfterAppend(series: SeriesMap, e: Entry, name: string)
    ensures Find(series + [e], name) ==
            if Find(series, name) < |series| || e.name == name then Find(series, name) else |series| + 1
  {
    if series != [] && series[0].name != name {
      assert (series + [e])[1..] == series[1..] + [e];
      FindAfterAppend(series[1..], e, name);
    }
  }

  lemma PutThenGet(series: SeriesMap, name: string, points: seq<Point>, other: string)
    ensures PointsOf(Put(series, name, points), other) == if other == name then points else PointsOf(series, other)
  {
    var i := Find(series, name);
    if i < |series| {
      FindAfterUpdate(series, i, Entry(name, points), other);
    } else {
      FindAfterAppend(series, Entry(name, points), other);
    }
  }

  // ---------------------------------------------------------------- recording only appends

  /** Consecutive counter points: the value is the raw difference, or null after a gap or a reset. */
  ghost predicate Link(p: Point, q: Point) {
    q.missing == (q.raw == None) &&
    (if p.raw == None || q.raw == None then q.value == None && !q.reset
     else if q.raw.value < p.raw.value then q.value == None && q.reset
     else q.value == Some(q.raw.value - p.raw.value) && !q.reset)
  }

  ghost predicate Linked(points: seq<Point>) {
    (forall i | 0 <= i < |points| :: points[i].missing == (points[i].raw == None)) &&
    (forall i | 0 < i < |points| :: Link(points[i - 1], points[i]))
  }

  lemma LinkedSuffix(a: seq<Point>, b: seq<Point>)
    requires IsSuffix(a, b) && Linked(b)
    ensures Linked(a)
  {
    var d := |b| - |a|;
    forall i | 0 < i < |a| ensures Link(a[i - 1], a[i]) {
      assert a[i] == b[d + i] && a[i - 1] == b[d + i - 1];
    }
  }

  /** A name all of whose definitions are counters. */
  ghost predicate IsCounter(defs: seq<Definition>, name: string) {
    forall i | 0 <= i < |defs| && defs[i].name == name :: defs[i].kind == Counter
  }

  ghost predicate Grows(before: seq<Point>, after: seq<Point>, counter: bool) {
    before <= after && (counter && Linked(before) ==> Linked(after))
  }

  lemma RecordOneSpec(series: SeriesMap, d: Definition, snap: Snapshot, maxSeries: nat, name: string)
    ensures Grows(PointsOf(series, name), PointsOf(RecordOne(series, d, snap, maxSeries), name),
                  d.name == name ==> d.kind == Counter)
  {
    var points := PointsOf(series, d.name);
    var point := NextPoint(d.kind, LastOf(points), snap.capturedAt, ReadingAt(snap, d.path));
    PutThenGet(series, d.name, points + [point], name);
  }

  lemma RecordSpec(defs: seq<Definition>, series: SeriesMap, snap: Snapshot, maxSeries: nat, n: nat, name: string)
    requires n <= |defs|
    ensures Grows(PointsOf(series, name), PointsOf(Record(defs, series, snap, maxSeries, n), name), IsCounter(defs, name))
  {
    for i := 0 to n
      invariant Grows(PointsOf(series, name), PointsOf(Record(defs, series, snap, maxSeries, i), name), IsCounter(defs, name))
    {
      RecordOneSpec(Record(defs, series, snap, maxSeries, i), defs[i], snap, maxSeries, name);
    }
  }

  // ---------------------------------------------------------------- runs

  /** The history after the first `n` snapshots. */
  ghost function After(c: Setup, run: seq<Snapshot>, n: nat): Ring
    requires n <= |run|
  {
    if n == 0 then Ring(None, None, []) else Ingested(c, After(c, run, n - 1), run[n - 1])
  }

  lemma KeptByName(c: Setup, s: SeriesMap, name: string)
    ensures IsSuffix(PointsOf(Kept(c, s), name), PointsOf(s, name))
  {
    if c.evict {
      EvictedSpec(c.enc, s, c.limits);
      CutByName(Evicted(c.enc, s, c.limits), s, name);
    }
  }

  lemma IngestLinks(c: Setup, ring: Ring, snap: Snapshot, name: string)
    requires IsCounter(c.defs, name) && Linked(PointsOf(Base(ring, snap), name))
    ensures Linked(PointsOf(Ingested(c, ring, snap).series, name))
  {
    RecordSpec(c.defs, Base(ring, snap), snap, c.limits.maxSeries, |c.defs|, name);
    KeptByName(c, RecordAll(c, ring, snap), name);
    LinkedSuffix(PointsOf(Ingested(c, ring, snap).series, name), PointsOf(RecordAll(c, ring, snap), name));
  }

  lemma CountersStayLinked(c: Setup, run: seq<Snapshot>, n: nat, name: string)
    requires n <= |run| && IsCounter(c.defs, name)
    ensures Linked(PointsOf(After(c, run, n).series, name))
  {
    hide Ingested, IsCounter, Linked, PointsOf;
    NothingIsLinked(c, run, name);
    for i := 0 to n
      invariant Linked(PointsOf(After(c, run, i).series, name))
    {
      LinkedNext(c, run, i, name);
    }
  }

  lemma NothingIsLinked(c: Setup, run: seq<Snapshot>, name: string)
    ensures Linked(PointsOf(After(c, run, 0).series, name))
  {
  }

  lemma LinkedNext(c: Setup, run: seq<Snapshot>, i: nat, name: string)
    requires i < |run| && IsCounter(c.defs, name) && Linked(PointsOf(After(c, run, i).series, name))
    ensures Linked(PointsOf(After(c, run, i + 1).series, name))
  {
    hide Ingested, IsCounter;
    IngestLinks(c, After(c, run, i), run[i], name);
    assert After(c, run, i + 1) == Ingested(c, After(c, run, i), run[i]);
  }

  /** The sum of the values of points `i` to `j - 1`, all of which have one. */
  ghost function ValueSum(points: seq<Point>, i: nat, j: nat): real
    requires i <= j <= |points|
    requires forall k | i <= k < j :: points[k].value.Some?
    decreases j
  {
    if i == j then 0.0 else ValueSum(points, i, j - 1) + points[j - 1].value.value
  }

  /** A stretch of samples without a missing one or a reset after its first. */
  ghost predicate Unbroken(points: seq<Point>, i: nat, j: nat) {
    i <= j < |points| && !points[i].missing &&
    forall k | i < k <= j :: !points[k].missing && !points[k].reset
  }

  lemma {:induction false} Telescopes(points: seq<Point>, i: nat, j: nat)
    requires Linked(points) && Unbroken(points, i, j)
    ensures points[i].raw.Some? && points[j].raw.Some?
    ensures forall k | i + 1 <= k < j + 1 :: points[k].value.Some?
    ensures ValueSum(points, i + 1, j + 1) == points[j].raw.value - points[i].raw.value
    decreases j
  {
    if i < j {
      Telescopes(points, i, j - 1);
      assert Link(points[j - 1], points[j]);
    }
  }

  /** On every run, whatever was evicted, the increments of an unbroken stretch of a counter
      add up to the difference of its raw end points. */
  lemma CounterIncrementsAddUp(c: Setup, run: seq<Snapshot>, n: nat, name: string, i: nat, j: nat)
    requires n <= |run| && IsCounter(c.defs, name)
    requires Unbroken(PointsOf(After(c, run, n).series, name), i, j)
    ensures var points := PointsOf(After(c, run, n).series, name);
            points[i].raw.Some? && points[j].raw.Some? &&
            (forall k | i + 1 <= k < j + 1 :: points[k].value.Some?) &&
            ValueSum(points, i + 1, j + 1) == points[j].raw.value - points[i].raw.value
  {
    CountersStayLinked(c, run, n, name);
    Telescopes(PointsOf(After(c, run, n).series, name), i, j);
  }

  /** After every ingest with eviction on, the history is within its limits. */
  lemma HistoryIsBounded(c: Setup, run: seq<Snapshot>, n: nat)
    requires 0 < n <= |run| && c.evict
    ensures WithinLimits(c.enc, After(c, run, n).series, c.limits)
  {
    EvictedSpec(c.enc, RecordAll(c, After(c, run, n - 1), run[n - 1]), c.limits);
  }
}
