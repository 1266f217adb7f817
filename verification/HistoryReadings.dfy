/** What the retained points say: on every sequence of ingests they are the readings of the latest
    snapshots since the epoch last changed. */
module HistoryReadings {
  import opened Words
  import opened HistoryRing
  import opened HistoryProperties

  // ---------------------------------------------------------------- what the snapshots say

  /** Snapshot `j` starts over: the one before it had an epoch, and this one does not have the same. */
  ghost predicate StartsOver(run: seq<Snapshot>, j: nat)
    requires j < |run|
  {
    j > 0 && run[j - 1].epoch.Some? && run[j].epoch != run[j - 1].epoch
  }

  /** The first of the first `n` snapshots that belongs to the current stretch. */
  ghost function Since(run: seq<Snapshot>, n: nat): (s: nat)
    requires 0 < n <= |run|
    ensures s < n && (s > 0 ==> StartsOver(run, s))
    ensures forall j | s < j < n :: !StartsOver(run, j)
  {
    if n == 1 || StartsOver(run, n - 1) then n - 1 else Since(run, n - 1)
  }

  /** `raw` is what a snapshot reads at a path. */
  ghost predicate Reads(snap: Snapshot, path: string, raw: Option<real>) {
    (raw.Some? <==> path in snap.readings) && (raw.Some? ==> raw.value == snap.readings[path])
  }

  /** A gauge shows what was read. */
  ghost predicate ShowsGauge(p: Point, raw: Option<real>) {
    p.raw == raw && p.value == raw && (p.missing <==> raw == None) && !p.reset
  }

  /** A counter shows what it grew by since `previous`, a reset if it fell, and nothing without
      both readings. */
  ghost predicate ShowsCounter(p: Point, previous: Option<real>, raw: Option<real>) {
    p.raw == raw && (p.missing <==> raw == None) &&
    (p.reset <==> previous.Some? && raw.Some? && raw.value < previous.value) &&
    (p.value.Some? <==> previous.Some? && raw.Some? && raw.value >= previous.value) &&
    (p.value.Some? ==> previous.value + p.value.value == raw.value)
  }

  /** The reading of the snapshot before `j` that snapshot `j` is compared with: none if `j` starts
      over or the series was empty, because everything in it had been evicted. */
  ghost predicate ComparedWith(c: Setup, run: seq<Snapshot>, i: nat, j: nat, previous: Option<real>)
    requires i < |c.defs| && j < |run|
  {
    if j == 0 || StartsOver(run, j) || PointsOf(After(c, run, j).series, c.defs[i].name) == [] then previous == None
    else Reads(run[j - 1], c.defs[i].path, previous)
  }

  /** `p` is the point of definition `i` at snapshot `j`. */
  ghost predicate Shows(c: Setup, run: seq<Snapshot>, i: nat, j: nat, p: Point)
    requires i < |c.defs| && j < |run|
  {
    p.at == run[j].capturedAt && Reads(run[j], c.defs[i].path, p.raw) &&
    match c.defs[i].kind
    case Gauge => ShowsGauge(p, p.raw)
    case Counter => exists previous :: ComparedWith(c, run, i, j, previous) && ShowsCounter(p, previous, p.raw)
  }

  /** The points are those of the latest of the first `n` snapshots, one each, and none is older
      than the current stretch. */
  ghost predicate ShowsLatest(c: Setup, run: seq<Snapshot>, n: nat, i: nat, points: seq<Point>)
    requires i < |c.defs| && n <= |run|
  {
    (if n == 0 then points == [] else |points| <= n - Since(run, n)) &&
    forall k | 0 <= k < |points| :: Shows(c, run, i, n - |points| + k, points[k])
  }

  // ---------------------------------------------------------------- which series there are

  ghost predicate DistinctNames(defs: seq<Definition>) {
    forall i, j | 0 <= i < j < |defs| :: defs[i].name != defs[j].name
  }

  lemma ConsoleNamesAreDistinct()
    ensures DistinctNames(SERIES_DEFINITIONS)
  {
  }

  /** The series are those of the first definitions, in their order. */
  ghost predicate Lists(s: SeriesMap, defs: seq<Definition>, size: nat) {
    |s| == size <= |defs| && forall i | 0 <= i < size :: s[i].name == defs[i].name
  }

  lemma FindListed(s: SeriesMap, defs: seq<Definition>, i: nat)
    requires DistinctNames(defs) && Lists(s, defs, |s|) && i < |defs|
    ensures Find(s, defs[i].name) == Min(i, |s|)
    ensures PointsOf(s, defs[i].name) == if i < |s| then s[i].points else []
  {
  }

  /** The point that one definition adds. */
  ghost function Added(d: Definition, points: seq<Point>, snap: Snapshot): Point {
    NextPoint(d.kind, LastOf(points), snap.capturedAt, ReadingAt(snap, d.path))
  }

  lemma RecordOneListed(s: SeriesMap, defs: seq<Definition>, n: nat, snap: Snapshot, maxSeries: nat)
    requires DistinctNames(defs) && Lists(s, defs, |s|) && n < |defs| && |s| <= maxSeries
    requires |s| == Min(maxSeries, |defs|) || |s| == Min(maxSeries, n)
    ensures var r := RecordOne(s, defs[n], snap, maxSeries);
            r == if n < |s| then s[n := Entry(defs[n].name, s[n].points + [Added(defs[n], s[n].points, snap)])]
                 else if |s| < maxSeries then s + [Entry(defs[n].name, [Added(defs[n], [], snap)])]
                 else s
  {
    FindListed(s, defs, n);
    assert [] + [Added(defs[n], [], snap)] == [Added(defs[n], [], snap)];
  }

  ghost function PointsAt(s: SeriesMap, i: nat): seq<Point> {
    if i < |s| then s[i].points else []
  }

  /** After the first `n` definitions, each of them that has room got one more point. */
  ghost predicate RecordedTo(c: Setup, base: SeriesMap, snap: Snapshot, n: nat, s: SeriesMap)
    requires n <= |c.defs|
  {
    Lists(s, c.defs, if base == [] then Min(c.limits.maxSeries, n) else |base|) &&
    forall i | 0 <= i < |s| ::
      s[i].points == PointsAt(base, i) + if i < n then [Added(c.defs[i], PointsAt(base, i), snap)] else []
  }

  lemma RecordStep(c: Setup, base: SeriesMap, snap: Snapshot, n: nat, s: SeriesMap)
    requires DistinctNames(c.defs) && n < |c.defs|
    requires base != [] ==> Lists(base, c.defs, Min(c.limits.maxSeries, |c.defs|))
    requires RecordedTo(c, base, snap, n, s)
    ensures RecordedTo(c, base, snap, n + 1, RecordOne(s, c.defs[n], snap, c.limits.maxSeries))
  {
    hide RecordOne, NextPoint;
    RecordOneListed(s, c.defs, n, snap, c.limits.maxSeries);
  }

  lemma RecordListed(c: Setup, base: SeriesMap, snap: Snapshot)
    requires DistinctNames(c.defs)
    requires base != [] ==> Lists(base, c.defs, Min(c.limits.maxSeries, |c.defs|))
    ensures RecordedTo(c, base, snap, |c.defs|, Record(c.defs, base, snap, c.limits.maxSeries, |c.defs|))
  {
    hide RecordOne, NextPoint;
    for n := 0 to |c.defs|
      invariant RecordedTo(c, base, snap, n, Record(c.defs, base, snap, c.limits.maxSeries, n))
    {
      RecordStep(c, base, snap, n, Record(c.defs, base, snap, c.limits.maxSeries, n));
    }
  }

  lemma KeptCuts(c: Setup, s: SeriesMap)
    ensures Cut(Kept(c, s), s)
  {
    if c.evict {
      EvictedSpec(c.enc, s, c.limits);
    }
  }

  /** After an ingest the first definitions that have room are listed, each with a suffix of its
      earlier points and one more. */
  lemma IngestListed(c: Setup, ring: Ring, snap: Snapshot)
    requires DistinctNames(c.defs)
    requires ring.series != [] ==> Lists(ring.series, c.defs, Min(c.limits.maxSeries, |c.defs|))
    ensures var base, s := Base(ring, snap), Ingested(c, ring, snap).series;
            Lists(s, c.defs, Min(c.limits.maxSeries, |c.defs|)) &&
            forall i | 0 <= i < |s| ::
              IsSuffix(s[i].points, PointsAt(base, i) + [Added(c.defs[i], PointsAt(base, i), snap)])
  {
    hide Kept, Record, NextPoint;
    RecordListed(c, Base(ring, snap), snap);
    KeptCuts(c, RecordAll(c, ring, snap));
  }

  // ---------------------------------------------------------------- every run

  ghost predicate Listed(c: Setup, s: SeriesMap) {
    s == [] || Lists(s, c.defs, Min(c.limits.maxSeries, |c.defs|))
  }

  /** After the first ingest, the series are always those of the first definitions that have room. */
  lemma RunListed(c: Setup, run: seq<Snapshot>, n: nat)
    requires n <= |run| && DistinctNames(c.defs)
    ensures n > 0 ==> Lists(After(c, run, n).series, c.defs, Min(c.limits.maxSeries, |c.defs|))
    ensures Listed(c, After(c, run, n).series)
  {
    hide Ingested, Lists;
    for k := 0 to n
      invariant Listed(c, After(c, run, k).series)
      invariant k > 0 ==> Lists(After(c, run, k).series, c.defs, Min(c.limits.maxSeries, |c.defs|))
    {
      IngestListed(c, After(c, run, k), run[k]);
    }
  }

  lemma RunEpoch(c: Setup, run: seq<Snapshot>, n: nat)
    requires n < |run|
    ensures After(c, run, n).epoch == (if n == 0 then None else run[n - 1].epoch)
    ensures ClearsOn(After(c, run, n), run[n]) <==> StartsOver(run, n)
  {
  }

  /** The history dates from the snapshot that opened the current stretch. */
  lemma {:induction false} StartedWithTheStretch(c: Setup, run: seq<Snapshot>, n: nat)
    requires 0 < n <= |run|
    ensures After(c, run, n).startedAt == Some(run[Since(run, n)].capturedAt)
    ensures After(c, run, n).epoch == run[n - 1].epoch
  {
    hide Kept, RecordAll;
    RunEpoch(c, run, n - 1);
    if n > 1 {
      StartedWithTheStretch(c, run, n - 1);
    }
  }

  lemma AddedShows(c: Setup, run: seq<Snapshot>, n: nat, i: nat)
    requires n < |run| && i < |c.defs| && DistinctNames(c.defs)
    requires ShowsLatest(c, run, n, i, PointsOf(After(c, run, n).series, c.defs[i].name))
    ensures var points := if StartsOver(run, n) then [] else PointsOf(After(c, run, n).series, c.defs[i].name);
            Shows(c, run, i, n, Added(c.defs[i], points, run[n]))
  {
    hide Ingested, PointsOf, NextPoint;
    var was := PointsOf(After(c, run, n).series, c.defs[i].name);
    var points := if StartsOver(run, n) then [] else was;
    var d, last := c.defs[i], LastOf(points);
    var p := Added(d, points, run[n]);
    NextShows(d.kind, last, run[n].capturedAt, ReadingAt(run[n], d.path));
    if d.kind == Counter {
      var previous := if last == None then None else last.value.raw;
      if points != [] {
        assert Shows(c, run, i, n - 1, was[|was| - 1]);
      }
      assert ComparedWith(c, run, i, n, previous) && ShowsCounter(p, previous, p.raw);
    }
  }

  lemma NextShows(kind: SeriesKind, last: Option<Point>, at: real, raw: Option<real>)
    ensures var p := NextPoint(kind, last, at, raw);
            p.at == at && p.raw == raw &&
            if kind == Gauge then ShowsGauge(p, raw)
            else ShowsCounter(p, if last == None then None else last.value.raw, raw)
  {
  }

  lemma SuffixShows(c: Setup, run: seq<Snapshot>, n: nat, i: nat, a: seq<Point>, b: seq<Point>)
    requires 0 < n <= |run| && i < |c.defs| && ShowsLatest(c, run, n, i, b) && IsSuffix(a, b)
    ensures ShowsLatest(c, run, n, i, a)
  {
    hide Shows;
    forall k | 0 <= k < |a| ensures Shows(c, run, i, n - |a| + k, a[k]) {
      assert a[k] == b[|b| - |a| + k];
    }
  }

  lemma ExtendedShows(c: Setup, run: seq<Snapshot>, n: nat, i: nat, points: seq<Point>, p: Point)
    requires n < |run| && i < |c.defs| && Shows(c, run, i, n, p)
    requires if StartsOver(run, n) then points == [] else ShowsLatest(c, run, n, i, points)
    ensures ShowsLatest(c, run, n + 1, i, points + [p])
  {
    hide Shows;
    var longer := points + [p];
    forall k | 0 <= k < |longer| ensures Shows(c, run, i, n + 1 - |longer| + k, longer[k]) {
      if k < |points| {
        assert Shows(c, run, i, n - |points| + k, points[k]);
      }
    }
  }

  lemma ShowsNext(c: Setup, run: seq<Snapshot>, n: nat, i: nat)
    requires n < |run| && i < |c.defs| && DistinctNames(c.defs)
    requires ShowsLatest(c, run, n, i, PointsOf(After(c, run, n).series, c.defs[i].name))
    ensures ShowsLatest(c, run, n + 1, i, PointsOf(After(c, run, n + 1).series, c.defs[i].name))
  {
    hide Shows, NextPoint, Ingested, StartsOver;
    var ring, s := After(c, run, n), After(c, run, n + 1).series;
    RunListed(c, run, n);
    RunListed(c, run, n + 1);
    RunEpoch(c, run, n);
    IngestListed(c, ring, run[n]);
    FindListed(ring.series, c.defs, i);
    FindListed(s, c.defs, i);
    var base := PointsAt(Base(ring, run[n]), i);
    if i < |s| {
      AddedShows(c, run, n, i);
      ExtendedShows(c, run, n, i, base, Added(c.defs[i], base, run[n]));
      SuffixShows(c, run, n + 1, i, s[i].points, base + [Added(c.defs[i], base, run[n])]);
    }
  }

  /** On every run, the retained points of a definition are one each of the latest snapshots, none
      older than the last change of epoch: each has its snapshot's time and reading; a gauge shows the
      reading itself, a counter its growth since the reading before. */
  lemma PointsAreReadings(c: Setup, run: seq<Snapshot>, n: nat, i: nat)
    requires n <= |run| && i < |c.defs| && DistinctNames(c.defs)
    ensures ShowsLatest(c, run, n, i, PointsOf(After(c, run, n).series, c.defs[i].name))
    ensures i >= c.limits.maxSeries ==> PointsOf(After(c, run, n).series, c.defs[i].name) == []
  {
    hide ShowsLatest, Ingested;
    assert ShowsLatest(c, run, 0, i, PointsOf(After(c, run, 0).series, c.defs[i].name)) by { NothingToShow(c, run, i); }
    for k := 0 to n
      invariant ShowsLatest(c, run, k, i, PointsOf(After(c, run, k).series, c.defs[i].name))
    {
      ShowsNext(c, run, k, i);
    }
    RunListed(c, run, n);
    FindListed(After(c, run, n).series, c.defs, i);
  }

  lemma NothingToShow(c: Setup, run: seq<Snapshot>, i: nat)
    requires i < |c.defs|
    ensures ShowsLatest(c, run, 0, i, PointsOf(After(c, run, 0).series, c.defs[i].name))
  {
  }

  lemma IngestKeepsAll(c: Setup, ring: Ring, snap: Snapshot, i: nat)
    requires DistinctNames(c.defs) && !c.evict && i < Min(c.limits.maxSeries, |c.defs|) && Listed(c, ring.series)
    ensures |PointsAt(Ingested(c, ring, snap).series, i)| == |PointsAt(Base(ring, snap), i)| + 1
  {
    hide Record, NextPoint;
    RecordListed(c, Base(ring, snap), snap);
  }

  /** Without eviction nothing is forgotten: every snapshot of the current stretch has its point. */
  lemma {:induction false} AllRetained(c: Setup, run: seq<Snapshot>, n: nat, i: nat)
    requires 0 < n <= |run| && DistinctNames(c.defs) && !c.evict && i < Min(c.limits.maxSeries, |c.defs|)
    ensures |PointsOf(After(c, run, n).series, c.defs[i].name)| == n - Since(run, n)
  {
    hide Ingested, PointsOf, StartsOver;
    var ring := After(c, run, n - 1);
    RunListed(c, run, n - 1);
    RunListed(c, run, n);
    RunEpoch(c, run, n - 1);
    FindListed(ring.series, c.defs, i);
    FindListed(After(c, run, n).series, c.defs, i);
    IngestKeepsAll(c, ring, run[n - 1], i);
    if n > 1 {
      AllRetained(c, run, n - 1, i);
    }
  }

  lemma GrowingIsUnbroken(c: Setup, run: seq<Snapshot>, i: nat, j: nat, p: Point)
    requires i < |c.defs| && 0 < j < |run| && c.defs[i].kind == Counter && Shows(c, run, i, j, p)
    requires var path := c.defs[i].path;
             path in run[j - 1].readings && path in run[j].readings &&
             run[j - 1].readings[path] <= run[j].readings[path]
    ensures !p.missing && !p.reset
  {
    hide After;
    var previous :| ComparedWith(c, run, i, j, previous) && ShowsCounter(p, previous, p.raw);
  }

  /** On every run, over snapshots that are still retained and in which a counter was read and never
      fell, its recorded increments add up to the difference of the two outer readings. */
  lemma GrowthAddsUp(c: Setup, run: seq<Snapshot>, n: nat, i: nat, a: nat, b: nat)
    requires n <= |run| && i < |c.defs| && DistinctNames(c.defs) && c.defs[i].kind == Counter
    requires n - |PointsOf(After(c, run, n).series, c.defs[i].name)| <= a <= b < n
    requires forall j | a <= j <= b :: c.defs[i].path in run[j].readings
    requires forall j | a < j <= b :: run[j - 1].readings[c.defs[i].path] <= run[j].readings[c.defs[i].path]
    ensures var points, path := PointsOf(After(c, run, n).series, c.defs[i].name), c.defs[i].path;
            var from, to := a - (n - |points|), b - (n - |points|);
            (forall k | from < k <= to :: points[k].value.Some?) &&
            ValueSum(points, from + 1, to + 1) == run[b].readings[path] - run[a].readings[path]
  {
    hide After, PointsOf, ComparedWith, ShowsCounter;
    var points := PointsOf(After(c, run, n).series, c.defs[i].name);
    var o := n - |points|;
    PointsAreReadings(c, run, n, i);
    assert Shows(c, run, i, o + (a - o), points[a - o]) && Shows(c, run, i, o + (b - o), points[b - o]);
    forall k | a - o <= k <= b - o ensures !points[k].missing && (k > a - o ==> !points[k].reset) {
      var j := o + k;
      assert Shows(c, run, i, j, points[k]);
      if j > a {
        assert run[j - 1].readings[c.defs[i].path] <= run[j].readings[c.defs[i].path];
        GrowingIsUnbroken(c, run, i, j, points[k]);
      } else {
        FirstIsRead(c, run, i, j, points[k]);
      }
    }
    assert IsCounter(c.defs, c.defs[i].name);
    CounterIncrementsAddUp(c, run, n, c.defs[i].name, a - o, b - o);
  }

  lemma FirstIsRead(c: Setup, run: seq<Snapshot>, i: nat, j: nat, p: Point)
    requires i < |c.defs| && j < |run| && Shows(c, run, i, j, p) && c.defs[i].path in run[j].readings
    ensures !p.missing
  {
    hide After;
  }

  /** Taking in one more snapshot. */
  lemma OneMore(c: Setup, run: seq<Snapshot>, snap: Snapshot)
    ensures After(c, run + [snap], |run| + 1) == Ingested(c, After(c, run, |run|), snap)
  {
    hide Ingested;
    for k := 0 to |run|
      invariant After(c, run + [snap], k) == After(c, run, k)
    {
    }
  }
}
