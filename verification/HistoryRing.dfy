/** The console's bounded in-memory history: named series of points, recorded from snapshots,
    with cached byte accounting and three layers of eviction.
    Encoded names and points are given functions; numbers are real. */
module HistoryRing {
  import opened Words

  datatype SeriesKind = Counter | Gauge

  datatype Definition = Definition(name: string, path: string, kind: SeriesKind)

  const SERIES_DEFINITIONS: seq<Definition> := [
    Definition("replication.success", "replication.success_total", Counter),
    Definition("replication.failure", "replication.failure_total", Counter),
    Definition("replication.backpressure", "replication.backpressure_total", Counter),
    Definition("replication.under_replicated", "replication.under_replicated", Gauge),
    Definition("replication.repair_debt", "replication.repair_debt", Gauge),
    Definition("replication.zone_underspread", "replication.zone_underspread", Gauge),
    Definition("reshard.moves", "reshard.moves_inflight", Gauge),
    Definition("reshard.backfill_lag", "reshard.backfill_lag", Gauge),
    Definition("cache.entries", "cache.entries", Gauge),
    Definition("cache.hits", "cache.hits_total", Counter),
    Definition("cache.misses", "cache.misses_total", Counter),
    Definition("cache.loads", "cache.loads_total", Counter),
    Definition("cache.admission_queue", "cache.admission_queue_depth", Gauge),
    Definition("cache.admission_rejected", "cache.admission_rejected_total", Counter),
    Definition("consensus.apply_lag", "consensus.apply_lag", Gauge)
  ]

  datatype Point = Point(at: real, value: Option<real>, raw: Option<real>, missing: bool, reset: bool)

  /** One entry of the insertion-ordered map of series. */
  datatype Entry = Entry(name: string, points: seq<Point>)

  type SeriesMap = seq<Entry>

  datatype Limits = Limits(maxSeries: nat, maxPointsPerSeries: nat, maxTotalPoints: nat, maxBytes: nat)

  /** What a snapshot provides: its authority epoch and the finite numbers found at paths. */
  datatype Snapshot = Snapshot(epoch: Option<real>, capturedAt: real, readings: map<string, real>)

  // ---------------------------------------------------------------- the map of series

  function Find(series: SeriesMap, name: string): (i: nat)
    ensures i <= |series|
    ensures i < |series| ==> series[i].name == name
    ensures forall j | 0 <= j < i :: series[j].name != name
  {
    if series == [] || series[0].name == name then 0 else 1 + Find(series[1..], name)
  }

  function PointsOf(series: SeriesMap, name: string): seq<Point> {
    var i := Find(series, name);
    if i < |series| then series[i].points else []
  }

  /** Setting a key keeps its place if it is present and appends it otherwise. */
  function Put(series: SeriesMap, name: string, points: seq<Point>): SeriesMap {
    var i := Find(series, name);
    if i < |series| then series[i := Entry(name, points)] else series + [Entry(name, points)]
  }

  ghost predicate Distinct(series: SeriesMap) {
    forall i, j | 0 <= i < j < |series| :: series[i].name != series[j].name
  }

  function PointCount(series: SeriesMap): nat {
    if series == [] then 0 else PointCount(series[..|series| - 1]) + |series[|series| - 1].points|
  }

  lemma {:induction false} PointCountUpdate(series: SeriesMap, i: nat, e: Entry)
    requires i < |series|
    ensures PointCount(series[i := e]) == PointCount(series) - |series[i].points| + |e.points|
  {
    var front, last := series[..|series| - 1], |series| - 1;
    if i < last {
      PointCountUpdate(front, i, e);
      assert series[i := e][..last] == front[i := e];
    } else {
      assert series[i := e][..last] == front;
    }
  }

  // ---------------------------------------------------------------- serialization

  datatype Encoding = Encoding(name: string -> Bytes, point: Point -> Bytes)

  const COMMA: Bytes := [0x2c]
  const OPEN: Bytes := [0x5b]
  const CLOSE: Bytes := [0x5d]

  function PointsText(enc: Encoding, points: seq<Point>): Bytes {
    if points == [] then [] else
      var last := enc.point(points[|points| - 1]);
      if |points| == 1 then last else PointsText(enc, points[..|points| - 1]) + COMMA + last
  }

  function EntryText(enc: Encoding, e: Entry): Bytes {
    OPEN + enc.name(e.name) + COMMA + OPEN + PointsText(enc, e.points) + CLOSE + CLOSE
  }

  function EntriesText(enc: Encoding, series: SeriesMap): Bytes {
    if series == [] then [] else
      var last := EntryText(enc, series[|series| - 1]);
      if |series| == 1 then last else EntriesText(enc, series[..|series| - 1]) + COMMA + last
  }

  /** The serialized array of all series. */
  function Serialized(enc: Encoding, series: SeriesMap): Bytes {
    OPEN + EntriesText(enc, series) + CLOSE
  }

  // ---------------------------------------------------------------- recording

  function ReadingAt(snap: Snapshot, path: string): Option<real> {
    if path in snap.readings then Some(snap.readings[path]) else None
  }

  /** The point recorded for a reading, given the last retained point of its series. */
  function NextPoint(kind: SeriesKind, previous: Option<Point>, at: real, raw: Option<real>): Point {
    if kind == Gauge then Point(at, raw, raw, raw == None, false)
    else if raw == None || previous == None || previous.value.raw == None then Point(at, None, raw, raw == None, false)
    else if raw.value < previous.value.raw.value then Point(at, None, raw, false, true)
    else Point(at, Some(raw.value - previous.value.raw.value), raw, false, false)
  }

  function LastOf(points: seq<Point>): Option<Point> {
    if points == [] then None else Some(points[|points| - 1])
  }

  function RecordOne(series: SeriesMap, d: Definition, snap: Snapshot, maxSeries: nat): SeriesMap {
    if Find(series, d.name) == |series| && |series| >= maxSeries then series else
      var points := PointsOf(series, d.name);
      var point := NextPoint(d.kind, LastOf(points), snap.capturedAt, ReadingAt(snap, d.path));
      Put(series, d.name, points + [point])
  }

  /** Records the first `n` definitions. */
  function Record(defs: seq<Definition>, series: SeriesMap, snap: Snapshot, maxSeries: nat, n: nat): SeriesMap
    requires n <= |defs|
  {
    if n == 0 then series
    else RecordOne(Record(defs, series, snap, maxSeries, n - 1), defs[n - 1], snap, maxSeries)
  }

  // ---------------------------------------------------------------- eviction

  function Newest(points: seq<Point>, max: nat): seq<Point> {
    if |points| <= max then points else points[|points| - max..]
  }

  /** The first `n` series cut down to their newest points. */
  function Trimmed(series: SeriesMap, max: nat, n: nat): (r: SeriesMap)
    requires n <= |series|
    ensures |r| == |series|
    ensures forall i | 0 <= i < |r| ::
              r[i] == Entry(series[i].name, if i < n then Newest(series[i].points, max) else series[i].points)
  {
    seq(|series|, i requires 0 <= i < |series| =>
      Entry(series[i].name, if i < n then Newest(series[i].points, max) else series[i].points))
  }

  /** The series among the first `n` whose first point is oldest; the earliest one on a tie. */
  function Oldest(series: SeriesMap, n: nat): (r: Option<nat>)
    requires n <= |series|
    ensures r.Some? ==> r.value < n && series[r.value].points != []
  {
    if n == 0 then None else
      var best := Oldest(series, n - 1);
      var points := series[n - 1].points;
      if points != [] && (best == None || points[0].at < series[best.value].points[0].at) then Some(n - 1) else best
  }

  lemma {:induction false} OldestIsOldest(series: SeriesMap, n: nat)
    requires n <= |series|
    ensures var r := Oldest(series, n);
            if r == None then forall j | 0 <= j < n :: series[j].points == []
            else forall j | 0 <= j < n && series[j].points != [] ::
                   var a, b := series[r.value].points[0].at, series[j].points[0].at;
                   a < b || (a == b && r.value <= j)
  {
    if n > 0 {
      OldestIsOldest(series, n - 1);
    }
  }

  function DropFirst(series: SeriesMap, i: nat): (r: SeriesMap)
    requires i < |series| && series[i].points != []
    ensures PointCount(r) == PointCount(series) - 1
  {
    var e := Entry(series[i].name, series[i].points[1..]);
    PointCountUpdate(series, i, e);
    series[i := e]
  }

  /** Whether eviction still has to drop a point after the per-series cut. */
  predicate OverTotal(series: SeriesMap, limits: Limits) {
    PointCount(series) > limits.maxTotalPoints
  }

  predicate OverBytes(enc: Encoding, series: SeriesMap, limits: Limits) {
    |Serialized(enc, series)| > limits.maxBytes
  }

  function DropToTotal(series: SeriesMap, limits: Limits): SeriesMap
    decreases PointCount(series)
  {
    if !OverTotal(series, limits) then series else
      match Oldest(series, |series|)
      case None => series
      case Some(i) => DropToTotal(DropFirst(series, i), limits)
  }

  function DropToBytes(enc: Encoding, series: SeriesMap, limits: Limits): SeriesMap
    decreases PointCount(series)
  {
    if !OverBytes(enc, series, limits) then series else
      match Oldest(series, |series|)
      case None => series
      case Some(i) => DropToBytes(enc, DropFirst(series, i), limits)
  }

  function Evicted(enc: Encoding, series: SeriesMap, limits: Limits): SeriesMap {
    DropToBytes(enc, DropToTotal(Trimmed(series, limits.maxPointsPerSeries, |series|), limits), limits)
  }

  // ---------------------------------------------------------------- one ingest

  /** The definitions, encodings and options a history is created with. */
  datatype Setup = Setup(defs: seq<Definition>, enc: Encoding, limits: Limits, evict: bool)

  datatype Ring = Ring(epoch: Option<real>, startedAt: Option<real>, series: SeriesMap)

  predicate ClearsOn(ring: Ring, snap: Snapshot) {
    ring.epoch != None && snap.epoch != ring.epoch
  }

  /** What an ingest records onto: nothing, if the epoch changed. */
  function Base(ring: Ring, snap: Snapshot): SeriesMap {
    if ClearsOn(ring, snap) then [] else ring.series
  }

  function RecordAll(c: Setup, ring: Ring, snap: Snapshot): SeriesMap {
    Record(c.defs, Base(ring, snap), snap, c.limits.maxSeries, |c.defs|)
  }

  function Kept(c: Setup, series: SeriesMap): SeriesMap {
    if c.evict then Evicted(c.enc, series, c.limits) else series
  }

  function Ingested(c: Setup, ring: Ring, snap: Snapshot): Ring {
    var started := if ClearsOn(ring, snap) then None else ring.startedAt;
    Ring(snap.epoch,
         if started == None then Some(snap.capturedAt) else started,
         Kept(c, RecordAll(c, ring, snap)))
  }
}
