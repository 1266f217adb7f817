/** The history object itself, with its cached lengths and its eviction loops. */
module SnapshotHistory {
  import opened Words
  import opened HistoryRing
  import opened HistoryProperties
  import opened HistoryReadings

  lemma PointCountGrows(series: SeriesMap, name: string, points: seq<Point>, point: Point)
    requires points == PointsOf(series, name)
    ensures PointCount(Put(series, name, points + [point])) == PointCount(series) + 1
  {
    var i := Find(series, name);
    if i < |series| {
      PointCountUpdate(series, i, Entry(name, points + [point]));
    } else {
      var longer := series + [Entry(name, points + [point])];
      assert longer[..|longer| - 1] == series;
    }
  }

  class History {
    const setup: Setup
    var epoch: Option<real>
    var startedAt: Option<real>
    var series: SeriesMap
    var encodedPointBytes: map<Point, nat>
    var encodedNameBytes: map<string, nat>
    var byteSize: nat
    var totalPoints: nat
    /** The snapshots taken in so far. */
    ghost var run: seq<Snapshot>

    function Value(): Ring
      reads this
    {
      Ring(epoch, startedAt, series)
    }

    /** The cached lengths are the real ones, and the point counter counts the points. */
    ghost predicate Valid()
      reads this
    {
      totalPoints == PointCount(series) &&
      (forall p | p in encodedPointBytes :: encodedPointBytes[p] == |setup.enc.point(p)|) &&
      (forall name | name in encodedNameBytes :: encodedNameBytes[name] == |setup.enc.name(name)|)
    }

    /** The state is what the snapshots taken in so far make of an empty history. */
    ghost predicate Fed()
      reads this
    {
      DistinctNames(setup.defs) && Value() == After(setup, run, |run|)
    }

    constructor (enc: Encoding, limits: Limits, disableEviction: bool)
      ensures Valid() && Fed() && run == [] && setup == Setup(SERIES_DEFINITIONS, enc, limits, !disableEviction)
      ensures Value() == Ring(None, None, []) && byteSize == 0
    {
      setup := Setup(SERIES_DEFINITIONS, enc, limits, !disableEviction);
      epoch, startedAt, series := None, None, [];
      encodedPointBytes, encodedNameBytes := map[], map[];
      byteSize, totalPoints, run := 0, 0, [];
      new;
      ConsoleNamesAreDistinct();
    }

    /** Clearing forgets the points; the byte size is stale until the next recount, because
        even the empty array serializes to two bytes. */
    method Clear()
      requires Valid()
      modifies this`series, this`byteSize, this`totalPoints, this`startedAt
      ensures Valid() && series == [] && startedAt == None && byteSize == 0 < |Serialized(setup.enc, series)|
    {
      series := [];
      byteSize := 0;
      totalPoints := 0;
      startedAt := None;
    }

    method Observe(d: Definition, snap: Snapshot, values: seq<Point>) returns (point: Point)
      ensures point == NextPoint(d.kind, LastOf(values), snap.capturedAt, ReadingAt(snap, d.path))
    {
      var raw := ReadingAt(snap, d.path);
      var value := raw;
      var reset := false;
      if d.kind == Counter {
        if raw == None || values == [] || values[|values| - 1].raw == None {
          value := None;
        } else {
          var previous := values[|values| - 1].raw.value;
          if raw.value < previous {
            value := None;
            reset := true;
          } else {
            value := Some(raw.value - previous);
          }
        }
      }
      point := Point(snap.capturedAt, value, raw, raw == None, reset);
    }

    method RecordDefinition(d: Definition, snap: Snapshot)
      requires Valid()
      modifies this`series, this`totalPoints, this`encodedPointBytes, this`encodedNameBytes
      ensures Valid() && series == RecordOne(old(series), d, snap, setup.limits.maxSeries)
    {
      if Find(series, d.name) == |series| && |series| >= setup.limits.maxSeries {
        return;
      }
      var values := PointsOf(series, d.name);
      var point := Observe(d, snap, values);
      PointCountGrows(series, d.name, values, point);
      encodedPointBytes := encodedPointBytes[point := |setup.enc.point(point)|];
      if d.name !in encodedNameBytes {
        encodedNameBytes := encodedNameBytes[d.name := |setup.enc.name(d.name)|];
      }
      series := Put(series, d.name, values + [point]);
      totalPoints := totalPoints + 1;
    }

    method TakeIn(snap: Snapshot)
      requires Valid()
      modifies this`epoch, this`startedAt, this`series, this`byteSize, this`totalPoints,
               this`encodedPointBytes, this`encodedNameBytes
      ensures Valid() && Value() == Ingested(setup, old(Value()), snap)
      ensures byteSize == |Serialized(setup.enc, series)|
      ensures setup.evict ==> WithinLimits(setup.enc, series, setup.limits)
    {
      hide Serialized, Evicted, WithinLimits, RecordOne, PointCount, Cut;
      ghost var before := Value();
      if epoch != None && snap.epoch != epoch {
        Clear();
      }
      epoch := snap.epoch;
      if startedAt == None {
        startedAt := Some(snap.capturedAt);
      }
      for i := 0 to |setup.defs|
        invariant Valid() && epoch == snap.epoch
        invariant startedAt == Ingested(setup, before, snap).startedAt
        invariant series == Record(setup.defs, Base(before, snap), snap, setup.limits.maxSeries, i)
      {
        RecordDefinition(setup.defs[i], snap);
      }
      if setup.evict {
        EvictedSpec(setup.enc, series, setup.limits);
        Evict();
      } else {
        RecountBytes();
      }
    }

    /** One snapshot: the state becomes exactly what the value-level ingest says, so that each series
        shows the readings of the latest snapshots, and the byte size is the exact length of the
        serialized series. */
    method Ingest(snap: Snapshot)
      requires Valid() && Fed()
      modifies this
      ensures Valid() && Fed() && run == old(run) + [snap] && Value() == Ingested(setup, old(Value()), snap)
      ensures forall i | 0 <= i < |setup.defs| ::
                ShowsLatest(setup, run, |run|, i, PointsOf(series, setup.defs[i].name))
      ensures byteSize == |Serialized(setup.enc, series)|
      ensures setup.evict ==> WithinLimits(setup.enc, series, setup.limits)
    {
      hide Ingested, After, ShowsLatest, WithinLimits, Serialized;
      TakeIn(snap);
      OneMore(setup, run, snap);
      run := run + [snap];
      forall i | 0 <= i < |setup.defs|
        ensures ShowsLatest(setup, run, |run|, i, PointsOf(series, setup.defs[i].name))
      {
        PointsAreReadings(setup, run, |run|, i);
      }
    }

    method TrimSeries(i: nat)
      requires Valid() && i < |series|
      requires series == Trimmed(series, setup.limits.maxPointsPerSeries, i)
      modifies this`series, this`totalPoints
      ensures Valid()
      ensures series == Trimmed(old(series), setup.limits.maxPointsPerSeries, i + 1)
    {
      var max := setup.limits.maxPointsPerSeries;
      ghost var was := series;
      while |series[i].points| > max
        invariant Valid() && |series| == |was| && |series[i].points| <= |was[i].points|
        invariant series == was[i := Entry(was[i].name, was[i].points[|was[i].points| - |series[i].points|..])]
        invariant |was[i].points| > max ==> |series[i].points| >= max
        invariant |was[i].points| <= max ==> series == was
        decreases |series[i].points|
      {
        var e := Entry(series[i].name, series[i].points[1..]);
        PointCountUpdate(series, i, e);
        series := series[i := e];
        totalPoints := totalPoints - 1;
      }
    }

    method TrimAll()
      requires Valid()
      modifies this`series, this`totalPoints
      ensures Valid() && series == Trimmed(old(series), setup.limits.maxPointsPerSeries, |old(series)|)
    {
      for i := 0 to |series|
        invariant Valid() && |series| == |old(series)|
        invariant series == Trimmed(old(series), setup.limits.maxPointsPerSeries, i)
      {
        TrimSeries(i);
        assert series == Trimmed(old(series), setup.limits.maxPointsPerSeries, i + 1);
      }
    }

    method DropUntilTotal()
      requires Valid()
      modifies this`series, this`totalPoints
      ensures Valid() && series == DropToTotal(old(series), setup.limits)
    {
      var more := true;
      while more && totalPoints > setup.limits.maxTotalPoints
        invariant Valid()
        invariant DropToTotal(series, setup.limits) == DropToTotal(old(series), setup.limits)
        invariant !more ==> Oldest(series, |series|) == None
        decreases totalPoints, more
      {
        more := DropOldest();
      }
    }

    method DropUntilBytes()
      requires Valid() && byteSize == |Serialized(setup.enc, series)|
      modifies this`series, this`totalPoints, this`byteSize
      ensures Valid() && byteSize == |Serialized(setup.enc, series)|
      ensures series == DropToBytes(setup.enc, old(series), setup.limits)
    {
      var more := true;
      while more && byteSize > setup.limits.maxBytes
        invariant Valid() && byteSize == |Serialized(setup.enc, series)|
        invariant DropToBytes(setup.enc, series, setup.limits) == DropToBytes(setup.enc, old(series), setup.limits)
        invariant !more ==> Oldest(series, |series|) == None
        decreases totalPoints, more
      {
        more := DropOldest();
        if more {
          RecountBytes();
        }
      }
    }

    method Evict()
      requires Valid()
      modifies this`series, this`totalPoints, this`byteSize
      ensures Valid() && series == Evicted(setup.enc, old(series), setup.limits)
      ensures byteSize == |Serialized(setup.enc, series)|
    {
      TrimAll();
      DropUntilTotal();
      RecountBytes();
      DropUntilBytes();
    }

    method DropOldest() returns (dropped: bool)
      requires Valid()
      modifies this`series, this`totalPoints
      ensures Valid() && dropped == Oldest(old(series), |old(series)|).Some?
      ensures series == if dropped then DropFirst(old(series), Oldest(old(series), |old(series)|).value) else old(series)
      ensures totalPoints == old(totalPoints) - if dropped then 1 else 0
    {
      var oldest: Option<nat> := None;
      for i := 0 to |series|
        invariant oldest == Oldest(series, i)
      {
        if series[i].points != [] && (oldest == None || series[i].points[0].at < series[oldest.value].points[0].at) {
          oldest := Some(i);
        }
      }
      if oldest == None {
        return false;
      }
      PointCountUpdate(series, oldest.value, Entry(series[oldest.value].name, series[oldest.value].points[1..]));
      series := DropFirst(series, oldest.value);
      totalPoints := totalPoints - 1;
      return true;
    }

    /** The cached recount agrees with serializing everything. */
    method RecountBytes()
      requires Valid()
      modifies this`byteSize
      ensures byteSize == |Serialized(setup.enc, series)|
    {
      var bytes := 2;
      for i := 0 to |series|
        invariant bytes == 2 + |EntriesText(setup.enc, series[..i])|
      {
        ghost var front := series[..i];
        assert series[..i + 1][..i] == front && series[..i + 1][i] == series[i];
        var entry := EntryBytes(series[i]);
        bytes := bytes + (if i > 0 then 1 else 0) + entry;
      }
      assert series[..|series|] == series;
      byteSize := bytes;
    }

    method EntryBytes(e: Entry) returns (bytes: nat)
      requires Valid()
      ensures bytes == |EntryText(setup.enc, e)|
    {
      var nameBytes := if e.name in encodedNameBytes then encodedNameBytes[e.name] else |setup.enc.name(e.name)|;
      bytes := 5 + nameBytes;
      for j := 0 to |e.points|
        invariant bytes == 5 + nameBytes + |PointsText(setup.enc, e.points[..j])|
      {
        assert e.points[..j + 1][..j] == e.points[..j] && e.points[..j + 1][j] == e.points[j];
        var point := e.points[j];
        if j > 0 {
          bytes := bytes + 1;
        }
        bytes := bytes + if point in encodedPointBytes then encodedPointBytes[point] else |setup.enc.point(point)|;
      }
      assert e.points[..|e.points|] == e.points;
    }
  }
}
