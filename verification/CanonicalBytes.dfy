/** The byte strings that are hashed to identify traces and key schedules. Both determine
    what they were made from, and neither kind can be mistaken for the other. */
module CanonicalBytes {
  import opened Words
  import opened KeyOrder
  import opened PolicyReplay
  import opened KeySchedule

  // ---------------------------------------------------------------- fixed-width integers

  function Pow256(width: nat): (p: nat)
    ensures p > 0
  {
    if width == 0 then 1 else 256 * Pow256(width - 1)
  }

  function LittleEndian(x: nat, width: nat): (b: Bytes)
    ensures |b| == width
    decreases x, width
  {
    if width == 0 then [] else [x % 256] + LittleEndian(x / 256, width - 1)
  }

  function FromLittleEndian(b: Bytes): nat {
    if b == [] then 0 else b[0] + 256 * FromLittleEndian(b[1..])
  }

  lemma {:induction false} LittleEndianRoundTrip(x: nat, width: nat)
    requires x < Pow256(width)
    ensures FromLittleEndian(LittleEndian(x, width)) == x
    decreases width
  {
    if width > 0 {
      LittleEndianRoundTrip(x / 256, width - 1);
      assert LittleEndian(x, width)[1..] == LittleEndian(x / 256, width - 1);
    }
  }

  lemma {:induction false} FromLittleEndianBound(b: Bytes)
    ensures FromLittleEndian(b) < Pow256(|b|)
  {
    if b != [] {
      FromLittleEndianBound(b[1..]);
    }
  }

  datatype Parsed<+T> = Parsed(value: T, rest: Bytes) | Malformed

  function TakeInt(b: Bytes, width: nat): Parsed<nat> {
    if |b| < width then Malformed else Parsed(FromLittleEndian(b[..width]), b[width..])
  }

  lemma TakeIntInverts(x: nat, width: nat, rest: Bytes)
    requires x < Pow256(width)
    ensures TakeInt(LittleEndian(x, width) + rest, width) == Parsed(x, rest)
  {
    LittleEndianRoundTrip(x, width);
    var b := LittleEndian(x, width) + rest;
    assert b[..width] == LittleEndian(x, width) && b[width..] == rest;
  }

  function U64Bytes(x: U64): (b: Bytes)
    ensures |b| == 8
  {
    LittleEndian(x, 8)
  }

  function TakeU64(b: Bytes): Parsed<U64> {
    if |b| < 8 then Malformed else
      FromLittleEndianBound(b[..8]);
      assert Pow256(8) == TWO64;
      Parsed(FromLittleEndian(b[..8]), b[8..])
  }

  lemma TakeU64Inverts(x: U64, rest: Bytes)
    ensures TakeU64(U64Bytes(x) + rest) == Parsed(x, rest)
  {
    assert Pow256(8) == TWO64;
    TakeIntInverts(x, 8, rest);
  }

  // ---------------------------------------------------------------- tags

  function Ascii(s: string): (b: Bytes)
    requires forall i | 0 <= i < |s| :: s[i] < 128 as char
    ensures |b| == |s|
  {
    seq(|s|, i requires 0 <= i < |s| => s[i] as int)
  }

  const TRACE_TAG: Bytes := Ascii("hydracache-trace-events-v1") + [0]
  const SCHEDULE_TAG: Bytes := Ascii("hydracache-key-schedule-v1") + [0]

  function TakeTag(tag: Bytes, b: Bytes): Parsed<()> {
    if tag <= b then Parsed((), b[|tag|..]) else Malformed
  }

  lemma TakeTagInverts(tag: Bytes, rest: Bytes)
    ensures TakeTag(tag, tag + rest) == Parsed((), rest)
  {
  }

  // ---------------------------------------------------------------- traces

  /** Lengths of sequences in memory fit into 64 bits. */
  ghost predicate Representable(events: seq<TraceEvent>) {
    |events| <= U64_MAX && forall i | 0 <= i < |events| :: |events[i].key| <= U64_MAX
  }

  function EventBytes(e: TraceEvent): Bytes
    requires |e.key| <= U64_MAX
  {
    U64Bytes(e.at) + U64Bytes(|e.key|) + e.key
  }

  function EventsBytes(events: seq<TraceEvent>): Bytes
    requires forall i | 0 <= i < |events| :: |events[i].key| <= U64_MAX
  {
    if events == [] then [] else EventBytes(events[0]) + EventsBytes(events[1..])
  }

  function TraceBytes(events: seq<TraceEvent>): Bytes
    requires Representable(events)
  {
    TRACE_TAG + U64Bytes(|events|) + EventsBytes(events)
  }

  function TakeEvent(b: Bytes): Parsed<TraceEvent> {
    match TakeU64(b)
    case Malformed => Malformed
    case Parsed(at, b1) =>
      match TakeU64(b1)
      case Malformed => Malformed
      case Parsed(len, b2) =>
        if |b2| < len then Malformed else Parsed(TraceEvent(at, b2[..len]), b2[len..])
  }

  function TakeEvents(b: Bytes, n: nat): Parsed<seq<TraceEvent>>
    decreases n, |b|
  {
    if n == 0 then Parsed([], b) else
      match TakeEvent(b)
      case Malformed => Malformed
      case Parsed(e, b1) =>
        match TakeEvents(b1, n - 1)
        case Malformed => Malformed
        case Parsed(es, b2) => Parsed([e] + es, b2)
  }

  function DecodeTrace(b: Bytes): Option<seq<TraceEvent>> {
    match TakeTag(TRACE_TAG, b)
    case Malformed => None
    case Parsed(_, b1) =>
      match TakeU64(b1)
      case Malformed => None
      case Parsed(n, b2) =>
        match TakeEvents(b2, n)
        case Malformed => None
        case Parsed(events, rest) => if rest == [] then Some(events) else None
  }

  lemma TakeEventInverts(e: TraceEvent, rest: Bytes)
    requires |e.key| <= U64_MAX
    ensures TakeEvent(EventBytes(e) + rest) == Parsed(e, rest)
  {
    var len: U64 := |e.key|;
    var tail := e.key + rest;
    assert EventBytes(e) + rest == U64Bytes(e.at) + (U64Bytes(len) + tail);
    TakeU64Inverts(e.at, U64Bytes(len) + tail);
    TakeU64Inverts(len, tail);
    assert tail[..len] == e.key && tail[len..] == rest;
  }

  lemma {:induction false} TakeEventsInverts(events: seq<TraceEvent>, rest: Bytes)
    requires forall i | 0 <= i < |events| :: |events[i].key| <= U64_MAX
    ensures TakeEvents(EventsBytes(events) + rest, |events|) == Parsed(events, rest)
  {
    if events == [] {
      assert EventsBytes(events) + rest == rest;
    } else {
      var tail := EventsBytes(events[1..]) + rest;
      assert EventsBytes(events) + rest == EventBytes(events[0]) + tail;
      TakeEventInverts(events[0], tail);
      TakeEventsInverts(events[1..], rest);
      assert [events[0]] + events[1..] == events;
    }
  }

  /** A decoder recovers every event list, in order and with its field boundaries. */
  lemma TraceRoundTrip(events: seq<TraceEvent>)
    requires Representable(events)
    ensures DecodeTrace(TraceBytes(events)) == Some(events)
  {
    var n: U64 := |events|;
    var body := EventsBytes(events);
    assert TraceBytes(events) == TRACE_TAG + (U64Bytes(n) + body);
    TakeTagInverts(TRACE_TAG, U64Bytes(n) + body);
    TakeU64Inverts(n, body);
    TakeEventsInverts(events, []);
    assert body + [] == body;
  }

  lemma TraceBytesInjective(a: seq<TraceEvent>, b: seq<TraceEvent>)
    requires Representable(a) && Representable(b) && TraceBytes(a) == TraceBytes(b)
    ensures a == b
  {
    TraceRoundTrip(a);
    TraceRoundTrip(b);
  }

  lemma {:induction false} EventsBytesAppend(events: seq<TraceEvent>, e: TraceEvent)
    requires |e.key| <= U64_MAX && forall i | 0 <= i < |events| :: |events[i].key| <= U64_MAX
    ensures EventsBytes(events + [e]) == EventsBytes(events) + EventBytes(e)
  {
    hide EventBytes;
    if events == [] {
      assert ([] + [e])[1..] == [];
    } else {
      EventsBytesAppend(events[1..], e);
      assert (events + [e])[1..] == events[1..] + [e];
    }
  }

  /** The buffer that the trace digest hashes. */
  method BuildTraceBytes(events: seq<TraceEvent>) returns (canonical: Bytes)
    requires Representable(events)
    ensures canonical == TraceBytes(events)
  {
    canonical := TRACE_TAG;
    canonical := canonical + U64Bytes(|events|);
    for i := 0 to |events|
      invariant canonical == TRACE_TAG + U64Bytes(|events|) + EventsBytes(events[..i])
    {
      EventsBytesAppend(events[..i], events[i]);
      assert events[..i + 1] == events[..i] + [events[i]];
      canonical := canonical + U64Bytes(events[i].at);
      canonical := canonical + U64Bytes(|events[i].key|);
      canonical := canonical + events[i].key;
    }
    assert events[..|events|] == events;
  }

  // ---------------------------------------------------------------- key schedules

  function DistributionBytes(d: KeyDistribution): Bytes {
    match d
    case Uniform => [0]
    case Zipfian(bits) => [1] + U64Bytes(bits)
  }

  function KeysBytes(keys: seq<U64>): Bytes {
    if keys == [] then [] else U64Bytes(keys[0]) + KeysBytes(keys[1..])
  }

  function SpecBytes(spec: KeyScheduleSpec): Bytes {
    LittleEndian(spec.generatorVersion, 4) + (U64Bytes(spec.seed) + (U64Bytes(spec.keyCount) +
    (U64Bytes(spec.operations) + DistributionBytes(spec.distribution))))
  }

  function ScheduleBytes(spec: KeyScheduleSpec, keys: seq<U64>): Bytes
    requires |keys| <= U64_MAX
  {
    SCHEDULE_TAG + SpecBytes(spec) + U64Bytes(|keys|) + KeysBytes(keys)
  }

  function TakeDistribution(b: Bytes): Parsed<KeyDistribution> {
    if b == [] then Malformed
    else if b[0] == 0 then Parsed(Uniform, b[1..])
    else if b[0] == 1 then
      match TakeU64(b[1..])
      case Malformed => Malformed
      case Parsed(bits, rest) => Parsed(Zipfian(bits), rest)
    else Malformed
  }

  function TakeVersion(b: Bytes): Parsed<U32> {
    if |b| < 4 then Malformed else
      FromLittleEndianBound(b[..4]);
      assert Pow256(4) == 0x1_0000_0000;
      Parsed(FromLittleEndian(b[..4]), b[4..])
  }

  function TakeSpec(b: Bytes): Parsed<KeyScheduleSpec> {
    match TakeVersion(b)
    case Malformed => Malformed
    case Parsed(version, b1) =>
      match TakeU64(b1)
      case Malformed => Malformed
      case Parsed(seed, b2) =>
        match TakeU64(b2)
        case Malformed => Malformed
        case Parsed(keyCount, b3) =>
          match TakeU64(b3)
          case Malformed => Malformed
          case Parsed(operations, b4) =>
            match TakeDistribution(b4)
            case Malformed => Malformed
            case Parsed(d, rest) => Parsed(KeyScheduleSpec(version, seed, keyCount, operations, d), rest)
  }

  function TakeKeys(b: Bytes, n: nat): Parsed<seq<U64>>
    decreases n, |b|
  {
    if n == 0 then Parsed([], b) else
      match TakeU64(b)
      case Malformed => Malformed
      case Parsed(key, b1) =>
        match TakeKeys(b1, n - 1)
        case Malformed => Malformed
        case Parsed(keys, b2) => Parsed([key] + keys, b2)
  }

  function DecodeSchedule(b: Bytes): Option<(KeyScheduleSpec, seq<U64>)> {
    match TakeTag(SCHEDULE_TAG, b)
    case Malformed => None
    case Parsed(_, b1) =>
      match TakeSpec(b1)
      case Malformed => None
      case Parsed(spec, b2) =>
        match TakeU64(b2)
        case Malformed => None
        case Parsed(n, b3) =>
          match TakeKeys(b3, n)
          case Malformed => None
          case Parsed(keys, rest) => if rest == [] then Some((spec, keys)) else None
  }

  lemma TakeVersionInverts(v: U32, rest: Bytes)
    ensures TakeVersion(LittleEndian(v, 4) + rest) == Parsed(v, rest)
  {
    assert Pow256(4) == 0x1_0000_0000;
    TakeIntInverts(v, 4, rest);
  }

  lemma TakeDistributionInverts(d: KeyDistribution, rest: Bytes)
    ensures TakeDistribution(DistributionBytes(d) + rest) == Parsed(d, rest)
  {
    var b := DistributionBytes(d) + rest;
    match d
    case Uniform => assert b[1..] == rest;
    case Zipfian(bits) =>
      assert b[1..] == U64Bytes(bits) + rest;
      TakeU64Inverts(bits, rest);
  }

  lemma TakeSpecInverts(spec: KeyScheduleSpec, rest: Bytes)
    ensures TakeSpec(SpecBytes(spec) + rest) == Parsed(spec, rest)
  {
    var b4 := DistributionBytes(spec.distribution) + rest;
    var b3 := U64Bytes(spec.operations) + b4;
    var b2 := U64Bytes(spec.keyCount) + b3;
    var b1 := U64Bytes(spec.seed) + b2;
    assert SpecBytes(spec) + rest == LittleEndian(spec.generatorVersion, 4) + b1;
    TakeVersionInverts(spec.generatorVersion, b1);
    TakeU64Inverts(spec.seed, b2);
    TakeU64Inverts(spec.keyCount, b3);
    TakeU64Inverts(spec.operations, b4);
    TakeDistributionInverts(spec.distribution, rest);
  }

  lemma {:induction false} TakeKeysInverts(keys: seq<U64>, rest: Bytes)
    ensures TakeKeys(KeysBytes(keys) + rest, |keys|) == Parsed(keys, rest)
  {
    if keys == [] {
      assert KeysBytes(keys) + rest == rest;
    } else {
      var tail := KeysBytes(keys[1..]) + rest;
      assert KeysBytes(keys) + rest == U64Bytes(keys[0]) + tail;
      TakeU64Inverts(keys[0], tail);
      TakeKeysInverts(keys[1..], rest);
      assert [keys[0]] + keys[1..] == keys;
    }
  }

  /** A decoder recovers every specification together with its ordered keys. */
  lemma ScheduleRoundTrip(spec: KeyScheduleSpec, keys: seq<U64>)
    requires |keys| <= U64_MAX
    ensures DecodeSchedule(ScheduleBytes(spec, keys)) == Some((spec, keys))
  {
    var n: U64 := |keys|;
    var b3 := KeysBytes(keys);
    var b2 := U64Bytes(n) + b3;
    var b1 := SpecBytes(spec) + b2;
    assert ScheduleBytes(spec, keys) == SCHEDULE_TAG + b1;
    TakeTagInverts(SCHEDULE_TAG, b1);
    TakeSpecInverts(spec, b2);
    TakeU64Inverts(n, b3);
    TakeKeysInverts(keys, []);
    assert b3 + [] == b3;
  }

  lemma ScheduleBytesInjective(s: KeyScheduleSpec, ks: seq<U64>, t: KeyScheduleSpec, kt: seq<U64>)
    requires |ks| <= U64_MAX && |kt| <= U64_MAX && ScheduleBytes(s, ks) == ScheduleBytes(t, kt)
    ensures s == t && ks == kt
  {
    ScheduleRoundTrip(s, ks);
    ScheduleRoundTrip(t, kt);
  }

  lemma {:induction false} KeysBytesAppend(keys: seq<U64>, key: U64)
    ensures KeysBytes(keys + [key]) == KeysBytes(keys) + U64Bytes(key)
  {
    if keys == [] {
      assert ([] + [key])[1..] == [];
    } else {
      KeysBytesAppend(keys[1..], key);
      assert (keys + [key])[1..] == keys[1..] + [key];
    }
  }

  /** The buffer that the schedule digest hashes. */
  method BuildScheduleBytes(spec: KeyScheduleSpec, keys: seq<U64>) returns (canonical: Bytes)
    requires |keys| <= U64_MAX
    ensures canonical == ScheduleBytes(spec, keys)
  {
    canonical := SCHEDULE_TAG;
    canonical := canonical + LittleEndian(spec.generatorVersion, 4);
    canonical := canonical + U64Bytes(spec.seed);
    canonical := canonical + U64Bytes(spec.keyCount);
    canonical := canonical + U64Bytes(spec.operations);
    match spec.distribution {
      case Uniform =>
        canonical := canonical + [0];
      case Zipfian(bits) =>
        canonical := canonical + [1];
        canonical := canonical + U64Bytes(bits);
    }
    canonical := canonical + U64Bytes(|keys|);
    ghost var head := SCHEDULE_TAG + SpecBytes(spec) + U64Bytes(|keys|);
    for i := 0 to |keys|
      invariant canonical == head + KeysBytes(keys[..i])
    {
      KeysBytesAppend(keys[..i], keys[i]);
      assert keys[..i + 1] == keys[..i] + [keys[i]];
      canonical := canonical + U64Bytes(keys[i]);
    }
    assert keys[..|keys|] == keys;
  }

  /** A trace and a key schedule never hash the same bytes. */
  lemma KindsAreSeparate(events: seq<TraceEvent>, spec: KeyScheduleSpec, keys: seq<U64>)
    requires Representable(events) && |keys| <= U64_MAX
    ensures TraceBytes(events) != ScheduleBytes(spec, keys)
  {
    assert TraceBytes(events)[11] == TRACE_TAG[11] == 't' as int;
    assert ScheduleBytes(spec, keys)[11] == SCHEDULE_TAG[11] == 'k' as int;
  }
}
