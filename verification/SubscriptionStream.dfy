/** One active subscription: a bounded queue towards its consumer, and the pending gap marker
    that stands for everything the queue had no room for. */
module SubscriptionStream {
  import opened Words

  datatype CacheEvent = CacheEvent(watermark: U64, key: seq<Byte>, value: seq<Byte>, removed: bool)

  datatype Item = Event(event: CacheEvent) | Gap(afterWatermark: U64)

  /** An item that entered the queue; `local` marks a gap that the client itself inserted. */
  datatype Entered = Entered(item: Item, local: bool)

  /** An offered item that found no room, the marker that was pending then, and how many items
      had entered before. */
  datatype Drop = Drop(watermark: U64, marker: U64, position: nat)

  /** The queue and counters, with a log of all that entered, was received and was dropped. */
  datatype Stream = Stream(
    capacity: nat,
    queue: seq<Item>,
    receiverOpen: bool,
    gapAfter: U64,
    events: nat,
    dropped: nat,
    offered: nat,
    entered: seq<Entered>,
    received: seq<Item>,
    drops: seq<Drop>)

  function Opened(capacity: nat): Stream {
    Stream(capacity, [], true, 0, 0, 0, 0, [], [], [])
  }

  predicate HasRoom(s: Stream) {
    s.receiverOpen && |s.queue| < s.capacity
  }

  function Push(s: Stream, item: Item, local: bool): Stream {
    s.(queue := s.queue + [item], entered := s.entered + [Entered(item, local)])
  }

  /** An item found no room: the marker covers it from now on. */
  function Lose(s: Stream, watermark: U64): Stream {
    s.(gapAfter := Max(s.gapAfter, watermark), dropped := s.dropped + 1,
       drops := s.drops + [Drop(watermark, s.gapAfter, |s.entered|)])
  }

  /** A pending marker goes first, if there is room for it. */
  function FlushGap(s: Stream): Stream {
    if s.gapAfter != 0 && HasRoom(s) then Push(s, Gap(s.gapAfter), true).(gapAfter := 0) else s
  }

  function AcceptEvent(s: Stream, e: CacheEvent): Stream {
    var t := FlushGap(s.(offered := s.offered + 1));
    if t.gapAfter != 0 then Lose(t, e.watermark)
    else
      var counted := t.(events := t.events + 1);
      if HasRoom(counted) then Push(counted, Event(e), false) else Lose(counted, e.watermark)
  }

  function AcceptGap(s: Stream, afterWatermark: U64): Stream {
    var t := s.(offered := s.offered + 1);
    if HasRoom(t) then Push(t, Gap(afterWatermark), false) else Lose(t, afterWatermark)
  }

  /** The consumer takes the next item, if there is one. */
  function Receive(s: Stream): Stream {
    if s.queue == [] then s else s.(queue := s.queue[1..], received := s.received + [s.queue[0]])
  }

  datatype Op = OfferEvent(event: CacheEvent) | OfferGap(afterWatermark: U64) | TakeNext | CloseReceiver

  function Apply(s: Stream, op: Op): Stream {
    match op
    case OfferEvent(e) => AcceptEvent(s, e)
    case OfferGap(w) => AcceptGap(s, w)
    case TakeNext => Receive(s)
    case CloseReceiver => s.(receiverOpen := false)
  }

  function Run(capacity: nat, ops: seq<Op>, n: nat): Stream
    requires n <= |ops|
  {
    if n == 0 then Opened(capacity) else Apply(Run(capacity, ops, n - 1), ops[n - 1])
  }

  // ---------------------------------------------------------------- no silent loss

  ghost predicate NoEvent(entered: seq<Entered>, from: nat, to: nat) {
    forall k | from <= k < to && k < |entered| :: !entered[k].item.Event?
  }

  /** A gap at or above the watermark entered at `j`, with no event in between. */
  ghost predicate MarkedAt(entered: seq<Entered>, d: Drop, j: nat) {
    d.position <= j < |entered| && entered[j].item.Gap? && entered[j].item.afterWatermark >= d.watermark &&
    NoEvent(entered, d.position, j)
  }

  ghost predicate Marked(entered: seq<Entered>, d: Drop) {
    exists j: nat :: MarkedAt(entered, d, j)
  }

  /** The drop raised the marker or found it raised. */
  predicate Noted(d: Drop) {
    d.watermark > 0 || d.marker > 0
  }

  /** No event has entered since the drop, and the pending marker covers it. */
  ghost predicate StillPending(s: Stream, d: Drop) {
    NoEvent(s.entered, d.position, |s.entered|) && s.gapAfter > 0 && d.watermark <= s.gapAfter
  }

  ghost predicate AllCovered(s: Stream) {
    forall i | 0 <= i < |s.drops| ::
      s.drops[i].position <= |s.entered| &&
      (Noted(s.drops[i]) ==> Marked(s.entered, s.drops[i]) || StillPending(s, s.drops[i]))
  }

  lemma MarkedStays(entered: seq<Entered>, more: seq<Entered>, d: Drop)
    requires Marked(entered, d)
    ensures Marked(entered + more, d)
  {
    var j: nat :| MarkedAt(entered, d, j);
    assert MarkedAt(entered + more, d, j);
  }

  lemma FlushCovers(s: Stream)
    requires AllCovered(s)
    ensures AllCovered(FlushGap(s))
  {
    if s.gapAfter != 0 && HasRoom(s) {
      var t := FlushGap(s);
      var more := [Entered(Gap(s.gapAfter), true)];
      forall i | 0 <= i < |t.drops| && Noted(t.drops[i]) ensures Marked(t.entered, t.drops[i]) {
        if Marked(s.entered, s.drops[i]) {
          MarkedStays(s.entered, more, s.drops[i]);
        } else {
          assert MarkedAt(t.entered, t.drops[i], |s.entered|);
        }
      }
    }
  }

  lemma LoseCovers(s: Stream, watermark: U64)
    requires AllCovered(s)
    ensures AllCovered(Lose(s, watermark))
  {
  }

  lemma PushCovers(s: Stream, item: Item)
    requires AllCovered(s) && (item.Event? ==> s.gapAfter == 0)
    ensures AllCovered(Push(s, item, false))
  {
    var t := Push(s, item, false);
    forall i | 0 <= i < |t.drops| && Noted(t.drops[i])
      ensures Marked(t.entered, t.drops[i]) || StillPending(t, t.drops[i])
    {
      if Marked(s.entered, s.drops[i]) {
        MarkedStays(s.entered, [Entered(item, false)], s.drops[i]);
      }
    }
  }

  lemma ApplyCovers(s: Stream, op: Op)
    requires AllCovered(s)
    ensures AllCovered(Apply(s, op))
  {
    match op
    case OfferEvent(e) =>
      var t := FlushGap(s.(offered := s.offered + 1));
      FlushCovers(s.(offered := s.offered + 1));
      if t.gapAfter != 0 {
        LoseCovers(t, e.watermark);
      } else {
        var counted := t.(events := t.events + 1);
        if HasRoom(counted) {
          PushCovers(counted, Event(e));
        } else {
          LoseCovers(counted, e.watermark);
        }
      }
    case OfferGap(w) =>
      var t := s.(offered := s.offered + 1);
      if HasRoom(t) {
        PushCovers(t, Gap(w));
      } else {
        LoseCovers(t, w);
      }
    case TakeNext =>
    case CloseReceiver =>
  }

  lemma RunCovers(capacity: nat, ops: seq<Op>, n: nat)
    requires n <= |ops|
    ensures AllCovered(Run(capacity, ops, n))
  {
    for m := 0 to n
      invariant AllCovered(Run(capacity, ops, m))
    {
      ApplyCovers(Run(capacity, ops, m), ops[m]);
    }
  }

  /** On every run, a dropped item whose watermark is positive, or that found a marker pending, is
      announced by a gap at or above its watermark before the next event enters the stream. */
  lemma NoSilentLoss(capacity: nat, ops: seq<Op>, n: nat, i: nat, k: nat)
    requires n <= |ops|
    requires var s := Run(capacity, ops, n);
             i < |s.drops| && Noted(s.drops[i]) && s.drops[i].position <= k < |s.entered| && s.entered[k].item.Event?
    ensures var s := Run(capacity, ops, n);
            exists j: nat :: j < k && MarkedAt(s.entered, s.drops[i], j)
  {
    RunCovers(capacity, ops, n);
    var s := Run(capacity, ops, n);
    assert !NoEvent(s.entered, s.drops[i].position, |s.entered|);
    var j: nat :| MarkedAt(s.entered, s.drops[i], j);
    assert j < k;
  }

  // ---------------------------------------------------------------- which losses are silent

  /** A drop after drop `i`, made before `position` items had entered or just then, raised the
      marker. */
  ghost predicate RaisedLater(s: Stream, i: nat, position: nat) {
    exists l :: i < l < |s.drops| && s.drops[l].watermark > 0 && s.drops[l].position <= position
  }

  /** A gap from the server entered between drop `i` and `position`. */
  ghost predicate GapFromServer(s: Stream, i: nat, position: nat)
    requires i < |s.drops|
  {
    exists j :: s.drops[i].position <= j < position && j < |s.entered| && s.entered[j].item.Gap? && !s.entered[j].local
  }

  /** A marker, pending or entered since a drop, comes from that drop, from before or from after. */
  ghost predicate Explained(s: Stream, i: nat)
    requires i < |s.drops|
  {
    s.drops[i].position <= |s.entered| &&
    (s.gapAfter > 0 ==> Noted(s.drops[i]) || RaisedLater(s, i, |s.entered|)) &&
    forall j | s.drops[i].position <= j < |s.entered| && s.entered[j].local ::
      Noted(s.drops[i]) || RaisedLater(s, i, j)
  }

  ghost predicate AllExplained(s: Stream) {
    (forall i | 0 <= i < |s.drops| :: Explained(s, i)) && forall j | 0 <= j < |s.entered| && s.entered[j].local :: s.entered[j].item.Gap?
  }

  lemma RaisedStays(s: Stream, t: Stream, i: nat, p: nat, q: nat)
    requires RaisedLater(s, i, p) && p <= q && s.drops <= t.drops
    ensures RaisedLater(t, i, q)
  {
    var l :| i < l < |s.drops| && s.drops[l].watermark > 0 && s.drops[l].position <= p;
    assert t.drops[l] == s.drops[l];
  }

  lemma PushExplained(s: Stream, item: Item, local: bool)
    requires AllExplained(s) && (local ==> item.Gap? && s.gapAfter > 0)
    ensures AllExplained(Push(s, item, local)) && AllExplained(Push(s, item, local).(gapAfter := 0))
  {
    var t := Push(s, item, local);
    forall i | 0 <= i < |t.drops|
      ensures Explained(t, i) && Explained(t.(gapAfter := 0), i)
    {
      assert Explained(s, i);
      if RaisedLater(s, i, |s.entered|) {
        RaisedStays(s, t, i, |s.entered|, |t.entered|);
      }
      forall j | s.drops[i].position <= j < |t.entered| && t.entered[j].local
        ensures Noted(s.drops[i]) || (RaisedLater(t, i, j) && RaisedLater(t.(gapAfter := 0), i, j))
      {
        if !Noted(s.drops[i]) {
          assert RaisedLater(s, i, j);
          RaisedStays(s, t, i, j, j);
          RaisedStays(s, t.(gapAfter := 0), i, j, j);
        }
      }
    }
  }

  lemma LoseExplained(s: Stream, watermark: U64)
    requires AllExplained(s)
    ensures AllExplained(Lose(s, watermark))
  {
    var t := Lose(s, watermark);
    forall i | 0 <= i < |t.drops|
      ensures Explained(t, i)
    {
      if i < |s.drops| {
        assert Explained(s, i);
        if RaisedLater(s, i, |s.entered|) {
          RaisedStays(s, t, i, |s.entered|, |t.entered|);
        }
        assert watermark > 0 ==> t.drops[|s.drops|].watermark > 0 && t.drops[|s.drops|].position <= |t.entered|;
        forall j | s.drops[i].position <= j < |t.entered| && t.entered[j].local
          ensures Noted(s.drops[i]) || RaisedLater(t, i, j)
        {
          if !Noted(s.drops[i]) {
            RaisedStays(s, t, i, j, j);
          }
        }
      }
    }
  }

  lemma ApplyExplained(s: Stream, op: Op)
    requires AllExplained(s)
    ensures AllExplained(Apply(s, op))
  {
    var r := s.(offered := s.offered + 1);
    SameLogsExplained(s, r);
    match op
    case OfferEvent(e) =>
      var t := FlushGap(r);
      if r.gapAfter != 0 && HasRoom(r) {
        PushExplained(r, Gap(r.gapAfter), true);
      }
      var counted := t.(events := t.events + 1);
      SameLogsExplained(t, counted);
      LoseExplained(t, e.watermark);
      LoseExplained(counted, e.watermark);
      PushExplained(counted, Event(e), false);
    case OfferGap(w) =>
      PushExplained(r, Gap(w), false);
      LoseExplained(r, w);
    case TakeNext => SameLogsExplained(s, Receive(s));
    case CloseReceiver => SameLogsExplained(s, s.(receiverOpen := false));
  }

  lemma SameLogsExplained(s: Stream, t: Stream)
    requires AllExplained(s) && t.drops == s.drops && t.entered == s.entered && t.gapAfter == s.gapAfter
    ensures AllExplained(t)
  {
    forall i | 0 <= i < |t.drops|
      ensures Explained(t, i)
    {
      assert Explained(s, i);
      if RaisedLater(s, i, |s.entered|) {
        RaisedStays(s, t, i, |s.entered|, |t.entered|);
      }
      forall j | s.drops[i].position <= j < |t.entered| && t.entered[j].local
        ensures Noted(s.drops[i]) || RaisedLater(t, i, j)
      {
        if !Noted(s.drops[i]) {
          RaisedStays(s, t, i, j, j);
        }
      }
    }
  }

  lemma RunExplained(capacity: nat, ops: seq<Op>, n: nat)
    requires n <= |ops|
    ensures AllExplained(Run(capacity, ops, n))
  {
    for m := 0 to n
      invariant AllExplained(Run(capacity, ops, m))
    {
      ApplyExplained(Run(capacity, ops, m), ops[m]);
    }
  }

  /** The next event after a drop: it entered at `k`, and none between. */
  ghost predicate NextEvent(s: Stream, i: nat, k: nat)
    requires i < |s.drops|
  {
    s.drops[i].position <= k < |s.entered| && s.entered[k].item.Event? && NoEvent(s.entered, s.drops[i].position, k)
  }

  /** On every run, a drop is announced before the next event if and only if it raised the marker or
      found it raised, or a later drop raised it or a gap from the server entered in time. */
  lemma AnnouncedExactly(capacity: nat, ops: seq<Op>, n: nat, i: nat, k: nat)
    requires n <= |ops|
    requires var s := Run(capacity, ops, n); i < |s.drops| && NextEvent(s, i, k)
    ensures var s := Run(capacity, ops, n);
            (exists j: nat :: j < k && MarkedAt(s.entered, s.drops[i], j)) <==>
            Noted(s.drops[i]) || RaisedLater(s, i, k) || GapFromServer(s, i, k)
  {
    var s := Run(capacity, ops, n);
    RunExplained(capacity, ops, n);
    if j: nat :| j < k && MarkedAt(s.entered, s.drops[i], j) {
      assert Explained(s, i);
      if s.entered[j].local && RaisedLater(s, i, j) {
        RaisedStays(s, s, i, j, k);
      }
    }
    if Noted(s.drops[i]) {
      NoSilentLoss(capacity, ops, n, i, k);
    } else if l :| i < l < |s.drops| && s.drops[l].watermark > 0 && s.drops[l].position <= k {
      LaterDropCovers(capacity, ops, n, i, l, k);
    } else if j: nat :| s.drops[i].position <= j < k && j < |s.entered| && s.entered[j].item.Gap? && !s.entered[j].local {
      assert MarkedAt(s.entered, s.drops[i], j);
    }
  }

  lemma LaterDropCovers(capacity: nat, ops: seq<Op>, n: nat, i: nat, l: nat, k: nat)
    requires n <= |ops|
    requires var s := Run(capacity, ops, n);
             i < l < |s.drops| && NextEvent(s, i, k) && s.drops[i].watermark == 0 &&
             s.drops[l].watermark > 0 && s.drops[l].position <= k
    ensures var s := Run(capacity, ops, n);
            exists j: nat :: j < k && MarkedAt(s.entered, s.drops[i], j)
  {
    var s := Run(capacity, ops, n);
    RunOrdersDrops(capacity, ops, n);
    NoSilentLoss(capacity, ops, n, l, k);
    var j: nat :| j < k && MarkedAt(s.entered, s.drops[l], j);
    assert s.drops[i].position <= s.drops[l].position;
    assert MarkedAt(s.entered, s.drops[i], j);
  }

  ghost predicate DropsInOrder(s: Stream) {
    (forall i | 0 <= i < |s.drops| :: s.drops[i].position <= |s.entered|) &&
    forall i, l | 0 <= i < l < |s.drops| :: s.drops[i].position <= s.drops[l].position
  }

  lemma RunOrdersDrops(capacity: nat, ops: seq<Op>, n: nat)
    requires n <= |ops|
    ensures DropsInOrder(Run(capacity, ops, n))
  {
    for m := 0 to n
      invariant DropsInOrder(Run(capacity, ops, m))
    {
      ApplyOrdersDrops(Run(capacity, ops, m), ops[m]);
    }
  }

  lemma ApplyOrdersDrops(s: Stream, op: Op)
    requires DropsInOrder(s)
    ensures DropsInOrder(Apply(s, op))
  {
  }

  /** A full queue, a lost event without a watermark, and a consumer that catches up. */
  function SilentOps(first: CacheEvent, lost: CacheEvent, next: CacheEvent): seq<Op> {
    [OfferEvent(first), OfferEvent(lost), TakeNext, OfferEvent(next)]
  }

  /** On this run the consumer sees the events before and after the lost one and nothing between. */
  lemma SilentLossIsPossible(first: CacheEvent, lost: CacheEvent, next: CacheEvent)
    requires lost.watermark == 0
    ensures var s := Run(1, SilentOps(first, lost, next), 4);
            s.drops == [Drop(0, 0, 1)] && s.received + s.queue == [Event(first), Event(next)] && NextEvent(s, 0, 1) &&
            !exists j: nat :: j < 1 && MarkedAt(s.entered, s.drops[0], j)
  {
    var ops := SilentOps(first, lost, next);
    var s1 := Apply(Opened(1), ops[0]);
    assert Run(1, ops, 1) == s1 && s1.queue == [Event(first)];
    var s2 := Apply(s1, ops[1]);
    assert Run(1, ops, 2) == s2 && s2.drops == [Drop(0, 0, 1)] && s2.gapAfter == 0;
    var s3 := Apply(s2, ops[2]);
    assert Run(1, ops, 3) == s3 && s3.queue == [];
    assert Run(1, ops, 4) == Apply(s3, ops[3]);
  }

  // ---------------------------------------------------------------- accounting

  ghost function CountOffered(entered: seq<Entered>): nat {
    if entered == [] then 0 else
      CountOffered(entered[..|entered| - 1]) + if entered[|entered| - 1].local then 0 else 1
  }

  ghost function Items(entered: seq<Entered>): seq<Item> {
    if entered == [] then [] else Items(entered[..|entered| - 1]) + [entered[|entered| - 1].item]
  }

  /** Everything offered, but for `open` items still being handled, either entered or is
      counted as dropped; and the consumer sees exactly what entered, in order. */
  ghost predicate Accounted(s: Stream, open: nat) {
    s.offered == CountOffered(s.entered) + s.dropped + open &&
    s.dropped == |s.drops| &&
    Items(s.entered) == s.received + s.queue &&
    |s.queue| <= s.capacity
  }

  lemma PushAccounted(s: Stream, item: Item, local: bool, open: nat)
    requires HasRoom(s) && Accounted(s, open) && (local || open > 0)
    ensures Accounted(Push(s, item, local), if local then open else open - 1)
  {
    var t := Push(s, item, local);
    assert t.entered[..|t.entered| - 1] == s.entered;
  }

  lemma LoseAccounted(s: Stream, watermark: U64, open: nat)
    requires Accounted(s, open) && open > 0
    ensures Accounted(Lose(s, watermark), open - 1)
  {
  }

  lemma EventAccounted(s: Stream, e: CacheEvent)
    requires Accounted(s, 0)
    ensures Accounted(AcceptEvent(s, e), 0)
  {
    var r := s.(offered := s.offered + 1);
    var t := FlushGap(r);
    if r.gapAfter != 0 && HasRoom(r) {
      PushAccounted(r, Gap(r.gapAfter), true, 1);
    }
    assert Accounted(t, 1);
    if t.gapAfter != 0 {
      LoseAccounted(t, e.watermark, 1);
    } else {
      var counted := t.(events := t.events + 1);
      if HasRoom(counted) {
        PushAccounted(counted, Event(e), false, 1);
      } else {
        LoseAccounted(counted, e.watermark, 1);
      }
    }
  }

  lemma ApplyAccounted(s: Stream, op: Op)
    requires Accounted(s, 0)
    ensures Accounted(Apply(s, op), 0)
  {
    match op
    case OfferEvent(e) => EventAccounted(s, e);
    case OfferGap(w) =>
      var t := s.(offered := s.offered + 1);
      if HasRoom(t) {
        PushAccounted(t, Gap(w), false, 1);
      } else {
        LoseAccounted(t, w, 1);
      }
    case TakeNext =>
    case CloseReceiver =>
  }

  lemma OfferedIsDeliveredOrDropped(capacity: nat, ops: seq<Op>, n: nat)
    requires n <= |ops|
    ensures Accounted(Run(capacity, ops, n), 0)
  {
    for m := 0 to n
      invariant Accounted(Run(capacity, ops, m), 0)
    {
      ApplyAccounted(Run(capacity, ops, m), ops[m]);
    }
  }

  // ---------------------------------------------------------------- the object

  class ActiveSubscription {
    const capacity: nat
    var queue: seq<Item>
    var receiverOpen: bool
    var gapAfter: U64
    var events: nat
    var dropped: nat
    ghost var offered: nat
    ghost var entered: seq<Entered>
    ghost var received: seq<Item>
    ghost var drops: seq<Drop>

    ghost function Value(): Stream
      reads this
    {
      Stream(capacity, queue, receiverOpen, gapAfter, events, dropped, offered, entered, received, drops)
    }

    constructor (capacity: nat)
      ensures Value() == Opened(capacity)
    {
      this.capacity := capacity;
      queue, receiverOpen, gapAfter, events, dropped := [], true, 0, 0, 0;
      offered, entered, received, drops := 0, [], [], [];
    }

    method TrySend(item: Item, ghost local: bool) returns (sent: bool)
      modifies this`queue, this`entered
      ensures sent == HasRoom(old(Value()))
      ensures Value() == if sent then Push(old(Value()), item, local) else old(Value())
    {
      sent := receiverOpen && |queue| < capacity;
      if sent {
        queue := queue + [item];
        entered := entered + [Entered(item, local)];
      }
    }

    method MarkLost(watermark: U64)
      modifies this`gapAfter, this`dropped, this`drops
      ensures Value() == Lose(old(Value()), watermark)
    {
      drops := drops + [Drop(watermark, gapAfter, |entered|)];
      gapAfter := Max(gapAfter, watermark);
      dropped := dropped + 1;
    }

    method OnEvent(e: CacheEvent)
      modifies this
      ensures Value() == AcceptEvent(old(Value()), e)
    {
      offered := offered + 1;
      if gapAfter != 0 {
        var flushed := TrySend(Gap(gapAfter), true);
        if !flushed {
          MarkLost(e.watermark);
          return;
        }
        gapAfter := 0;
      }
      events := events + 1;
      var sent := TrySend(Event(e), false);
      if !sent {
        MarkLost(e.watermark);
      }
    }

    method OnGap(afterWatermark: U64)
      modifies this
      ensures Value() == AcceptGap(old(Value()), afterWatermark)
    {
      offered := offered + 1;
      var sent := TrySend(Gap(afterWatermark), false);
      if !sent {
        MarkLost(afterWatermark);
      }
    }
  }
}
