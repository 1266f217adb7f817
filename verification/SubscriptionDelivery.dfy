/** When the queue of a subscription takes an item and when it does not, told by what was offered,
    taken out and closed before. */
module SubscriptionDelivery {
  import opened Words
  import opened SubscriptionStream

  /** The consumer has not closed its end among the first `n` operations. */
  ghost predicate StillOpen(ops: seq<Op>, n: nat)
    requires n <= |ops|
  {
    CloseReceiver !in ops[..n]
  }

  /** How many items have entered and were not taken out yet. */
  ghost function Outstanding(s: Stream): int {
    |s.entered| - |s.received|
  }

  /** `more` items fit. */
  ghost predicate Fits(capacity: nat, ops: seq<Op>, n: nat, s: Stream, more: nat)
    requires n <= |ops|
  {
    StillOpen(ops, n) && Outstanding(s) + more <= capacity
  }

  /** The items that operation `n` lets in: a gap from the server if one item fits; a pending marker
      before an event if one fits, and the event itself if it fits too. */
  ghost function LetIn(capacity: nat, ops: seq<Op>, n: nat, s: Stream): seq<Entered>
    requires n < |ops|
  {
    match ops[n]
    case OfferGap(w) => if Fits(capacity, ops, n, s, 1) then [Entered(Gap(w), false)] else []
    case OfferEvent(e) =>
      if s.gapAfter == 0 then
        if Fits(capacity, ops, n, s, 1) then [Entered(Event(e), false)] else []
      else
        (if Fits(capacity, ops, n, s, 1) then [Entered(Gap(s.gapAfter), true)] else []) +
        (if Fits(capacity, ops, n, s, 2) then [Entered(Event(e), false)] else [])
    case _ => []
  }

  /** The watermark of the offered item, if it does not get in. */
  ghost function TurnedDown(capacity: nat, ops: seq<Op>, n: nat, s: Stream): Option<U64>
    requires n < |ops|
  {
    match ops[n]
    case OfferGap(w) => if Fits(capacity, ops, n, s, 1) then None else Some(w)
    case OfferEvent(e) => if Fits(capacity, ops, n, s, if s.gapAfter == 0 then 1 else 2) then None else Some(e.watermark)
    case _ => None
  }

  /** What has entered is what was taken out and what is queued. */
  ghost predicate Counted(capacity: nat, ops: seq<Op>, n: nat, s: Stream)
    requires n <= |ops|
  {
    s.capacity == capacity && Outstanding(s) == |s.queue| && (s.receiverOpen <==> StillOpen(ops, n))
  }

  lemma RunCounted(capacity: nat, ops: seq<Op>, n: nat)
    requires n <= |ops|
    ensures Counted(capacity, ops, n, Run(capacity, ops, n))
  {
    hide Apply;
    for m := 0 to n
      invariant Counted(capacity, ops, m, Run(capacity, ops, m))
    {
      hide Counted;
      CountedNext(capacity, ops, m, Run(capacity, ops, m));
    }
  }

  lemma CountedNext(capacity: nat, ops: seq<Op>, n: nat, s: Stream)
    requires n < |ops| && Counted(capacity, ops, n, s)
    ensures Counted(capacity, ops, n + 1, Apply(s, ops[n]))
  {
    assert ops[..n + 1] == ops[..n] + [ops[n]];
  }

  /** On every run, an offered item gets in if and only if the consumer has not closed its end and
      fewer than `capacity` items are outstanding, counting a pending marker that has to go first;
      otherwise it is logged as dropped. Nothing else enters and nothing else is dropped. An event is
      counted once the marker before it is out of the way, even if it is then dropped itself. */
  lemma EntersExactly(capacity: nat, ops: seq<Op>, n: nat)
    requires n < |ops|
    ensures var s, s' := Run(capacity, ops, n), Run(capacity, ops, n + 1);
            s'.entered == s.entered + LetIn(capacity, ops, n, s) &&
            s'.events == s.events + if ops[n].OfferEvent? && (s.gapAfter == 0 || Fits(capacity, ops, n, s, 1)) then 1 else 0
    ensures var s, s' := Run(capacity, ops, n), Run(capacity, ops, n + 1);
            match TurnedDown(capacity, ops, n, s)
            case None => s'.drops == s.drops && s'.dropped == s.dropped
            case Some(w) =>
              s'.dropped == s.dropped + 1 && |s'.drops| == |s.drops| + 1 && s'.drops[..|s.drops|] == s.drops &&
              s'.drops[|s.drops|].watermark == w && s'.drops[|s.drops|].position == |s'.entered|
  {
    RunCounted(capacity, ops, n);
    var s := Run(capacity, ops, n);
    var s' := Apply(s, ops[n]);
    assert s' == Run(capacity, ops, n + 1);
    assert s.entered + [] == s.entered;
    match ops[n]
    case OfferEvent(e) => assert s'.entered == s.entered + LetIn(capacity, ops, n, s);
    case _ =>
  }

  /** The consumer gets the items that entered, in their order and each once. */
  lemma TakenInOrder(capacity: nat, ops: seq<Op>, n: nat)
    requires n < |ops| && ops[n] == TakeNext
    ensures var s, s' := Run(capacity, ops, n), Run(capacity, ops, n + 1);
            if Outstanding(s) == 0 then s' == s
            else |s.received| < |s.entered| && s'.received == s.received + [s.entered[|s.received|].item]
  {
    RunCounted(capacity, ops, n);
    OfferedIsDeliveredOrDropped(capacity, ops, n);
    var s := Run(capacity, ops, n);
    ItemsAt(s.entered);
    if s.queue != [] {
      assert Items(s.entered)[|s.received|] == s.queue[0];
    }
  }

  lemma {:induction false} ItemsAt(entered: seq<Entered>)
    ensures |Items(entered)| == |entered| && forall i | 0 <= i < |entered| :: Items(entered)[i] == entered[i].item
  {
    if entered != [] {
      ItemsAt(entered[..|entered| - 1]);
    }
  }

  // ---------------------------------------------------------------- the marker

  /** The client has not announced anything itself since drop `i`. */
  ghost predicate Unannounced(s: Stream, i: nat)
    requires i < |s.drops|
  {
    forall j | s.drops[i].position <= j < |s.entered| :: !s.entered[j].local
  }

  /** The pending marker is the largest watermark lost since the last announcement, or zero. */
  ghost predicate MarksLargest(s: Stream) {
    (forall i | 0 <= i < |s.drops| :: s.drops[i].position <= |s.entered|) &&
    (forall i | 0 <= i < |s.drops| && Unannounced(s, i) :: s.drops[i].watermark <= s.gapAfter) &&
    (s.gapAfter > 0 ==> exists i | 0 <= i < |s.drops| :: Unannounced(s, i) && s.drops[i].watermark == s.gapAfter)
  }

  lemma PushMarks(s: Stream, item: Item)
    requires MarksLargest(s)
    ensures MarksLargest(Push(s, item, false))
  {
    var t := Push(s, item, false);
    forall i | 0 <= i < |s.drops| ensures Unannounced(t, i) <==> Unannounced(s, i) {
      if Unannounced(t, i) {
        forall j | s.drops[i].position <= j < |s.entered| ensures !s.entered[j].local {
          assert !t.entered[j].local;
        }
      }
    }
  }

  lemma FlushMarks(s: Stream)
    requires MarksLargest(s)
    ensures MarksLargest(FlushGap(s))
  {
    if s.gapAfter != 0 && HasRoom(s) {
      var t := FlushGap(s);
      forall i | 0 <= i < |t.drops| ensures !Unannounced(t, i) {
        assert t.entered[|s.entered|].local;
      }
    }
  }

  lemma LoseMarks(s: Stream, w: U64)
    requires MarksLargest(s)
    ensures MarksLargest(Lose(s, w))
  {
    var t := Lose(s, w);
    forall i | 0 <= i < |s.drops| ensures t.drops[i] == s.drops[i] && (Unannounced(t, i) <==> Unannounced(s, i)) {
    }
    assert Unannounced(t, |s.drops|);
    if t.gapAfter > 0 && t.gapAfter != w {
      var i :| 0 <= i < |s.drops| && Unannounced(s, i) && s.drops[i].watermark == s.gapAfter;
      assert Unannounced(t, i) && t.drops[i].watermark == t.gapAfter;
    }
  }

  lemma SameLogsMark(s: Stream, t: Stream)
    requires MarksLargest(s) && t.drops == s.drops && t.entered == s.entered && t.gapAfter == s.gapAfter
    ensures MarksLargest(t)
  {
    forall i | 0 <= i < |s.drops| ensures Unannounced(t, i) <==> Unannounced(s, i) {
    }
  }

  lemma ApplyMarks(s: Stream, op: Op)
    requires MarksLargest(s)
    ensures MarksLargest(Apply(s, op))
  {
    hide MarksLargest;
    var r := s.(offered := s.offered + 1);
    SameLogsMark(s, r);
    match op
    case OfferEvent(e) =>
      var t := FlushGap(r);
      FlushMarks(r);
      var counted := t.(events := t.events + 1);
      SameLogsMark(t, counted);
      LoseMarks(t, e.watermark);
      LoseMarks(counted, e.watermark);
      PushMarks(counted, Event(e));
    case OfferGap(w) =>
      PushMarks(r, Gap(w));
      LoseMarks(r, w);
    case TakeNext => SameLogsMark(s, Receive(s));
    case CloseReceiver => SameLogsMark(s, s.(receiverOpen := false));
  }

  /** On every run, the marker that is pending, and so the gap that is announced next, is the largest
      watermark that was lost since the last announcement. */
  lemma MarkerIsLargestLost(capacity: nat, ops: seq<Op>, n: nat)
    requires n <= |ops|
    ensures MarksLargest(Run(capacity, ops, n))
  {
    hide MarksLargest;
    assert MarksLargest(Opened(capacity)) by { NothingToMark(capacity); }
    for m := 0 to n
      invariant MarksLargest(Run(capacity, ops, m))
    {
      ApplyMarks(Run(capacity, ops, m), ops[m]);
    }
  }

  lemma NothingToMark(capacity: nat)
    ensures MarksLargest(Opened(capacity))
  {
  }
}
