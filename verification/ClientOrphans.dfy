/** Who keeps an active subscription or session: a handle, an acknowledgement on its way, or a
    task that is closing it; or nobody, after an acknowledgement was dropped unread. */
module ClientOrphans {
  import opened Words
  import opened ClientRuntime
  import opened ClientOwnership
  import opened ClientScenario

  predicate InSlot(h: Threads, t: Tid, id: Id) {
    t in h.slots && h.slots[t] == Filled(Ack(id))
  }

  predicate InHand(tasks: map<Tid, Pc>, t: Tid, id: Id) {
    t in tasks && (tasks[t] == Closing(id) || (tasks[t].Activated? && tasks[t].ack == id))
  }

  ghost predicate Kept(m: Shared, h: Threads, id: Id) {
    id in m.handles || id in h.orphans || (exists t :: InSlot(h, t, id)) || (exists t :: InHand(h.tasks, t, id))
  }

  ghost predicate Covered(m: Shared, h: Threads, k: Kind) {
    forall id | id in Active(m, k) :: KindOf(id) == k && Kept(m, h, id)
  }

  /** How a step passes an active entry on. */
  ghost predicate Passes(m: Shared, h: Threads, t: Tid, pc: Option<Pc>, e: Effect) {
    (forall id | id in m.handles :: id in e.shared.handles || e.next == Some(Closing(id))) &&
    (e.op.Read? && ReplyOf(h, t).Ack? ==> ReplyOf(h, t).id in e.shared.handles) &&
    (pc.Some? && pc.value.Closing? ==> pc.value.id !in Active(e.shared, KindOf(pc.value.id))) &&
    (pc.Some? && pc.value.Activated? ==>
       (e.op == Send(pc.value.owner, Ack(pc.value.ack)) && pc.value.owner in h.slots) ||
       e.next == Some(Closing(pc.value.ack))) &&
    (pc.Some? && pc.value.Taken? ==> e.next == Some(Activated(pc.value.owner, pc.value.ack)) || e.shared == m)
  }

  lemma CallerPasses(m: Shared, h: Threads, t: Tid, phase: Phase, q: Request)
    ensures Passes(m, h, t, Some(Calling(phase, q)), CallerStep(m, t, phase, q, ReplyOf(h, t)))
  {
    hide Pend, PoolOf, Active;
  }

  lemma ClosePasses(m: Shared, h: Threads, t: Tid, id: Id)
    ensures Passes(m, h, t, Some(Closing(id)), Close(m, t, id))
  {
  }

  lemma ReaderPasses(m: Shared, h: Threads, pc: Pc)
    requires InsideEnvelope(pc)
    ensures Passes(m, h, READER, Some(pc), ReaderStep(m, pc, pc.owner in h.slots))
  {
    hide PoolOf, Active;
  }

  lemma TaskPasses(m: Shared, h: Threads, t: Tid, pc: Pc)
    requires !pc.ControlSend? && !pc.Idle? && InPlace(t, pc)
    ensures Passes(m, h, t, Some(pc), TaskStep(m, t, pc, ReplyOf(h, t), Alive(h, pc)))
  {
    hide Pend, PoolOf, Active, CallerStep, Close, ReaderStep;
    if InsideEnvelope(pc) {
      ReaderPasses(m, h, pc);
    } else if pc.Calling? {
      CallerPasses(m, h, t, pc.phase, pc.req);
    } else if pc.Closing? {
      ClosePasses(m, h, t, pc.id);
    }
  }

  lemma StepPasses(s: State, a: Action)
    requires Enabled(s, a) && Shape(s.threads)
    ensures Passes(s.shared, s.threads, Actor(a), PcOf(s.threads.tasks, Actor(a)), EffectOf(s, a))
  {
    hide TaskStep, Pend, PoolOf, Active;
    if a.Advance? {
      TaskPasses(s.shared, s.threads, a.t, s.threads.tasks[a.t]);
    }
  }

  /** An acknowledgement in a slot is read into a handle, dropped unread, or stays. */
  lemma SlotPasses(m: Shared, h: Threads, t: Tid, e: Effect, u: Tid, id: Id)
    requires Shape(h) && Answers(m, h) && InSlot(h, u, id)
    requires Addressed(m, t, PcOf(h.tasks, t), e) && Passes(m, h, t, PcOf(h.tasks, t), e)
    ensures Kept(e.shared, Apply(h, t, e.next, e.op), id)
  {
    hide Pend, Active;
    var h' := Apply(h, t, e.next, e.op);
    if u == t && e.op.Read? {
      assert id in e.shared.handles;
    } else if u == t && e.op.Drop? {
      assert id in h'.orphans;
    } else {
      assert Replied(h, u);
      assert e.op.Send? ==> Due(h, e.op.owner);
      if e.op.FailAll? {
        DrainedWereSilent(m, h, t, e, u);
      }
      assert InSlot(h', u, id);
    }
  }

  lemma DrainedWereSilent(m: Shared, h: Threads, t: Tid, e: Effect, u: Tid)
    requires Answers(m, h) && Addressed(m, t, PcOf(h.tasks, t), e) && e.op.FailAll? && Replied(h, u)
    ensures Unowned(e.op.drained, u)
  {
    hide Pend;
    var k :| e.op.drained == Pend(m, k) && Pend(e.shared, k) == map[];
    assert Unowned(Pend(m, k), u);
  }

  /** A task in charge of an active entry closes it, hands it over, or is still in charge. */
  lemma HandPasses(m: Shared, h: Threads, t: Tid, e: Effect, u: Tid, id: Id)
    requires InHand(h.tasks, u, id) && id in Active(e.shared, KindOf(id))
    requires Passes(m, h, t, PcOf(h.tasks, t), e)
    ensures Kept(e.shared, Apply(h, t, e.next, e.op), id)
  {
    hide Pend, Active;
    var h' := Apply(h, t, e.next, e.op);
    if u != t {
      assert InHand(h'.tasks, u, id);
    } else if h.tasks[u].Activated? && e.next != Some(Closing(id)) {
      assert InSlot(h', h.tasks[u].owner, id);
    } else {
      assert InHand(h'.tasks, u, id);
    }
  }

  lemma KeptKept(m: Shared, h: Threads, t: Tid, e: Effect, id: Id)
    requires Shape(h) && Answers(m, h) && Kept(m, h, id) && id in Active(e.shared, KindOf(id))
    requires Addressed(m, t, PcOf(h.tasks, t), e) && Passes(m, h, t, PcOf(h.tasks, t), e)
    ensures Kept(e.shared, Apply(h, t, e.next, e.op), id)
  {
    hide Pend, Active, Answers, Shape, Addressed;
    var h' := Apply(h, t, e.next, e.op);
    if u :| InSlot(h, u, id) {
      SlotPasses(m, h, t, e, u, id);
    } else if u :| InHand(h.tasks, u, id) {
      HandPasses(m, h, t, e, u, id);
    } else if id in m.handles && id !in e.shared.handles {
      assert InHand(h'.tasks, t, id);
    }
  }

  lemma CoveredKept(m: Shared, h: Threads, t: Tid, e: Effect, k: Kind)
    requires Shape(h) && Answers(m, h) && Covered(m, h, k)
    requires Activates(m, e.shared, PcOf(h.tasks, t), k)
    requires Addressed(m, t, PcOf(h.tasks, t), e) && Passes(m, h, t, PcOf(h.tasks, t), e)
    ensures Covered(e.shared, Apply(h, t, e.next, e.op), k)
  {
    hide Pend, Active, Answers, Shape, Addressed, Kept;
    var h' := Apply(h, t, e.next, e.op);
    forall id | id in Active(e.shared, k)
      ensures KindOf(id) == k && Kept(e.shared, h', id)
    {
      if id in Active(m, k) {
        KeptKept(m, h, t, e, id);
      } else {
        NewlyKept(m, h, t, e, id);
      }
    }
  }

  lemma NewlyKept(m: Shared, h: Threads, t: Tid, e: Effect, id: Id)
    requires t in h.tasks && h.tasks[t].Taken? && h.tasks[t].ack == id && e.shared != m
    requires Passes(m, h, t, PcOf(h.tasks, t), e)
    ensures Kept(e.shared, Apply(h, t, e.next, e.op), id)
  {
    hide Active;
    assert InHand(Apply(h, t, e.next, e.op).tasks, t, id);
  }

  // ---------------------------------------------------------------- every run

  ghost predicate AllCovered(s: State) {
    forall k: Kind :: Covered(s.shared, s.threads, k)
  }

  lemma StepCovered(s: State, a: Action)
    requires Enabled(s, a) && Owned(s) && AllCovered(s)
    ensures AllCovered(Step(s, a))
  {
    hide EffectOf, Covered, Passes, Addressed, Activates, Answers, AllBacked, Numbers;
    var t, e := Actor(a), EffectOf(s, a);
    StepAddressed(s, a);
    StepPasses(s, a);
    forall k: Kind
      ensures Covered(e.shared, Apply(s.threads, t, e.next, e.op), k)
    {
      StepActivates(s, a, k);
      CoveredKept(s.shared, s.threads, t, e, k);
    }
  }

  lemma InitCovered(max: Limits)
    ensures AllCovered(Init(max))
  {
    forall k: Kind
      ensures Covered(Init(max).shared, Init(max).threads, k)
    {
      assert PoolOf(Init(max).shared, k) == FullPool(MaxOf(max, k));
    }
  }

  lemma RunCovered(max: Limits, states: seq<State>, actions: seq<Action>)
    requires IsRun(max, states, actions)
    ensures forall i | 0 <= i < |states| :: AllCovered(states[i])
  {
    hide Owned, AllCovered, Step;
    RunOwned(max, states, actions);
    InitCovered(max);
    for i := 0 to |actions|
      invariant forall j | 0 <= j <= i :: AllCovered(states[j])
    {
      StepCovered(states[i], actions[i]);
    }
  }

  /** Only the idle reader is in flight. */
  predicate AtRest(s: State) {
    ReaderIdle(s.threads) && forall t | t in s.threads.tasks :: t == READER
  }

  lemma RestIsHandled(s: State, k: Kind, id: Id)
    requires Owned(s) && AllCovered(s) && AtRest(s) && id in Active(s.shared, k)
    ensures id in s.shared.handles || id in s.threads.orphans
  {
    hide Active, Answers, AllBacked, Numbers;
    assert Covered(s.shared, s.threads, k);
  }

  /** In every run, with nothing in flight, an active entry belongs to a live handle, unless its
      acknowledgement was dropped unread. */
  lemma ActiveIsHandled(max: Limits, states: seq<State>, actions: seq<Action>, i: nat, k: Kind, id: Id)
    requires IsRun(max, states, actions) && i < |states| && AtRest(states[i]) && id in Active(states[i].shared, k)
    ensures KindOf(id) == k && (id in states[i].shared.handles || id in states[i].threads.orphans)
  {
    hide Owned, Active;
    RunOwned(max, states, actions);
    RunCovered(max, states, actions);
    RestIsHandled(states[i], k, id);
    assert Covered(states[i].shared, states[i].threads, k);
  }

  /** The step drops a receiver that holds an unread acknowledgement of `id`. */
  predicate DropsUnread(s: State, a: Action, id: Id)
    requires Enabled(s, a)
  {
    EffectOf(s, a).op == Drop && InSlot(s.threads, Actor(a), id)
  }

  lemma OrphansAfter(s: State, a: Action, id: Id)
    requires Enabled(s, a)
    ensures id in Step(s, a).threads.orphans <==> id in s.threads.orphans || DropsUnread(s, a, id)
  {
    hide EffectOf;
  }

  /** The orphans are the ids whose acknowledgement some step dropped unread. */
  lemma OrphansWereUnread(max: Limits, states: seq<State>, actions: seq<Action>, i: nat, id: Id)
    requires IsRun(max, states, actions) && i < |states|
    ensures id in states[i].threads.orphans <==>
            exists j :: 0 <= j < i && DropsUnread(states[j], actions[j], id)
  {
    hide Step, DropsUnread;
    for n := 0 to i
      invariant id in states[n].threads.orphans <==> exists j :: 0 <= j < n && DropsUnread(states[j], actions[j], id)
    {
      OrphansAfter(states[n], actions[n], id);
      assert Enabled(states[n], actions[n]) && states[n + 1] == Step(states[n], actions[n]);
    }
  }

  // ---------------------------------------------------------------- an orphan

  /** With room for one subscription, a caller that gives up between acknowledgement and receipt
      leaves an active subscription that nothing owns. */
  lemma OrphanIsReachable(max: Limits) returns (s: State)
    requires max.subscriptions >= 1
    ensures Reachable(max, s) && AtRest(s)
    ensures SubId(1) in Active(s.shared, Subscription) && s.shared.handles == multiset{} && SubId(1) in s.threads.orphans
  {
    hide Reachable, Active, Pend, PoolOf;
    StartIsResting(max);
    var s1, m1, q := AckArrives(max, Init(max), Init(max).shared, 1, {}, SubId(1));
    s := AckIsDropped(max, s1, m1, 1, {}, q, SubId(1));
  }
}
