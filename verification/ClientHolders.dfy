/** How many places an acknowledged id can be in: the reader's hand, a slot, a handle it once had,
    and among the orphans. Never more than the server acknowledged it; and it acknowledges a
    subscription once. */
module ClientHolders {
  import opened Words
  import opened MapCounts
  import opened ClientRuntime
  import opened ClientOwnership
  import opened ClientSubscriptions
  import opened ClientOrphans
  import opened ClientScenario

  function AckIn(id: Id): Slot -> bool {
    slot => slot == Filled(Ack(id))
  }

  ghost function SlotCount(slots: map<Tid, Slot>, id: Id): nat {
    |Where(slots, AckIn(id))|
  }

  /** The reader has taken up a valid acknowledgement and neither sent it nor closed the entry. */
  predicate InReader(pc: Option<Pc>, id: Id) {
    pc.Some? &&
    ((pc.value.Taken? && pc.value.valid && pc.value.ack == id) || (pc.value.Activated? && pc.value.ack == id) ||
     pc.value == Closing(id))
  }

  ghost function Places(m: Shared, h: Threads, id: Id): nat {
    One(InReader(PcOf(h.tasks, READER), id)) + SlotCount(h.slots, id) +
    One(id in m.log.notes.handled) + One(id in h.orphans)
  }

  function Acks(m: Shared, id: Id): nat {
    m.log.notes.acks[id]
  }

  /** Handles, and tasks that close one, come from an id that had a handle. */
  ghost predicate FromHandles(m: Shared, tasks: map<Tid, Pc>) {
    (forall id | id in m.handles :: id in m.log.notes.handled) &&
    (forall t | t in tasks && t != READER && tasks[t].Closing? :: tasks[t].id in m.log.notes.handled)
  }

  // ---------------------------------------------------------------- slots

  lemma SlotsAfterUpdate(slots: map<Tid, Slot>, t: Tid, slot: Slot, id: Id)
    ensures SlotCount(slots[t := slot], id) ==
            SlotCount(slots, id) - One(t in slots && slots[t] == Filled(Ack(id))) + One(slot == Filled(Ack(id)))
    ensures SlotCount(slots - {t}, id) == SlotCount(slots, id) - One(t in slots && slots[t] == Filled(Ack(id)))
  {
    WhereUpdate(slots, t, slot, AckIn(id));
    WhereRemove(slots, t, AckIn(id));
  }

  lemma SlotsAfterFailure(slots: map<Tid, Slot>, t: Tid, drained: map<nat, Pending>, id: Id)
    ensures SlotCount(SlotsAfter(slots, t, FailAll(drained)), id) <= SlotCount(slots, id)
  {
    var after := SlotsAfter(slots, t, FailAll(drained));
    SubsetSize(Where(after, AckIn(id)), Where(slots, AckIn(id)));
  }

  lemma SubsetSize<T>(a: set<T>, b: set<T>)
    requires a <= b
    ensures |a| <= |b|
  {
    assert b == a + (b - a);
  }

  /** The step reads or drops the acknowledgement in its own slot. */
  predicate Removes(slots: map<Tid, Slot>, t: Tid, op: SlotOp, id: Id) {
    (op.Read? || op.Drop?) && t in slots && slots[t] == Filled(Ack(id))
  }

  lemma SlotCountAfter(slots: map<Tid, Slot>, t: Tid, op: SlotOp, id: Id)
    ensures SlotCount(SlotsAfter(slots, t, op), id) + One(Removes(slots, t, op, id)) <=
            SlotCount(slots, id) + One(op.Send? && op.reply == Ack(id))
  {
    hide SlotCount;
    match op
    case Keep =>
    case Open => SlotsAfterUpdate(slots, t, Waiting, id);
    case Read => SlotsAfterUpdate(slots, t, Waiting, id);
    case Drop => SlotsAfterUpdate(slots, t, Waiting, id);
    case Send(owner, reply) => SlotsAfterUpdate(slots, owner, Filled(reply), id);
    case FailAll(drained) => SlotsAfterFailure(slots, t, drained, id);
  }

  // ---------------------------------------------------------------- one step

  /** How a step passes an acknowledgement on. */
  predicate HandsOn(m: Shared, h: Threads, t: Tid, pc: Option<Pc>, e: Effect, id: Id) {
    Acks(e.shared, id) >= Acks(m, id) + One(t == READER && InReader(e.next, id) && !InReader(pc, id)) &&
    (e.op.Send? && e.op.reply == Ack(id) ==> t == READER && InReader(pc, id) && !InReader(e.next, id)) &&
    (id in m.log.notes.handled ==> id in e.shared.log.notes.handled) &&
    (id in e.shared.log.notes.handled ==> id in m.log.notes.handled || (e.op.Read? && Removes(h.slots, t, e.op, id))) &&
    (id in e.shared.handles ==> id in m.handles || id in e.shared.log.notes.handled) &&
    (e.next == Some(Closing(id)) && t != READER ==> id in m.handles || id in m.log.notes.handled)
  }

  lemma CallerHandsOn(m: Shared, h: Threads, t: Tid, phase: Phase, q: Request, id: Id)
    requires t != READER && (phase == Receiving ==> t in h.slots && h.slots[t].Filled?)
    ensures HandsOn(m, h, t, Some(Calling(phase, q)), CallerStep(m, t, phase, q, ReplyOf(h, t)), id)
  {
    hide PoolOf, Pend;
  }

  lemma TerminateHandsOn(m: Shared, h: Threads, t: Tid, stage: nat, holding: Option<Kind>, id: Id)
    ensures HandsOn(m, h, t, Some(Term(stage, holding)), Terminate(m, t, stage, holding), id)
  {
    hide PoolOf, Pend, Unhold;
    UnholdChangesPools(m, holding);
    UnholdChangesPools(Forget(m, 5), holding);
  }

  lemma UnholdChangesPools(m: Shared, holding: Option<Kind>)
    ensures Unhold(m, holding).log == m.log && Unhold(m, holding).handles == m.handles
  {
  }

  lemma ReaderHandsOn(m: Shared, h: Threads, pc: Pc, alive: bool, id: Id)
    requires InsideEnvelope(pc)
    ensures HandsOn(m, h, READER, Some(pc), ReaderStep(m, pc, alive), id)
  {
    hide PoolOf, Pend;
  }

  lemma TaskHandsOn(m: Shared, h: Threads, t: Tid, pc: Pc, id: Id)
    requires t in h.tasks && h.tasks[t] == pc && CanAdvance(h, t) && InPlace(t, pc)
    ensures HandsOn(m, h, t, Some(pc), TaskStep(m, t, pc, ReplyOf(h, t), Alive(h, pc)), id)
  {
    hide PoolOf, Pend, CallerStep, ReaderStep, Terminate;
    if InsideEnvelope(pc) {
      ReaderHandsOn(m, h, pc, Alive(h, pc), id);
    } else if pc.Calling? {
      CallerHandsOn(m, h, t, pc.phase, pc.req, id);
    } else if pc.Term? {
      TerminateHandsOn(m, h, t, pc.stage, pc.holding, id);
    }
  }

  lemma ServerHandsOn(m: Shared, h: Threads, a: Action, id: Id)
    requires FromServer(a)
    ensures HandsOn(m, h, READER, Some(Idle), FromServerEffect(m, a), id)
  {
    hide PoolOf, Pend;
  }

  lemma StepHandsOn(s: State, a: Action, id: Id)
    requires Enabled(s, a) && Shape(s.threads)
    ensures HandsOn(s.shared, s.threads, Actor(a), PcOf(s.threads.tasks, Actor(a)), EffectOf(s, a), id)
  {
    hide HandsOn, TaskStep, FromServerEffect, PoolOf, Pend, WithPool;
    if FromServer(a) {
      ServerHandsOn(s.shared, s.threads, a, id);
    } else if a.Advance? {
      TaskHandsOn(s.shared, s.threads, a.t, s.threads.tasks[a.t], id);
    } else {
      LocalHandsOn(s, a, id);
    }
  }

  lemma LocalHandsOn(s: State, a: Action, id: Id)
    requires Enabled(s, a) && Shape(s.threads) && !FromServer(a) && !a.Advance?
    ensures HandsOn(s.shared, s.threads, a.t, PcOf(s.threads.tasks, a.t), EffectOf(s, a), id)
  {
    hide TaskStep, FromServerEffect, PoolOf, Pend, WithPool;
  }

  lemma PlacesKept(m: Shared, h: Threads, t: Tid, e: Effect, id: Id)
    requires READER in h.tasks && HandsOn(m, h, t, PcOf(h.tasks, t), e, id) && Places(m, h, id) <= Acks(m, id)
    requires t == READER ==> e.next.Some?
    ensures Places(e.shared, Apply(h, t, e.next, e.op), id) <= Acks(e.shared, id)
  {
    hide SlotCount, InReader;
    SlotCountAfter(h.slots, t, e.op, id);
    var h' := Apply(h, t, e.next, e.op);
    assert PcOf(h'.tasks, READER) == if t == READER then e.next else PcOf(h.tasks, READER);
    assert id in h'.orphans ==> id in h.orphans || (e.op.Drop? && Removes(h.slots, t, e.op, id));
  }

  lemma FromHandlesKept(m: Shared, h: Threads, t: Tid, e: Effect)
    requires FromHandles(m, h.tasks) && forall id :: HandsOn(m, h, t, PcOf(h.tasks, t), e, id)
    ensures FromHandles(e.shared, Moved(h.tasks, t, e.next))
  {
    var m', tasks' := e.shared, Moved(h.tasks, t, e.next);
    forall id | id in m'.handles
      ensures id in m'.log.notes.handled
    {
      assert HandsOn(m, h, t, PcOf(h.tasks, t), e, id);
    }
    forall u | u in tasks' && u != READER && tasks'[u].Closing?
      ensures tasks'[u].id in m'.log.notes.handled
    {
      assert HandsOn(m, h, t, PcOf(h.tasks, t), e, tasks'[u].id);
    }
  }

  // ---------------------------------------------------------------- subscriptions

  /** A subscription is acknowledged at most once, and is spent then. */
  ghost predicate AckedOnce(m: Shared, tasks: map<Tid, Pc>) {
    forall n :: Acks(m, SubId(n)) <= 1 && (Acks(m, SubId(n)) == 1 ==> Spent(m, tasks, n))
  }

  /** The only step that acknowledges a subscription takes its entry. */
  predicate Acknowledges(m: Shared, t: Tid, e: Effect, n: nat) {
    Acks(e.shared, SubId(n)) == Acks(m, SubId(n)) ||
    (Acks(e.shared, SubId(n)) == Acks(m, SubId(n)) + 1 && t == READER && e.next.Some? && Accepting(e.next.value, n))
  }

  lemma TaskKeepsAcks(m: Shared, t: Tid, pc: Pc, reply: Reply, alive: bool)
    requires !pc.ControlSend? && !pc.Idle?
    ensures TaskStep(m, t, pc, reply, alive).shared.log.notes.acks == m.log.notes.acks
  {
    hide PoolOf, Pend;
  }

  lemma StepAcknowledges(s: State, a: Action, n: nat)
    requires Enabled(s, a)
    ensures Acknowledges(s.shared, Actor(a), EffectOf(s, a), n)
  {
    hide TaskStep, PoolOf, Pend;
    if a.Advance? {
      var pc := s.threads.tasks[a.t];
      TaskKeepsAcks(s.shared, a.t, pc, ReplyOf(s.threads, a.t), Alive(s.threads, pc));
    }
  }

  lemma AckedOnceKept(m: Shared, h: Threads, t: Tid, e: Effect)
    requires Shape(h) && AllBacked(m, h.tasks) && SubNumbers(h.tasks, m.subIds) && Exclusive(m, h.tasks) && AckedOnce(m, h.tasks)
    requires DrawsSub(PcOf(h.tasks, t), e.next, m.subIds, e.shared.subIds) && Tidy(t, PcOf(h.tasks, t), e)
    requires Changes(m, e.shared, t, PcOf(h.tasks, t), Subscription) && Accepts(m, t, PcOf(h.tasks, t), e)
    requires forall n :: Acknowledges(m, t, e, n)
    ensures AckedOnce(e.shared, Moved(h.tasks, t, e.next))
  {
    hide Pend, Active, Spent, Changes, AllBacked, Exclusive, SubNumbers, DrawsSub, Tidy, Accepts, Acks;
    var tasks' := Moved(h.tasks, t, e.next);
    forall n
      ensures Acks(e.shared, SubId(n)) <= 1 && (Acks(e.shared, SubId(n)) == 1 ==> Spent(e.shared, tasks', n))
    {
      assert Acknowledges(m, t, e, n);
      assert Acks(m, SubId(n)) <= 1;
      if Acks(e.shared, SubId(n)) == Acks(m, SubId(n)) {
        if Spent(m, h.tasks, n) {
          SpentKept(m, h.tasks, t, e, n);
        }
      } else {
        TakenWasUnspent(m, h.tasks, t, e, n);
        ReaderIsNoCaller(h);
        TakenIsSpent(m, h.tasks, t, e, n);
      }
    }
  }

  lemma ReaderIsNoCaller(h: Threads)
    requires Shape(h)
    ensures READER in h.tasks && !h.tasks[READER].Calling?
  {
  }

  /** An entry that can be taken belongs to a subscription that is not spent. */
  lemma TakenWasUnspent(m: Shared, tasks: map<Tid, Pc>, t: Tid, e: Effect, n: nat)
    requires AllBacked(m, tasks) && Accepts(m, t, PcOf(tasks, t), e) && e.next.Some? && Accepting(e.next.value, n)
    ensures !Spent(m, tasks, n)
  {
    hide Pend, Active;
    var c :| c in Pend(m, Subscription) && c !in Pend(e.shared, Subscription) && Pend(m, Subscription)[c].subId == n;
    var o := Pend(m, Subscription)[c].owner;
    assert Backed(Pend(m, Subscription), tasks, Subscription) && Behind(tasks, Subscription, c, Pend(m, Subscription)[c]);
    assert SubOf(PcOf(tasks, o)) == n && !Unowned(Pend(m, Subscription), o);
  }

  // ---------------------------------------------------------------- every run

  ghost predicate Held(s: State) {
    (forall id :: Places(s.shared, s.threads, id) <= Acks(s.shared, id)) &&
    FromHandles(s.shared, s.threads.tasks) && AckedOnce(s.shared, s.threads.tasks)
  }

  lemma StepHeld(s: State, a: Action)
    requires Enabled(s, a) && Owned(s) && SubsApart(s) && Held(s)
    ensures Held(Step(s, a))
  {
    hide EffectOf, Places, Acks, FromHandles, AckedOnce, HandsOn, Acknowledges, SubNumbers, Exclusive, DrawsSub, Tidy,
         Changes, Accepts, Numbers, AllBacked, Answers;
    var t, e := Actor(a), EffectOf(s, a);
    StepIsTidy(s, a);
    ReaderStays(t, PcOf(s.threads.tasks, t), e);
    forall id
      ensures HandsOn(s.shared, s.threads, t, PcOf(s.threads.tasks, t), e, id)
    {
      StepHandsOn(s, a, id);
    }
    forall id
      ensures Places(e.shared, Apply(s.threads, t, e.next, e.op), id) <= Acks(e.shared, id)
    {
      PlacesKept(s.shared, s.threads, t, e, id);
    }
    FromHandlesKept(s.shared, s.threads, t, e);
    forall n
      ensures Acknowledges(s.shared, t, e, n)
    {
      StepAcknowledges(s, a, n);
    }
    StepDrawsSub(s, a);
    StepAccepts(s, a);
    StepChanges(s, a, Subscription);
    AckedOnceKept(s.shared, s.threads, t, e);
  }

  lemma ReaderStays(t: Tid, pc: Option<Pc>, e: Effect)
    requires Tidy(t, pc, e)
    ensures t == READER ==> e.next.Some?
  {
  }

  lemma InitHeld(max: Limits)
    ensures Held(Init(max))
  {
    forall id
      ensures Places(Init(max).shared, Init(max).threads, id) == 0
    {
      assert Where(Init(max).threads.slots, AckIn(id)) == {};
    }
  }

  lemma RunHeld(max: Limits, states: seq<State>, actions: seq<Action>)
    requires IsRun(max, states, actions)
    ensures forall i | 0 <= i < |states| :: Held(states[i])
  {
    hide Owned, SubsApart, Held, Step;
    RunOwned(max, states, actions);
    RunSubsApart(max, states, actions);
    InitHeld(max);
    for i := 0 to |actions|
      invariant forall j | 0 <= j <= i :: Held(states[j])
    {
      StepHeld(states[i], actions[i]);
    }
  }

  /** An id that the server acknowledged at most once is in one place only. */
  lemma OnePlace(s: State, id: Id)
    requires Held(s) && Acks(s.shared, id) <= 1
    ensures id in s.threads.orphans ==> id !in s.shared.log.notes.handled && id !in s.shared.handles
    ensures id in s.threads.orphans ==> !InReader(PcOf(s.threads.tasks, READER), id) && forall t :: !InSlot(s.threads, t, id)
  {
    hide AckedOnce, InReader;
    assert Places(s.shared, s.threads, id) <= 1;
    if t :| InSlot(s.threads, t, id) {
      assert t in Where(s.threads.slots, AckIn(id));
    }
  }

  lemma SubsAreAckedOnce(s: State, n: nat)
    requires Held(s)
    ensures Acks(s.shared, SubId(n)) <= 1
  {
  }

  /** In every run, with nothing in flight, an active entry whose id the server acknowledged at most
      once has a live handle if and only if its acknowledgement was not dropped unread. */
  lemma OwnedExactly(max: Limits, states: seq<State>, actions: seq<Action>, i: nat, k: Kind, id: Id)
    requires IsRun(max, states, actions) && i < |states| && AtRest(states[i]) && id in Active(states[i].shared, k)
    requires Acks(states[i].shared, id) <= 1
    ensures id in states[i].shared.handles <==> id !in states[i].threads.orphans
  {
    hide Held, Active, AtRest;
    RunHeld(max, states, actions);
    ActiveIsHandled(max, states, actions, i, k, id);
    OnePlace(states[i], id);
  }

  /** For subscriptions that is always so: the client chooses their ids. */
  lemma SubscriptionsAreOwnedExactly(max: Limits, states: seq<State>, actions: seq<Action>, i: nat, n: nat)
    requires IsRun(max, states, actions) && i < |states| && AtRest(states[i])
    requires SubId(n) in Active(states[i].shared, Subscription)
    ensures Acks(states[i].shared, SubId(n)) <= 1
    ensures SubId(n) in states[i].shared.handles <==> SubId(n) !in states[i].threads.orphans
  {
    hide Held, Active, AtRest;
    RunHeld(max, states, actions);
    SubsAreAckedOnce(states[i], n);
    OwnedExactly(max, states, actions, i, Subscription, SubId(n));
  }

  /** A session that the server acknowledges for two requests can have both: one acknowledgement was
      dropped unread, the other became a handle. */
  lemma SharedSessionIsReachable(max: Limits, bytes: seq<Byte>) returns (s: State)
    requires max.sessions >= 2 && bytes != []
    ensures Reachable(max, s) && AtRest(s) && SessId(bytes) in Active(s.shared, Session)
    ensures SessId(bytes) in s.shared.handles && SessId(bytes) in s.threads.orphans && Acks(s.shared, SessId(bytes)) == 2
  {
    hide Reachable, Active, Pend, PoolOf;
    var id := SessId(bytes);
    StartIsResting(max);
    var s1, m1, q1 := AckArrives(max, Init(max), Init(max).shared, 1, {}, id);
    var s2 := AckIsDropped(max, s1, m1, 1, {}, q1, id);
    var s3, m3, q3 := AckArrives(max, s2, m1, 2, {id}, id);
    var m4;
    s, m4 := AckIsRead(max, s3, m3, 2, {id}, q3, id);
    HandleKeepsPools(m3, q3, id);
  }

  lemma HandleKeepsPools(m: Shared, q: Request, id: Id)
    ensures var m' := TakeReply(m, q, Ack(id)).shared;
            Active(m', Session) == Active(m, Session) && id in m'.handles && m'.log.notes.acks == m.log.notes.acks
  {
  }
}
