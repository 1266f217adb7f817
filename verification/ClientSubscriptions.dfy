/** Subscription ids are never shared: no accepted acknowledgement replaces an active
    subscription. */
module ClientSubscriptions {
  import opened Words
  import opened ClientRuntime
  import opened ClientOwnership

  /** The subscription id a caller has drawn, or zero. */
  function SubOf(pc: Option<Pc>): nat {
    if pc.Some? && pc.value.Calling? then pc.value.req.subId else 0
  }

  /** Callers' subscription ids are drawn ones and pairwise different. */
  ghost predicate SubNumbers(tasks: map<Tid, Pc>, n: nat) {
    (forall t | t in tasks :: SubOf(PcOf(tasks, t)) <= n) &&
    (forall t, u | t in tasks && u in tasks && t != u && SubOf(PcOf(tasks, t)) > 0 ::
       SubOf(PcOf(tasks, t)) != SubOf(PcOf(tasks, u)))
  }

  /** Nobody can still have subscription `n` acknowledged: its caller has registered and is no
      longer pending. */
  ghost predicate Spent(m: Shared, tasks: map<Tid, Pc>, n: nat) {
    1 <= n <= m.subIds &&
    forall t | t in tasks && SubOf(PcOf(tasks, t)) == n :: !Early(tasks[t]) && Unowned(Pend(m, Subscription), t)
  }

  predicate Accepting(pc: Pc, n: nat) {
    pc.Taken? && pc.valid && pc.ack == SubId(n)
  }

  /** Active subscriptions are spent, and so is the one that the reader is about to activate, which
      is not active yet. */
  ghost predicate Exclusive(m: Shared, tasks: map<Tid, Pc>) {
    (forall n | SubId(n) in Active(m, Subscription) :: Spent(m, tasks, n)) &&
    (READER in tasks ==>
       forall n | Accepting(tasks[READER], n) :: Spent(m, tasks, n) && SubId(n) !in Active(m, Subscription))
  }

  // ---------------------------------------------------------------- one step

  /** A caller keeps its subscription id or draws the next one before it registers. */
  predicate DrawsSub(pc: Option<Pc>, next: Option<Pc>, n: nat, n': nat) {
    n <= n' &&
    (SubOf(next) > 0 ==> SubOf(next) == SubOf(pc) || (SubOf(next) == n + 1 == n' && Early(next.value)))
  }

  lemma CallerDrawsSub(m: Shared, t: Tid, phase: Phase, q: Request, reply: Reply)
    ensures var e := CallerStep(m, t, phase, q, reply); DrawsSub(Some(Calling(phase, q)), e.next, m.subIds, e.shared.subIds)
  {
    hide PoolOf, Pend;
  }

  lemma TaskDrawsSub(m: Shared, t: Tid, pc: Pc, reply: Reply, alive: bool)
    requires !pc.ControlSend? && !pc.Idle?
    ensures var e := TaskStep(m, t, pc, reply, alive); DrawsSub(Some(pc), e.next, m.subIds, e.shared.subIds)
  {
    hide PoolOf, Pend, CallerStep, TakeAll, DeactivateAll, Deactivate, Activate, Release;
    if pc.Calling? {
      CallerDrawsSub(m, t, pc.phase, pc.req, reply);
    }
  }

  lemma StepDrawsSub(s: State, a: Action)
    requires Enabled(s, a)
    ensures var e := EffectOf(s, a); DrawsSub(PcOf(s.threads.tasks, Actor(a)), e.next, s.shared.subIds, e.shared.subIds)
  {
    hide PoolOf, Pend, TaskStep;
    if a.Advance? {
      var pc := s.threads.tasks[a.t];
      TaskDrawsSub(s.shared, a.t, pc, ReplyOf(s.threads, a.t), Alive(s.threads, pc));
    }
  }

  /** The reader accepts what it took from a pending entry with that id; only then does the id
      become active. */
  ghost predicate Accepts(m: Shared, t: Tid, pc: Option<Pc>, e: Effect) {
    (forall id | id in Active(e.shared, Subscription) && id.SubId? ::
       id in Active(m, Subscription) || (pc.Some? && Accepting(pc.value, id.number))) &&
    (pc.Some? && pc.value.Taken? ==> e.next.Some? && !e.next.value.Taken?) &&
    (e.next.Some? && e.next.value.Taken? ==> t == READER) &&
    (forall n | e.next.Some? && Accepting(e.next.value, n) ::
       Active(e.shared, Subscription) == Active(m, Subscription) && n > 0 &&
       exists c :: c in Pend(m, Subscription) && c !in Pend(e.shared, Subscription) && Pend(m, Subscription)[c].subId == n)
  }

  lemma ReaderAccepts(m: Shared, pc: Pc, alive: bool)
    requires InsideEnvelope(pc)
    ensures Accepts(m, READER, Some(pc), ReaderStep(m, pc, alive))
  {
  }

  lemma TaskAccepts(m: Shared, pc: Pc, reply: Reply, alive: bool)
    requires InsideEnvelope(pc)
    ensures Accepts(m, READER, Some(pc), TaskStep(m, READER, pc, reply, alive))
  {
    hide ReaderStep;
    ReaderAccepts(m, pc, alive);
  }

  lemma OtherAccepts(m: Shared, t: Tid, pc: Pc, reply: Reply, alive: bool)
    requires !pc.ControlSend? && !pc.Idle? && !InsideEnvelope(pc) && InPlace(t, pc)
    ensures Accepts(m, t, Some(pc), TaskStep(m, t, pc, reply, alive))
  {
    hide Active, Pend, PoolOf, WithPool;
    TaskActivates(m, t, pc, reply, alive, Subscription);
  }

  lemma ServerAccepts(m: Shared, a: Action)
    requires FromServer(a)
    ensures Accepts(m, READER, Some(Idle), FromServerEffect(m, a))
  {
    var m' := FromServerEffect(m, a).shared;
    if a.SubscriptionAck? && a.corr in Pend(m, Subscription) {
      assert a.corr !in Pend(m', Subscription);
    }
  }

  lemma StepAccepts(s: State, a: Action)
    requires Enabled(s, a) && Shape(s.threads)
    ensures Accepts(s.shared, Actor(a), PcOf(s.threads.tasks, Actor(a)), EffectOf(s, a))
  {
    hide TaskStep, FromServerEffect, WithPool;
    if FromServer(a) {
      ServerAccepts(s.shared, a);
    } else if a.Advance? {
      var pc := s.threads.tasks[a.t];
      if InsideEnvelope(pc) {
        TaskAccepts(s.shared, pc, ReplyOf(s.threads, a.t), Alive(s.threads, pc));
      } else {
        OtherAccepts(s.shared, a.t, pc, ReplyOf(s.threads, a.t), Alive(s.threads, pc));
      }
    }
  }

  // ---------------------------------------------------------------- keeping the invariant

  lemma SubNumbersKept(tasks: map<Tid, Pc>, t: Tid, next: Option<Pc>, n: nat, n': nat)
    requires SubNumbers(tasks, n) && DrawsSub(PcOf(tasks, t), next, n, n')
    ensures SubNumbers(Moved(tasks, t, next), n')
  {
  }

  /** A spent subscription stays spent. */
  lemma SpentKept(m: Shared, tasks: map<Tid, Pc>, t: Tid, e: Effect, n: nat)
    requires Spent(m, tasks, n) && SubNumbers(tasks, m.subIds)
    requires DrawsSub(PcOf(tasks, t), e.next, m.subIds, e.shared.subIds) && Tidy(t, PcOf(tasks, t), e)
    requires Changes(m, e.shared, t, PcOf(tasks, t), Subscription)
    ensures Spent(e.shared, Moved(tasks, t, e.next), n)
  {
    hide Pend;
  }

  /** A subscription whose entry the reader takes is spent by that, and was not active. */
  lemma TakenIsSpent(m: Shared, tasks: map<Tid, Pc>, t: Tid, e: Effect, n: nat)
    requires AllBacked(m, tasks) && SubNumbers(tasks, m.subIds) && Exclusive(m, tasks) && t == READER
    requires READER in tasks && !tasks[READER].Calling?
    requires Changes(m, e.shared, t, PcOf(tasks, t), Subscription)
    requires Accepts(m, t, PcOf(tasks, t), e) && e.next.Some? && Accepting(e.next.value, n)
    requires DrawsSub(PcOf(tasks, t), e.next, m.subIds, e.shared.subIds)
    ensures Spent(e.shared, Moved(tasks, t, e.next), n) && SubId(n) !in Active(m, Subscription)
  {
    hide Pend, Active;
    var c :| c in Pend(m, Subscription) && c !in Pend(e.shared, Subscription) && Pend(m, Subscription)[c].subId == n;
    var o := Pend(m, Subscription)[c].owner;
    assert Backed(Pend(m, Subscription), tasks, Subscription) && Behind(tasks, Subscription, c, Pend(m, Subscription)[c]);
    assert SubOf(PcOf(tasks, o)) == n && !Unowned(Pend(m, Subscription), o);
    assert TakenFrom(m, e.shared, o);
    TakenIsUnowned(m, e.shared, tasks, t, o, Subscription);
    assert PcOf(Moved(tasks, t, e.next), o) == PcOf(tasks, o);
  }

  lemma ExclusiveKept(m: Shared, h: Threads, t: Tid, e: Effect)
    requires Shape(h) && AllBacked(m, h.tasks) && SubNumbers(h.tasks, m.subIds) && Exclusive(m, h.tasks)
    requires DrawsSub(PcOf(h.tasks, t), e.next, m.subIds, e.shared.subIds) && Tidy(t, PcOf(h.tasks, t), e)
    requires Changes(m, e.shared, t, PcOf(h.tasks, t), Subscription) && Accepts(m, t, PcOf(h.tasks, t), e)
    ensures Exclusive(e.shared, Moved(h.tasks, t, e.next))
  {
    hide Pend, Active, Spent, Changes, AllBacked;
    var tasks' := Moved(h.tasks, t, e.next);
    forall n | SubId(n) in Active(e.shared, Subscription)
      ensures Spent(e.shared, tasks', n)
    {
      assert SubId(n).number == n;
      if SubId(n) !in Active(m, Subscription) {
        assert t == READER by {
          TakerIsReader(h, t, n);
        }
      }
      SpentKept(m, h.tasks, t, e, n);
    }
    forall n | READER in tasks' && Accepting(tasks'[READER], n)
      ensures Spent(e.shared, tasks', n) && SubId(n) !in Active(e.shared, Subscription)
    {
      if t == READER {
        TakenIsSpent(m, h.tasks, t, e, n);
      } else {
        StillInactive(m, h, t, e, n);
        SpentKept(m, h.tasks, t, e, n);
      }
    }
  }

  lemma TakerIsReader(h: Threads, t: Tid, n: nat)
    requires Shape(h) && t in h.tasks && Accepting(h.tasks[t], n)
    ensures t == READER
  {
  }

  lemma StillInactive(m: Shared, h: Threads, t: Tid, e: Effect, n: nat)
    requires Shape(h) && t != READER && SubId(n) !in Active(m, Subscription) && Accepts(m, t, PcOf(h.tasks, t), e)
    ensures SubId(n) !in Active(e.shared, Subscription)
  {
    hide Active;
    assert SubId(n).SubId? && SubId(n).number == n;
  }

  // ---------------------------------------------------------------- every run

  ghost predicate SubsApart(s: State) {
    SubNumbers(s.threads.tasks, s.shared.subIds) && Exclusive(s.shared, s.threads.tasks)
  }

  lemma StepSubsApart(s: State, a: Action)
    requires Enabled(s, a) && Owned(s) && SubsApart(s)
    ensures SubsApart(Step(s, a))
  {
    hide EffectOf, SubNumbers, Exclusive, DrawsSub, Tidy, Changes, Accepts, Numbers, AllBacked, Answers;
    var t, e := Actor(a), EffectOf(s, a);
    StepIsTidy(s, a);
    StepDrawsSub(s, a);
    StepAccepts(s, a);
    StepChanges(s, a, Subscription);
    SubNumbersKept(s.threads.tasks, t, e.next, s.shared.subIds, e.shared.subIds);
    ExclusiveKept(s.shared, s.threads, t, e);
  }

  lemma InitSubsApart(max: Limits)
    ensures SubsApart(Init(max))
  {
    assert PoolOf(Init(max).shared, Subscription) == FullPool(max.subscriptions);
  }

  lemma RunSubsApart(max: Limits, states: seq<State>, actions: seq<Action>)
    requires IsRun(max, states, actions)
    ensures forall i | 0 <= i < |states| :: SubsApart(states[i])
  {
    hide Owned, SubsApart, Step;
    RunOwned(max, states, actions);
    InitSubsApart(max);
    for i := 0 to |actions|
      invariant forall j | 0 <= j <= i :: SubsApart(states[j])
    {
      StepSubsApart(states[i], actions[i]);
    }
  }

  /** In every run, the subscription that the reader is about to activate is not active and nobody
      else's: no acknowledgement replaces an active subscription. */
  lemma SubscriptionsNeverCollide(max: Limits, states: seq<State>, actions: seq<Action>, i: nat, n: nat)
    requires IsRun(max, states, actions) && i < |states|
    requires READER in states[i].threads.tasks && Accepting(states[i].threads.tasks[READER], n)
    ensures SubId(n) !in Active(states[i].shared, Subscription) && 1 <= n <= states[i].shared.subIds
    ensures forall c | c in Pend(states[i].shared, Subscription) :: Pend(states[i].shared, Subscription)[c].subId != n
  {
    hide Pend, Active;
    RunOwned(max, states, actions);
    RunSubsApart(max, states, actions);
    var s := states[i];
    assert Owned(s) && SubsApart(s) && Spent(s.shared, s.threads.tasks, n);
    forall c | c in Pend(s.shared, Subscription)
      ensures Pend(s.shared, Subscription)[c].subId != n
    {
      PendingIsUnspent(s, n, c);
    }
  }

  lemma PendingIsUnspent(s: State, n: nat, c: nat)
    requires AllBacked(s.shared, s.threads.tasks) && Spent(s.shared, s.threads.tasks, n) && c in Pend(s.shared, Subscription)
    ensures Pend(s.shared, Subscription)[c].subId != n
  {
    hide Pend;
    var entry := Pend(s.shared, Subscription)[c];
    assert Backed(Pend(s.shared, Subscription), s.threads.tasks, Subscription);
    assert Behind(s.threads.tasks, Subscription, c, entry);
    assert !Unowned(Pend(s.shared, Subscription), entry.owner);
    assert SubOf(PcOf(s.threads.tasks, entry.owner)) == entry.subId;
  }
}
