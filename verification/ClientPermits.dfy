/** Permit conservation: no interleaving loses or duplicates a permit. */
module ClientPermits {
  import opened Words
  import opened MapCounts
  import opened ClientRuntime
  import opened ClientOwnership

  /** Tasks that hold a permit between two steps. */
  predicate Holds(pc: Pc, k: Kind) {
    (pc.Calling? && (pc.phase == Permitted || pc.phase == Numbered) && pc.req.kind == k) ||
    (pc.Answering? && k == Invocation) ||
    (pc.Taken? && KindOf(pc.ack) == k) ||
    (pc.Term? && pc.holding == Some(k))
  }

  // ---------------------------------------------------------------- counting tasks

  function Holding(k: Kind): Pc -> bool {
    pc => Holds(pc, k)
  }

  ghost function Held(tasks: map<Tid, Pc>, k: Kind): nat {
    |Where(tasks, Holding(k))|
  }

  predicate HeldBy(pc: Option<Pc>, k: Kind) {
    pc.Some? && Holds(pc.value, k)
  }

  lemma HeldAfter(tasks: map<Tid, Pc>, t: Tid, next: Option<Pc>, k: Kind)
    ensures Held(Moved(tasks, t, next), k) == Held(tasks, k) - One(HeldBy(PcOf(tasks, t), k)) + One(HeldBy(next, k))
  {
    if next.Some? {
      WhereUpdate(tasks, t, next.value, Holding(k));
    } else {
      WhereRemove(tasks, t, Holding(k));
    }
  }

  // ---------------------------------------------------------------- counting in a pool

  function Stock(p: Pool): nat {
    p.available + |p.pending| + |p.active|
  }

  lemma StockOfPending(p: Pool, corr: nat, entry: Pending)
    ensures Stock(Register(p, corr, entry)) == Stock(p) + One(corr !in p.pending)
    ensures Stock(Take(p, corr)) == Stock(p) - One(corr in p.pending)
    ensures corr in p.pending ==> Stock(TakeBack(p, corr)) == Stock(p)
  {
    MapSizes(p.pending, corr, entry);
  }

  lemma StockOfActive(p: Pool, id: Id, fence: nat)
    ensures Stock(Activate(p, id, fence)) == Stock(p) + 1
    ensures Stock(Deactivate(p, id)) == Stock(p)
    ensures Stock(RenewFence(p, id, fence)) == Stock(p)
  {
    MapSizes(p.active, id, fence);
    if id in p.active {
      MapSizes(p.active, id, Max(p.active[id], fence));
    }
  }

  lemma StockOfPermits(p: Pool, n: nat)
    ensures Stock(Release(p, n)) == Stock(p) + n
    ensures p.available > 0 ==> Stock(p.(available := p.available - 1)) == Stock(p) - 1
  {
  }

  lemma StockOfAll(p: Pool)
    ensures Stock(TakeAll(p)) == Stock(p)
    ensures Stock(DeactivateAll(p)) == Stock(p)
  {
  }

  // ---------------------------------------------------------------- every step keeps the balance

  /** What a step adds to the stock it takes from its task, and the other way round. */
  predicate Balanced(m: Shared, pc: Option<Pc>, e: Effect, k: Kind) {
    Stock(PoolOf(e.shared, k)) + One(HeldBy(e.next, k)) == Stock(PoolOf(m, k)) + One(HeldBy(pc, k))
  }

  lemma StockAfterUnhold(m: Shared, holding: Option<Kind>, k: Kind)
    ensures Stock(PoolOf(Unhold(m, holding), k)) == Stock(PoolOf(m, k)) + One(holding == Some(k))
  {
    hide Stock;
    StockOfPermits(PoolOf(m, k), 1);
  }

  lemma AcquireBalanced(m: Shared, t: Tid, q: Request, k: Kind)
    ensures Balanced(m, Some(Calling(Checked, q)), Acquire(m, t, q), k)
  {
    hide Stock;
    StockOfPermits(PoolOf(m, q.kind), 0);
  }

  lemma DrawBalanced(m: Shared, t: Tid, q: Request, k: Kind)
    ensures Balanced(m, Some(Calling(Permitted, q)), DrawIds(m, t, q), k)
  {
    hide Stock, Unhold;
    StockAfterUnhold(m, Some(q.kind), k);
  }

  lemma EnlistBalanced(m: Shared, t: Tid, q: Request, k: Kind)
    requires q.corr !in Pend(m, q.kind)
    ensures Balanced(m, Some(Calling(Numbered, q)), Enlist(m, t, q), k)
  {
    hide Stock;
    StockOfPending(PoolOf(m, q.kind), q.corr, Pending(t, q.subId));
  }

  lemma WithdrawBalanced(m: Shared, t: Tid, q: Request, k: Kind)
    ensures Balanced(m, Some(Calling(Cancelling, q)), Withdraw(m, t, q), k)
  {
    hide Stock;
    StockOfPending(PoolOf(m, q.kind), q.corr, Pending(t, 0));
  }

  lemma CallerBalanced(m: Shared, t: Tid, phase: Phase, q: Request, reply: Reply, k: Kind)
    requires phase == Numbered ==> q.corr !in Pend(m, q.kind)
    ensures Balanced(m, Some(Calling(phase, q)), CallerStep(m, t, phase, q, reply), k)
  {
    hide Stock;
    match phase
    case Checked => AcquireBalanced(m, t, q, k);
    case Permitted => DrawBalanced(m, t, q, k);
    case Numbered => EnlistBalanced(m, t, q, k);
    case Cancelling => WithdrawBalanced(m, t, q, k);
    case _ =>
  }

  lemma DrainBalanced(m: Shared, stage: nat, holding: Option<Kind>, k: Kind)
    ensures Balanced(m, Some(Term(stage, holding)), Drain(m, stage, holding), k)
  {
    hide Stock;
    StockOfAll(PoolOf(m, DrainedKind(stage)));
  }

  lemma StockAfterForget(m: Shared, stage: nat, k: Kind)
    ensures Stock(PoolOf(Forget(m, stage), k)) == Stock(PoolOf(m, k))
  {
    hide Stock;
    StockOfAll(PoolOf(m, DrainedKind(stage)));
  }

  lemma TerminateBalanced(m: Shared, t: Tid, stage: nat, holding: Option<Kind>, k: Kind)
    ensures Balanced(m, Some(Term(stage, holding)), Terminate(m, t, stage, holding), k)
  {
    hide Stock, Drain, Forget, Unhold;
    if 1 <= stage <= 3 {
      DrainBalanced(m, stage, holding, k);
    } else if stage == 0 {
      StockAfterUnhold(m, holding, k);
    } else {
      StockAfterForget(m, 4, k);
      StockAfterForget(m, 5, k);
      StockAfterUnhold(Forget(m, 5), holding, k);
    }
  }

  lemma CloseBalanced(m: Shared, t: Tid, id: Id, k: Kind)
    ensures Balanced(m, Some(Closing(id)), Close(m, t, id), k)
  {
    hide Stock;
    StockOfActive(PoolOf(m, KindOf(id)), id, 0);
  }

  lemma ReaderBalanced(m: Shared, pc: Pc, alive: bool, k: Kind)
    requires InsideEnvelope(pc)
    ensures Balanced(m, Some(pc), ReaderStep(m, pc, alive), k)
  {
    hide Stock, Unhold;
    if pc.Taken? {
      StockOfActive(PoolOf(m, KindOf(pc.ack)), pc.ack, pc.fence);
    } else if pc.Answering? {
      StockAfterUnhold(m, Some(Invocation), k);
    }
  }

  lemma TaskBalanced(m: Shared, t: Tid, pc: Pc, reply: Reply, alive: bool, k: Kind)
    requires !pc.ControlSend? && !pc.Idle?
    requires pc.Calling? && pc.phase == Numbered ==> pc.req.corr !in Pend(m, pc.req.kind)
    ensures Balanced(m, Some(pc), TaskStep(m, t, pc, reply, alive), k)
  {
    hide Stock;
    if InsideEnvelope(pc) {
      ReaderBalanced(m, pc, alive, k);
    } else if pc.Calling? {
      CallerBalanced(m, t, pc.phase, pc.req, reply, k);
    } else if pc.Closing? {
      CloseBalanced(m, t, pc.id, k);
    } else if pc.Term? {
      TerminateBalanced(m, t, pc.stage, pc.holding, k);
    }
  }

  lemma ServerBalanced(m: Shared, a: Action, k: Kind)
    requires FromServer(a)
    ensures Balanced(m, Some(Idle), FromServerEffect(m, a), k)
  {
    hide Stock, GotResponse, GotSubAck, GotSessionMessage;
    match a
    case Response(corr, ok) => ResponseBalanced(m, corr, ok, k);
    case SubscriptionAck(corr, ackId) => SubAckBalanced(m, corr, ackId, k);
    case SessionMessage(corr, id, fence) => SessionBalanced(m, corr, id, fence, k);
    case SessionLost(id) => StockOfActive(PoolOf(m, Session), SessId(id), 0);
    case Fatal =>
  }

  lemma ResponseBalanced(m: Shared, corr: nat, ok: bool, k: Kind)
    ensures Balanced(m, Some(Idle), GotResponse(m, corr, ok), k)
  {
    hide Stock, TakeUp;
    StockAfterTakeUp(m, Invocation, corr, if ok then Answer else Failure, k);
  }

  lemma SubAckBalanced(m: Shared, corr: nat, ackId: nat, k: Kind)
    ensures Balanced(m, Some(Idle), GotSubAck(m, corr, ackId), k)
  {
    hide Stock, TakeUp;
    StockAfterTakeUp(m, Subscription, corr, Failure, k);
    StockAfterTakeUp(m, Subscription, corr, Ack(SubId(ackId)), k);
  }

  lemma SessionBalanced(m: Shared, corr: nat, id: seq<Byte>, fence: nat, k: Kind)
    ensures Balanced(m, Some(Idle), GotSessionMessage(m, corr, id, fence), k)
  {
    hide Stock, TakeUp;
    StockAfterTakeUp(m, Session, corr, Failure, k);
    StockAfterTakeUp(m, Session, corr, Ack(SessId(id)), k);
    StockOfActive(PoolOf(m, Session), SessId(id), fence);
  }

  lemma StockAfterTakeUp(m: Shared, j: Kind, corr: nat, verdict: Reply, k: Kind)
    ensures Stock(PoolOf(TakeUp(m, j, corr, verdict), k)) == Stock(PoolOf(m, k)) - One(j == k && corr in Pend(m, j))
  {
    hide Stock;
    StockOfPending(PoolOf(m, j), corr, Pending(0, 0));
  }

  lemma LocalBalanced(s: State, a: Action, k: Kind)
    requires Enabled(s, a) && !FromServer(a) && !a.Advance?
    requires a.t == s.threads.spawned ==> a.t !in s.threads.tasks
    ensures Balanced(s.shared, PcOf(s.threads.tasks, a.t), EffectOf(s, a), k)
  {
    hide EffectOf, Stock, PoolOf, HeldBy;
    LocalKeepsPools(s, a);
    LocalHoldsNothing(s, a, k);
    SamePools(s.shared, EffectOf(s, a).shared, k);
  }

  lemma LocalHoldsNothing(s: State, a: Action, k: Kind)
    requires Enabled(s, a) && !FromServer(a) && !a.Advance?
    requires a.t == s.threads.spawned ==> a.t !in s.threads.tasks
    ensures !HeldBy(PcOf(s.threads.tasks, a.t), k) && !HeldBy(EffectOf(s, a).next, k)
  {
    hide TaskStep, FromServerEffect, PoolOf, WithPool, Pend, Active;
  }

  lemma SamePools(m: Shared, m': Shared, k: Kind)
    requires m'.pools == m.pools
    ensures PoolOf(m', k) == PoolOf(m, k)
  {
  }

  lemma EffectBalanced(s: State, a: Action, k: Kind)
    requires Enabled(s, a) && Owned(s)
    ensures Balanced(s.shared, PcOf(s.threads.tasks, Actor(a)), EffectOf(s, a), k)
  {
    hide Balanced, TaskStep, FromServerEffect, Owned, PoolOf;
    if FromServer(a) {
      ServerBalanced(s.shared, a, k);
    } else if a.Advance? {
      var pc := s.threads.tasks[a.t];
      if At(s.threads, a.t, Numbered) {
        NumberIsFree(s, a.t, pc.req.kind);
      }
      TaskBalanced(s.shared, a.t, pc, ReplyOf(s.threads, a.t), Alive(s.threads, pc), k);
    } else {
      if a.t == s.threads.spawned {
        NewcomerIsFresh(s, a.t);
      }
      LocalBalanced(s, a, k);
    }
  }

  lemma NumberIsFree(s: State, t: Tid, k: Kind)
    requires Owned(s) && At(s.threads, t, Numbered)
    ensures s.threads.tasks[t].req.corr !in Pend(s.shared, k)
  {
    hide Pend;
    if s.threads.tasks[t].req.corr in Pend(s.shared, k) {
      OwnEntry(s.shared, s.threads.tasks, t, k, s.threads.tasks[t].req.corr);
    }
  }

  // ---------------------------------------------------------------- conservation

  /** Permits available, with pending entries, with active entries, and with tasks. */
  ghost function Total(s: State, k: Kind): nat {
    Stock(PoolOf(s.shared, k)) + Held(s.threads.tasks, k)
  }

  lemma StepTotal(s: State, a: Action, k: Kind)
    requires Enabled(s, a) && Owned(s)
    ensures Total(Step(s, a), k) == Total(s, k)
  {
    hide Stock, Held, HeldBy, EffectOf, PoolOf;
    var e := EffectOf(s, a);
    EffectBalanced(s, a, k);
    HeldAfter(s.threads.tasks, Actor(a), e.next, k);
  }

  lemma InitTotal(max: Limits, k: Kind)
    ensures Total(Init(max), k) == MaxOf(max, k)
  {
    assert Where(map[READER := Idle], Holding(k)) == {};
  }

  /** In every state of every run, every permit is somewhere, and in one place. */
  lemma PermitsAreConserved(max: Limits, states: seq<State>, actions: seq<Action>, k: Kind)
    requires IsRun(max, states, actions)
    ensures forall i | 0 <= i < |states| :: Total(states[i], k) == MaxOf(max, k)
  {
    hide Total, Owned, Step;
    RunOwned(max, states, actions);
    InitTotal(max, k);
    for i := 0 to |actions|
      invariant forall j | 0 <= j <= i :: Total(states[j], k) == MaxOf(max, k)
    {
      StepTotal(states[i], actions[i], k);
    }
  }

  // ---------------------------------------------------------------- quiescence

  /** Every caller, closer and terminator has returned. */
  predicate Quiescent(s: State) {
    forall t | t in s.threads.tasks :: t == READER
  }

  lemma QuiescentIsUnlisted(s: State, k: Kind)
    requires Owned(s) && Quiescent(s)
    ensures Pend(s.shared, k) == map[]
  {
    hide Pend;
    forall c | c in Pend(s.shared, k)
      ensures false
    {
      OwnerIsPast(s.shared, s.threads, k, c);
    }
  }

  lemma QuiescentHolds(s: State, k: Kind)
    requires Owned(s) && Quiescent(s)
    ensures Held(s.threads.tasks, k) == One(Holds(s.threads.tasks[READER], k))
  {
    var w := Where(s.threads.tasks, Holding(k));
    assert w == if Holds(s.threads.tasks[READER], k) then {READER} else {};
  }

  lemma QuiescentStock(s: State, k: Kind)
    requires Owned(s) && Quiescent(s)
    ensures Total(s, k) == PoolOf(s.shared, k).available + |Active(s.shared, k)| + One(Holds(s.threads.tasks[READER], k))
  {
    hide Owned, Held;
    QuiescentIsUnlisted(s, k);
    QuiescentHolds(s, k);
  }

  /** Once all callers have returned, in whatever order they raced with a close, nothing is
      pending; all invocation permits are back unless the reader is holding one; and with an idle
      reader every permit is back that no active entry holds. */
  lemma QuiescenceReturnsPermits(max: Limits, states: seq<State>, actions: seq<Action>, i: nat, k: Kind)
    requires IsRun(max, states, actions) && i < |states| && Quiescent(states[i])
    ensures Pend(states[i].shared, k) == map[] && READER in states[i].threads.tasks
    ensures !Holds(states[i].threads.tasks[READER], Invocation) ==>
              PoolOf(states[i].shared, Invocation).available == max.invocations
    ensures ReaderIdle(states[i].threads) ==>
              PoolOf(states[i].shared, k).available + |Active(states[i].shared, k)| == MaxOf(max, k)
  {
    hide Total, Pend, Active, Holds;
    var s := states[i];
    RunOwned(max, states, actions);
    PermitsAreConserved(max, states, actions, k);
    PermitsAreConserved(max, states, actions, Invocation);
    QuiescentIsUnlisted(s, k);
    QuiescentStock(s, k);
    QuiescentStock(s, Invocation);
    IdleHoldsNothing(k);
  }

  lemma IdleHoldsNothing(k: Kind)
    ensures !Holds(Idle, k)
  {
  }
}
