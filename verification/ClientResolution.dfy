/** Every registered request ends once: answered, withdrawn by its caller, or drained by a
    termination. */
module ClientResolution {
  import opened Words
  import opened ClientRuntime
  import opened ClientOwnership

  // ---------------------------------------------------------------- one pool

  /** The registered ids are the pending ones and those that ended, each in one way. */
  ghost predicate Accounted(p: Pool) {
    var l := p.ledger;
    l.registered == p.pending.Keys + l.answered + l.withdrawn + l.drained &&
    p.pending.Keys !! l.answered !! l.withdrawn !! l.drained
  }

  predicate Grows(l: Ledger, l': Ledger) {
    l.answered <= l'.answered && l.withdrawn <= l'.withdrawn && l.drained <= l'.drained
  }

  /** A pool after a step that registers nothing. */
  ghost predicate Keeps(p: Pool, p': Pool) {
    (Accounted(p) ==> Accounted(p')) && Grows(p.ledger, p'.ledger) && p'.ledger.registered == p.ledger.registered
  }

  lemma SameKeeps(p: Pool, p': Pool)
    requires p'.pending == p.pending && p'.ledger == p.ledger
    ensures Keeps(p, p')
  {
  }

  lemma TakeKeeps(p: Pool, corr: nat)
    requires corr in p.pending
    ensures Keeps(p, Take(p, corr)) && Keeps(p, TakeBack(p, corr))
  {
    assert (p.pending - {corr}).Keys == p.pending.Keys - {corr};
  }

  lemma TakeAllKeeps(p: Pool)
    ensures Keeps(p, TakeAll(p))
  {
    assert Accounted(p) ==> Accounted(TakeAll(p));
  }

  lemma RegisterAccounted(p: Pool, corr: nat, entry: Pending)
    requires Accounted(p) && corr !in p.ledger.registered
    ensures Accounted(Register(p, corr, entry))
  {
    assert p.pending[corr := entry].Keys == p.pending.Keys + {corr};
  }

  // ---------------------------------------------------------------- one step

  ghost predicate Books(m: Shared, m': Shared, t: Tid, pc: Option<Pc>, k: Kind) {
    Keeps(PoolOf(m, k), PoolOf(m', k)) ||
    (pc.Some? && pc.value.Calling? && pc.value.phase == Numbered && pc.value.req.kind == k &&
     PoolOf(m', k) == Register(PoolOf(m, k), pc.value.req.corr, Pending(t, pc.value.req.subId)))
  }

  lemma UnholdBooks(m: Shared, holding: Option<Kind>, k: Kind)
    ensures Keeps(PoolOf(m, k), PoolOf(Unhold(m, holding), k))
  {
    hide Keeps;
    SameKeeps(PoolOf(m, k), PoolOf(Unhold(m, holding), k));
  }

  lemma ForgetBooks(m: Shared, stage: nat, k: Kind)
    ensures Keeps(PoolOf(m, k), PoolOf(Forget(m, stage), k))
  {
    hide Keeps;
    SameKeeps(PoolOf(m, k), PoolOf(Forget(m, stage), k));
  }

  lemma KeepsTwice(p: Pool, p': Pool, p'': Pool)
    requires Keeps(p, p') && Keeps(p', p'')
    ensures Keeps(p, p'')
  {
    hide Accounted;
  }

  lemma WithdrawBooks(m: Shared, t: Tid, q: Request, k: Kind)
    ensures Keeps(PoolOf(m, k), PoolOf(Withdraw(m, t, q).shared, k))
  {
    hide Keeps;
    if q.corr in Pend(m, q.kind) && q.kind == k {
      TakeKeeps(PoolOf(m, k), q.corr);
    } else {
      SameKeeps(PoolOf(m, k), PoolOf(m, k));
    }
  }

  lemma CallerBooks(m: Shared, t: Tid, phase: Phase, q: Request, reply: Reply, k: Kind)
    ensures Books(m, CallerStep(m, t, phase, q, reply).shared, t, Some(Calling(phase, q)), k)
  {
    hide Keeps, Unhold, Withdraw;
    SameKeeps(PoolOf(m, k), PoolOf(m, k));
    if phase == Checked {
      SameKeeps(PoolOf(m, k), PoolOf(Acquire(m, t, q).shared, k));
    } else if phase == Permitted {
      UnholdBooks(m, Some(q.kind), k);
    } else if phase == Cancelling {
      WithdrawBooks(m, t, q, k);
    }
  }

  lemma DrainBooks(m: Shared, stage: nat, holding: Option<Kind>, k: Kind)
    ensures Keeps(PoolOf(m, k), PoolOf(Drain(m, stage, holding).shared, k))
  {
    hide Keeps;
    SameKeeps(PoolOf(m, k), PoolOf(m, k));
    TakeAllKeeps(PoolOf(m, k));
  }

  lemma TerminateBooks(m: Shared, t: Tid, stage: nat, holding: Option<Kind>, k: Kind)
    ensures Keeps(PoolOf(m, k), PoolOf(Terminate(m, t, stage, holding).shared, k))
  {
    hide Keeps, Unhold, Forget, Drain;
    if stage == 0 {
      SameKeeps(PoolOf(m, k), PoolOf(m, k));
      UnholdBooks(m, holding, k);
    } else if stage <= 3 {
      DrainBooks(m, stage, holding, k);
    } else if stage == 4 {
      ForgetBooks(m, 4, k);
    } else {
      ForgetBooks(m, 5, k);
      UnholdBooks(Forget(m, 5), holding, k);
      KeepsTwice(PoolOf(m, k), PoolOf(Forget(m, 5), k), PoolOf(Unhold(Forget(m, 5), holding), k));
    }
  }

  lemma TaskBooks(m: Shared, t: Tid, pc: Pc, reply: Reply, alive: bool, k: Kind)
    requires !pc.ControlSend? && !pc.Idle?
    ensures Books(m, TaskStep(m, t, pc, reply, alive).shared, t, Some(pc), k)
  {
    hide Keeps, CallerStep, Terminate;
    if pc.Calling? {
      CallerBooks(m, t, pc.phase, pc.req, reply, k);
    } else if pc.Term? {
      TerminateBooks(m, t, pc.stage, pc.holding, k);
    } else {
      SameKeeps(PoolOf(m, k), PoolOf(TaskStep(m, t, pc, reply, alive).shared, k));
    }
  }

  lemma TakeUpBooks(m: Shared, j: Kind, corr: nat, verdict: Reply, k: Kind)
    requires corr in Pend(m, j)
    ensures Keeps(PoolOf(m, k), PoolOf(TakeUp(m, j, corr, verdict), k))
  {
    hide Keeps, Heard;
    TakeKeeps(PoolOf(m, j), corr);
    SameKeeps(PoolOf(m, k), PoolOf(m, k));
  }

  lemma ServerBooks(m: Shared, a: Action, k: Kind)
    requires FromServer(a)
    ensures Keeps(PoolOf(m, k), PoolOf(FromServerEffect(m, a).shared, k))
  {
    hide Keeps, TakeUp;
    var m' := FromServerEffect(m, a).shared;
    var j := if a.Response? then Invocation else if a.SubscriptionAck? then Subscription else Session;
    if (a.Response? || a.SubscriptionAck? || a.SessionMessage?) && a.corr in Pend(m, j) {
      TakeUpBooks(m, j, a.corr, Answer, k);
      TakeUpBooks(m, j, a.corr, Failure, k);
      if a.SubscriptionAck? {
        TakeUpBooks(m, j, a.corr, Ack(SubId(a.ackId)), k);
      } else if a.SessionMessage? {
        TakeUpBooks(m, j, a.corr, Ack(SessId(a.sessId)), k);
      }
    } else {
      SameKeeps(PoolOf(m, k), PoolOf(m', k));
    }
  }

  lemma StepBooks(s: State, a: Action, k: Kind)
    requires Enabled(s, a)
    ensures Books(s.shared, EffectOf(s, a).shared, Actor(a), PcOf(s.threads.tasks, Actor(a)), k)
  {
    hide Keeps, TaskStep, FromServerEffect;
    if FromServer(a) {
      ServerBooks(s.shared, a, k);
    } else if a.Advance? {
      var pc := s.threads.tasks[a.t];
      TaskBooks(s.shared, a.t, pc, ReplyOf(s.threads, a.t), Alive(s.threads, pc), k);
    } else {
      assert EffectOf(s, a).shared.pools == s.shared.pools;
      SameKeeps(PoolOf(s.shared, k), PoolOf(EffectOf(s, a).shared, k));
    }
  }

  // ---------------------------------------------------------------- the invariant

  /** No caller that is about to register carries an id that was ever registered. */
  ghost predicate Unused(m: Shared, tasks: map<Tid, Pc>, k: Kind) {
    var r := PoolOf(m, k).ledger.registered;
    (forall c | c in r :: 1 <= c <= m.corr) &&
    (forall t | t in tasks && Drawn(tasks[t]) && !Listed(tasks[t]) :: tasks[t].req.corr !in r)
  }

  ghost predicate Separate(m: Shared) {
    forall j: Kind, k: Kind | j != k :: PoolOf(m, j).ledger.registered !! PoolOf(m, k).ledger.registered
  }

  ghost predicate Booked(s: State) {
    (forall k: Kind :: Accounted(PoolOf(s.shared, k)) && Unused(s.shared, s.threads.tasks, k)) && Separate(s.shared)
  }

  lemma AccountedKept(m: Shared, m': Shared, tasks: map<Tid, Pc>, t: Tid, k: Kind)
    requires Accounted(PoolOf(m, k)) && Unused(m, tasks, k) && Books(m, m', t, PcOf(tasks, t), k)
    ensures Accounted(PoolOf(m', k))
  {
    hide Accounted, PoolOf;
    var pc := PcOf(tasks, t);
    if !Keeps(PoolOf(m, k), PoolOf(m', k)) {
      RegisterAccounted(PoolOf(m, k), pc.value.req.corr, Pending(t, pc.value.req.subId));
    }
  }

  lemma UnusedKept(m: Shared, m': Shared, tasks: map<Tid, Pc>, t: Tid, next: Option<Pc>, k: Kind)
    requires Unused(m, tasks, k) && Books(m, m', t, PcOf(tasks, t), k)
    requires Numbers(tasks, m.corr)
    requires Draws(PcOf(tasks, t), next, m.corr, m'.corr) && Carries(m', PcOf(tasks, t), next)
    requires t in tasks && !Early(tasks[t]) && next.Some? ==> !Early(next.value)
    ensures Unused(m', Moved(tasks, t, next), k)
  {
    hide Accounted, PoolOf, Pend;
    var r, r' := PoolOf(m, k).ledger.registered, PoolOf(m', k).ledger.registered;
    var pc := PcOf(tasks, t);
    if !Keeps(PoolOf(m, k), PoolOf(m', k)) {
      assert r' == r + {pc.value.req.corr};
      assert InRange(pc.value, m.corr);
    }
  }

  lemma SeparateKept(m: Shared, m': Shared, tasks: map<Tid, Pc>, t: Tid)
    requires Separate(m)
    requires forall k: Kind :: Unused(m, tasks, k) && Books(m, m', t, PcOf(tasks, t), k)
    ensures Separate(m')
  {
    hide Accounted, PoolOf;
    forall j: Kind, k: Kind | j != k
      ensures PoolOf(m', j).ledger.registered !! PoolOf(m', k).ledger.registered
    {
      assert Books(m, m', t, PcOf(tasks, t), j) && Books(m, m', t, PcOf(tasks, t), k);
      assert Unused(m, tasks, j) && Unused(m, tasks, k);
    }
  }

  lemma StepBooked(s: State, a: Action)
    requires Enabled(s, a) && Owned(s) && Booked(s)
    ensures Booked(Step(s, a))
  {
    hide EffectOf, PoolOf, Draws, Carries, Accounted, Unused, Separate, Books, Numbers, AllBacked, Answers;
    var t, e := Actor(a), EffectOf(s, a);
    StepIsTidy(s, a);
    StepDraws(s, a);
    if a.Advance? && At(s.threads, t, Receiving) {
      ReceiverIsUnlisted(s, t);
    }
    StepCarries(s, a);
    forall k
      ensures Accounted(PoolOf(e.shared, k)) && Unused(e.shared, Moved(s.threads.tasks, t, e.next), k)
    {
      StepBooks(s, a, k);
      AccountedKept(s.shared, e.shared, s.threads.tasks, t, k);
      UnusedKept(s.shared, e.shared, s.threads.tasks, t, e.next, k);
    }
    forall k
      ensures Books(s.shared, e.shared, t, PcOf(s.threads.tasks, t), k)
    {
      StepBooks(s, a, k);
    }
    SeparateKept(s.shared, e.shared, s.threads.tasks, t);
  }

  lemma InitBooked(max: Limits)
    ensures Booked(Init(max))
  {
    forall k: Kind
      ensures Accounted(PoolOf(Init(max).shared, k)) && Unused(Init(max).shared, Init(max).threads.tasks, k)
    {
      assert PoolOf(Init(max).shared, k) == FullPool(MaxOf(max, k));
      assert FullPool(MaxOf(max, k)).pending.Keys == {};
    }
    forall j: Kind, k: Kind | j != k
      ensures PoolOf(Init(max).shared, j).ledger.registered !! PoolOf(Init(max).shared, k).ledger.registered
    {
      assert PoolOf(Init(max).shared, j) == FullPool(MaxOf(max, j));
    }
  }

  /** In every state of every run, for every kind of request, the ids ever registered are the
      pending ones and those that ended in exactly one of three ways. */
  lemma RequestsEndOnce(max: Limits, states: seq<State>, actions: seq<Action>)
    requires IsRun(max, states, actions)
    ensures forall i | 0 <= i < |states| :: Booked(states[i])
  {
    hide Booked, Owned, Step;
    RunOwned(max, states, actions);
    InitBooked(max);
    for i := 0 to |actions|
      invariant forall j | 0 <= j <= i :: Booked(states[j])
    {
      StepBooked(states[i], actions[i]);
    }
  }

  /** A correlation id is a positive word, is pending for one kind of request only, and is never
      registered again. */
  lemma CorrelationsAreUnique(max: Limits, states: seq<State>, actions: seq<Action>, i: nat, j: Kind, k: Kind, c: nat)
    requires IsRun(max, states, actions) && i < |states| && c in Pend(states[i].shared, k)
    ensures 1 <= c <= states[i].shared.corr <= U64_MAX
    ensures c in Pend(states[i].shared, j) ==> j == k
    ensures forall t | At(states[i].threads, t, Numbered) ::
              states[i].threads.tasks[t].req.corr !in PoolOf(states[i].shared, j).ledger.registered
  {
    RunOwned(max, states, actions);
    RequestsEndOnce(max, states, actions);
    UniqueHere(states[i], j, k, c);
  }

  lemma UniqueHere(s: State, j: Kind, k: Kind, c: nat)
    requires Owned(s) && Booked(s) && c in Pend(s.shared, k)
    ensures 1 <= c <= s.shared.corr <= U64_MAX
    ensures c in Pend(s.shared, j) ==> j == k
    ensures forall t | At(s.threads, t, Numbered) :: s.threads.tasks[t].req.corr !in PoolOf(s.shared, j).ledger.registered
  {
    assert Accounted(PoolOf(s.shared, k)) && Unused(s.shared, s.threads.tasks, k);
    assert Accounted(PoolOf(s.shared, j)) && Unused(s.shared, s.threads.tasks, j);
    assert c in PoolOf(s.shared, k).pending.Keys;
    assert c in Pend(s.shared, j) ==> c in PoolOf(s.shared, j).pending.Keys;
  }

  // ---------------------------------------------------------------- after the end

  predicate Ended(m: Shared, k: Kind, c: nat) {
    var l := PoolOf(m, k).ledger;
    c in l.answered || c in l.withdrawn || c in l.drained
  }

  lemma EndedStays(s: State, a: Action, k: Kind, c: nat)
    requires Enabled(s, a) && Ended(s.shared, k, c)
    ensures Ended(Step(s, a).shared, k, c)
  {
    hide PoolOf, EffectOf, Accounted;
    StepBooks(s, a, k);
  }

  lemma EndedIsNotPending(s: State, k: Kind, c: nat)
    requires Booked(s) && Ended(s.shared, k, c)
    ensures c !in Pend(s.shared, k)
  {
    assert Accounted(PoolOf(s.shared, k));
    assert c in Pend(s.shared, k) ==> c in PoolOf(s.shared, k).pending.Keys;
  }

  /** A request that has ended never becomes pending again, and a response to it does nothing but
      raise the count of late responses. */
  lemma LateResponsesOnlyCount(max: Limits, states: seq<State>, actions: seq<Action>, i: nat, j: nat, k: Kind, c: nat, ok: bool)
    requires IsRun(max, states, actions) && i <= j < |states| && Ended(states[i].shared, k, c)
    ensures Ended(states[j].shared, k, c) && c !in Pend(states[j].shared, k)
    ensures k == Invocation && Enabled(states[j], Response(c, ok)) ==>
              var m := states[j].shared;
              Step(states[j], Response(c, ok)).shared == m.(metrics := m.metrics.(late := m.metrics.late + 1))
  {
    hide Ended, Booked, Step;
    RequestsEndOnce(max, states, actions);
    for n := i to j
      invariant Ended(states[n].shared, k, c)
    {
      EndedStays(states[n], actions[n], k, c);
    }
    EndedIsNotPending(states[j], k, c);
    if k == Invocation && Enabled(states[j], Response(c, ok)) {
      LateStep(states[j], c, ok);
    }
  }

  lemma LateStep(s: State, c: nat, ok: bool)
    requires Enabled(s, Response(c, ok)) && c !in Pend(s.shared, Invocation)
    ensures Step(s, Response(c, ok)).shared == s.shared.(metrics := s.shared.metrics.(late := s.shared.metrics.late + 1))
  {
    hide Pend;
  }
}
