/** What becomes of an orphaned subscription: it keeps its permit until the client terminates. And
    what becomes of a session's fence: it never falls. */
module ClientLeak {
  import opened Words
  import opened ClientRuntime
  import opened ClientOwnership
  import opened ClientClose
  import opened ClientOrphans
  import opened ClientSubscriptions
  import opened ClientHolders

  // ---------------------------------------------------------------- orphans

  /** Subscription `n` is active, and no handle, acknowledgement or task can close it. */
  ghost predicate Stranded(m: Shared, h: Threads, n: nat) {
    SubId(n) in Active(m, Subscription) && SubId(n) !in m.handles &&
    (forall t :: !InSlot(h, t, SubId(n))) && (forall t :: !InHand(h.tasks, t, SubId(n)))
  }

  /** How an active subscription can go, and where its id can turn up. */
  predicate Strands(m: Shared, h: Threads, t: Tid, pc: Option<Pc>, e: Effect, n: nat) {
    (SubId(n) in Active(m, Subscription) ==>
       SubId(n) in Active(e.shared, Subscription) || pc == Some(Closing(SubId(n))) || (pc.Some? && pc.value.Term? && pc.value.stage == 4)) &&
    (SubId(n) in e.shared.handles ==> SubId(n) in m.handles || ReplyOf(h, t) == Ack(SubId(n))) &&
    (e.op.Send? && e.op.reply == Ack(SubId(n)) ==> pc.Some? && pc.value.Activated? && pc.value.ack == SubId(n)) &&
    (e.next == Some(Closing(SubId(n))) ==> pc.Some? && pc.value.Activated? && pc.value.ack == SubId(n)) &&
    (e.next.Some? && e.next.value.Activated? && e.next.value.ack == SubId(n) ==> pc.Some? && Accepting(pc.value, n))
  }

  lemma CallerStrands(m: Shared, h: Threads, t: Tid, phase: Phase, q: Request, n: nat)
    ensures Strands(m, h, t, Some(Calling(phase, q)), CallerStep(m, t, phase, q, ReplyOf(h, t)), n)
  {
    hide Active, CallerStep;
    CallerActivates(m, t, phase, q, ReplyOf(h, t), Subscription);
    CallerHands(m, h, t, phase, q, n);
  }

  lemma CallerHands(m: Shared, h: Threads, t: Tid, phase: Phase, q: Request, n: nat)
    ensures var e := CallerStep(m, t, phase, q, ReplyOf(h, t));
            (SubId(n) in e.shared.handles ==> SubId(n) in m.handles || ReplyOf(h, t) == Ack(SubId(n))) &&
            !e.op.Send? && (e.next.Some? ==> !e.next.value.Closing? && !e.next.value.Activated?)
  {
    hide PoolOf, Pend;
  }

  lemma TerminateStrands(m: Shared, h: Threads, t: Tid, stage: nat, holding: Option<Kind>, n: nat)
    ensures Strands(m, h, t, Some(Term(stage, holding)), Terminate(m, t, stage, holding), n)
  {
    hide Unhold, Forget, Pend;
    UnholdKeeps(m, holding, Subscription);
    UnholdKeeps(Forget(m, 5), holding, Subscription);
    ForgetKeeps(m, 5, Subscription);
    HandlesAreKept(m, holding);
    HandlesAreKept(Forget(m, 5), holding);
  }

  lemma HandlesAreKept(m: Shared, holding: Option<Kind>)
    ensures Unhold(m, holding).handles == m.handles
    ensures Forget(m, 4).handles == m.handles == Forget(m, 5).handles
  {
  }

  lemma TaskStrands(m: Shared, h: Threads, t: Tid, pc: Pc, n: nat)
    requires !pc.ControlSend? && !pc.Idle?
    ensures Strands(m, h, t, Some(pc), TaskStep(m, t, pc, ReplyOf(h, t), Alive(h, pc)), n)
  {
    hide CallerStep, Terminate;
    if pc.Calling? {
      CallerStrands(m, h, t, pc.phase, pc.req, n);
    } else if pc.Term? {
      TerminateStrands(m, h, t, pc.stage, pc.holding, n);
    }
  }

  lemma StepStrands(s: State, a: Action, n: nat)
    requires Enabled(s, a) && SubId(n) !in s.shared.log.notes.handled && SubId(n) !in s.shared.handles
    ensures Strands(s.shared, s.threads, Actor(a), PcOf(s.threads.tasks, Actor(a)), EffectOf(s, a), n)
  {
    hide TaskStep, Pend;
    if a.Advance? {
      TaskStrands(s.shared, s.threads, a.t, s.threads.tasks[a.t], n);
    }
  }

  lemma StrandedKept(m: Shared, h: Threads, t: Tid, e: Effect, n: nat)
    requires Stranded(m, h, n) && Strands(m, h, t, PcOf(h.tasks, t), e, n)
    requires Shape(h) && Exclusive(m, h.tasks)
    requires t in h.tasks && h.tasks[t].Term? ==> h.tasks[t].stage != 4
    ensures Stranded(e.shared, Apply(h, t, e.next, e.op), n)
  {
    hide Active, Spent;
    var h' := Apply(h, t, e.next, e.op);
    assert !InHand(h.tasks, t, SubId(n)) && !InSlot(h, t, SubId(n));
    forall u
      ensures !InSlot(h', u, SubId(n))
    {
      assert !InSlot(h, u, SubId(n));
    }
    forall u
      ensures !InHand(h'.tasks, u, SubId(n))
    {
      assert !InHand(h.tasks, u, SubId(n));
      assert u == t && t in h.tasks && Accepting(h.tasks[t], n) ==> t == READER;
    }
  }

  lemma StepStranded(s: State, a: Action, n: nat)
    requires Enabled(s, a) && Owned(s) && SubsApart(s) && Closable(s) && Stranded(s.shared, s.threads, n)
    requires SubId(n) !in s.shared.log.notes.handled
    requires Step(s, a).shared.log.progress <= 4
    ensures Stranded(Step(s, a).shared, Step(s, a).threads, n)
  {
    hide EffectOf, Strands, SubNumbers, Exclusive, Proceeds, Live, Quieted, Numbers, AllBacked, Answers, Orderly;
    StepStrands(s, a, n);
    StepProceeds(s, a);
    StageFourIsSeen(s.shared, Actor(a), PcOf(s.threads.tasks, Actor(a)), EffectOf(s, a));
    StrandedKept(s.shared, s.threads, Actor(a), EffectOf(s, a), n);
  }

  lemma StageFourIsSeen(m: Shared, t: Tid, pc: Option<Pc>, e: Effect)
    requires Proceeds(m, t, pc, e)
    ensures pc.Some? && pc.value.Term? && pc.value.stage == 4 ==> e.shared.log.progress == 5
  {
  }

  lemma ProgressGrows(s: State, a: Action)
    requires Enabled(s, a) && Owned(s) && Closable(s)
    ensures s.shared.log.progress <= Step(s, a).shared.log.progress
  {
    hide EffectOf, Live, Quieted, Numbers, AllBacked, Answers;
    StepProceeds(s, a);
    assert Terminating(PcOf(s.threads.tasks, Actor(a))) ==> s.threads.tasks[Actor(a)].stage == s.shared.log.progress;
  }

  /** An active subscription whose acknowledgement was dropped unread is stranded, whatever else is
      in flight. */
  lemma DroppedIsStranded(s: State, n: nat)
    requires Shape(s.threads) && Held(s) && SubId(n) in Active(s.shared, Subscription) && SubId(n) in s.threads.orphans
    ensures Stranded(s.shared, s.threads, n) && SubId(n) !in s.shared.log.notes.handled
  {
    hide Active, Places, AckedOnce;
    SubsAreAckedOnce(s, n);
    OnePlace(s, SubId(n));
    forall t
      ensures !InHand(s.threads.tasks, t, SubId(n))
    {
      NotInHand(s, t, n);
    }
  }

  lemma NotInHand(s: State, t: Tid, n: nat)
    requires FromHandles(s.shared, s.threads.tasks) && SubId(n) !in s.shared.log.notes.handled
    requires !InReader(PcOf(s.threads.tasks, READER), SubId(n))
    requires Shape(s.threads)
    ensures !InHand(s.threads.tasks, t, SubId(n))
  {
  }

  /** In every run, a subscription whose acknowledgement was dropped unread stays active, and so
      keeps its permit, until a termination drops the active subscriptions: nothing else closes it. */
  lemma OrphansStayUntilClose(max: Limits, states: seq<State>, actions: seq<Action>, i: nat, j: nat, n: nat)
    requires IsRun(max, states, actions) && i <= j < |states|
    requires SubId(n) in Active(states[i].shared, Subscription) && SubId(n) in states[i].threads.orphans
    requires states[j].shared.log.progress <= 4
    ensures SubId(n) in Active(states[j].shared, Subscription) && SubId(n) in states[j].threads.orphans
    ensures Stranded(states[j].shared, states[j].threads, n)
  {
    hide Owned, SubsApart, Closable, Held, Stranded, Step, Active;
    RunOwned(max, states, actions);
    RunSubsApart(max, states, actions);
    RunClosable(max, states, actions);
    RunHeld(max, states, actions);
    ProgressIsBounded(max, states, actions, i, j);
    for k := i to j
      invariant SubId(n) in Active(states[k].shared, Subscription) && SubId(n) in states[k].threads.orphans
    {
      var next := k + 1;
      assert states[next] == Step(states[k], actions[k]) && states[next].shared.log.progress <= 4;
      StepOrphaned(states[k], actions[k], n);
    }
    OwnedShape(states[j]);
    DroppedIsStranded(states[j], n);
  }

  lemma StepOrphaned(s: State, a: Action, n: nat)
    requires Enabled(s, a) && Owned(s) && SubsApart(s) && Closable(s) && Held(s)
    requires SubId(n) in Active(s.shared, Subscription) && SubId(n) in s.threads.orphans
    requires Step(s, a).shared.log.progress <= 4
    ensures SubId(n) in Active(Step(s, a).shared, Subscription) && SubId(n) in Step(s, a).threads.orphans
  {
    hide EffectOf, SubsApart, Closable, Held, Active;
    OwnedShape(s);
    DroppedIsStranded(s, n);
    StepStranded(s, a, n);
  }

  lemma OwnedShape(s: State)
    requires Owned(s)
    ensures Shape(s.threads)
  {
  }

  lemma ProgressIsBounded(max: Limits, states: seq<State>, actions: seq<Action>, i: nat, j: nat)
    requires IsRun(max, states, actions) && i <= j < |states|
    ensures forall k | i <= k <= j :: states[k].shared.log.progress <= states[j].shared.log.progress
  {
    hide Owned, Closable, Step;
    RunOwned(max, states, actions);
    RunClosable(max, states, actions);
    for k := j downto i
      invariant forall l | k <= l <= j :: states[l].shared.log.progress <= states[j].shared.log.progress
    {
      ProgressGrows(states[k], actions[k]);
      assert states[k + 1] == Step(states[k], actions[k]);
    }
  }

  // ---------------------------------------------------------------- fences

  /** The fence of an active session only rises, unless the session is acknowledged anew. */
  predicate Fenced(m: Shared, pc: Option<Pc>, m': Shared, id: Id) {
    id in Active(m, Session) && id in Active(m', Session) ==>
      Active(m, Session)[id] <= Active(m', Session)[id] || (pc.Some? && pc.value.Taken? && pc.value.ack == id)
  }

  lemma TaskFenced(m: Shared, t: Tid, pc: Pc, reply: Reply, alive: bool, id: Id)
    requires !pc.ControlSend? && !pc.Idle?
    ensures Fenced(m, Some(pc), TaskStep(m, t, pc, reply, alive).shared, id)
  {
    hide CallerStep, Terminate;
    if pc.Calling? {
      CallerActivates(m, t, pc.phase, pc.req, reply, Session);
    } else if pc.Term? {
      TerminateFenced(m, t, pc.stage, pc.holding, id);
    }
  }

  lemma TerminateFenced(m: Shared, t: Tid, stage: nat, holding: Option<Kind>, id: Id)
    ensures Fenced(m, Some(Term(stage, holding)), Terminate(m, t, stage, holding).shared, id)
  {
    hide Unhold, Forget, Pend;
    UnholdKeeps(m, holding, Session);
    UnholdKeeps(Forget(m, 5), holding, Session);
    ForgetKeeps(m, 4, Session);
    ForgetKeeps(m, 5, Session);
  }

  lemma StepFenced(s: State, a: Action, id: Id)
    requires Enabled(s, a)
    ensures Fenced(s.shared, PcOf(s.threads.tasks, Actor(a)), EffectOf(s, a).shared, id)
  {
    hide TaskStep;
    if a.Advance? {
      var pc := s.threads.tasks[a.t];
      TaskFenced(s.shared, a.t, pc, ReplyOf(s.threads, a.t), Alive(s.threads, pc), id);
    }
  }

  predicate AcceptsAgain(s: State, a: Action, id: Id) {
    a == Advance(READER) && READER in s.threads.tasks && s.threads.tasks[READER].Taken? && s.threads.tasks[READER].ack == id
  }

  /** In every run, the fence of a session that stays active never falls, whatever heartbeats
      arrive, as long as the server does not acknowledge the same id for another request. */
  lemma FencesNeverFall(max: Limits, states: seq<State>, actions: seq<Action>, i: nat, j: nat, id: Id)
    requires IsRun(max, states, actions) && i <= j < |states|
    requires forall k | i <= k <= j :: id in Active(states[k].shared, Session)
    requires forall k | i <= k < j :: !AcceptsAgain(states[k], actions[k], id)
    ensures Active(states[i].shared, Session)[id] <= Active(states[j].shared, Session)[id]
  {
    hide Owned, Step, Active;
    RunOwned(max, states, actions);
    for k := i to j
      invariant Active(states[i].shared, Session)[id] <= Active(states[k].shared, Session)[id]
    {
      var next := k + 1;
      assert states[next] == Step(states[k], actions[k]) && id in Active(states[next].shared, Session);
      FenceStep(states[k], actions[k], id);
    }
  }

  lemma FenceStep(s: State, a: Action, id: Id)
    requires Enabled(s, a) && Owned(s) && !AcceptsAgain(s, a, id)
    requires id in Active(s.shared, Session) && id in Active(Step(s, a).shared, Session)
    ensures Active(s.shared, Session)[id] <= Active(Step(s, a).shared, Session)[id]
  {
    hide EffectOf, Active, Numbers, AllBacked, Answers;
    StepFenced(s, a, id);
    assert Actor(a) in s.threads.tasks && s.threads.tasks[Actor(a)].Taken? ==> Actor(a) == READER;
  }
}
