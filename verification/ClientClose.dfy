/** What closing the client means for the callers that wait: a termination runs once, and after
    it has drained the pending maps no caller waits for an answer that will not come. */
module ClientClose {
  import opened Words
  import opened ClientRuntime
  import opened ClientOwnership

  // ---------------------------------------------------------------- one termination

  predicate Terminating(pc: Option<Pc>) {
    pc.Some? && pc.value.Term? && pc.value.stage >= 1
  }

  /** One task terminates, and it is as far as the log says. */
  ghost predicate Orderly(m: Shared, tasks: map<Tid, Pc>) {
    var l := m.log;
    (m.closed <==> l.progress >= 1) && l.progress <= 6 &&
    (forall t | Terminating(PcOf(tasks, t)) :: t == l.terminator && tasks[t].stage == l.progress <= 5) &&
    (1 <= l.progress <= 5 ==> Terminating(PcOf(tasks, l.terminator)))
  }

  /** How a step moves a termination. */
  predicate Proceeds(m: Shared, t: Tid, pc: Option<Pc>, e: Effect) {
    var l, l' := m.log, e.shared.log;
    if Terminating(pc) then
      l'.progress == pc.value.stage + 1 && l'.terminator == l.terminator && e.shared.closed == m.closed &&
      (if pc.value.stage <= 4 then Terminating(e.next) && e.next.value.stage == pc.value.stage + 1
       else !Terminating(e.next))
    else if Terminating(e.next) then
      !m.closed && e.shared.closed && e.next.value.stage == l'.progress == 1 && l'.terminator == t
    else
      l'.progress == l.progress && l'.terminator == l.terminator && e.shared.closed == m.closed
  }

  lemma CallerProceeds(m: Shared, t: Tid, phase: Phase, q: Request, reply: Reply)
    ensures Proceeds(m, t, Some(Calling(phase, q)), CallerStep(m, t, phase, q, reply))
  {
    hide PoolOf, Pend;
  }

  lemma TaskProceeds(m: Shared, t: Tid, pc: Pc, reply: Reply, alive: bool)
    requires !pc.ControlSend? && !pc.Idle? && (pc.Term? ==> pc.stage <= 5)
    ensures Proceeds(m, t, Some(pc), TaskStep(m, t, pc, reply, alive))
  {
    hide PoolOf, Pend, CallerStep;
    if pc.Calling? {
      CallerProceeds(m, t, pc.phase, pc.req, reply);
    }
  }

  lemma StepProceeds(s: State, a: Action)
    requires Enabled(s, a) && Shape(s.threads) && Orderly(s.shared, s.threads.tasks)
    ensures Proceeds(s.shared, Actor(a), PcOf(s.threads.tasks, Actor(a)), EffectOf(s, a))
  {
    hide PoolOf, Pend, TaskStep;
    if a.Advance? {
      var pc := s.threads.tasks[a.t];
      assert Terminating(Some(pc)) ==> Terminating(PcOf(s.threads.tasks, a.t));
      TaskProceeds(s.shared, a.t, pc, ReplyOf(s.threads, a.t), Alive(s.threads, pc));
    }
  }

  lemma OrderlyKept(m: Shared, tasks: map<Tid, Pc>, t: Tid, e: Effect)
    requires Orderly(m, tasks) && Proceeds(m, t, PcOf(tasks, t), e)
    ensures Orderly(e.shared, Moved(tasks, t, e.next))
  {
  }

  // ---------------------------------------------------------------- no lost answers

  /** The caller expects an answer. */
  predicate Waits(pc: Pc) {
    pc.Calling? && (pc.phase == Registered || pc.phase == Sending || pc.phase == Outbound || pc.phase == Receiving)
  }

  /** The caller has its answer, the reader is about to give it, or the request is pending. */
  predicate Hopeful(m: Shared, h: Threads, t: Tid, q: Request) {
    t in h.slots && (Replied(h, t) || Due(h, t) || q.corr in Pend(m, q.kind))
  }

  ghost predicate Live(m: Shared, h: Threads) {
    forall t | t in h.tasks && Waits(h.tasks[t]) :: Hopeful(m, h, t, h.tasks[t].req)
  }

  /** How a pending entry can go: its caller withdraws it, the reader takes it in order to answer
      its owner, or a termination drains its map and fails the owners. */
  ghost predicate Lets(m: Shared, pc: Option<Pc>, e: Effect, k: Kind) {
    forall c | c in Pend(m, k) && c !in Pend(e.shared, k) ::
      (pc.Some? && Drawn(pc.value) && !Waits(pc.value) && pc.value.req.corr == c) ||
      (e.next.Some? && InsideEnvelope(e.next.value) && e.next.value.owner == Pend(m, k)[c].owner) ||
      e.op == FailAll(Pend(m, k))
  }

  lemma CallerLets(m: Shared, t: Tid, phase: Phase, q: Request, reply: Reply, k: Kind)
    ensures Lets(m, Some(Calling(phase, q)), CallerStep(m, t, phase, q, reply), k)
  {
    hide Unhold;
    UnholdKeeps(m, Some(q.kind), k);
  }

  lemma TerminateLets(m: Shared, t: Tid, stage: nat, holding: Option<Kind>, k: Kind)
    ensures Lets(m, Some(Term(stage, holding)), Terminate(m, t, stage, holding), k)
  {
    hide Unhold, Forget;
    UnholdKeeps(m, holding, k);
    UnholdKeeps(Forget(m, 5), holding, k);
    ForgetKeeps(m, 4, k);
    ForgetKeeps(m, 5, k);
  }

  lemma TaskLets(m: Shared, t: Tid, pc: Pc, reply: Reply, alive: bool, k: Kind)
    requires !pc.ControlSend? && !pc.Idle?
    ensures Lets(m, Some(pc), TaskStep(m, t, pc, reply, alive), k)
  {
    hide CallerStep, Terminate;
    if pc.Calling? {
      CallerLets(m, t, pc.phase, pc.req, reply, k);
    } else if pc.Term? {
      TerminateLets(m, t, pc.stage, pc.holding, k);
    }
  }

  lemma StepLets(s: State, a: Action, k: Kind)
    requires Enabled(s, a)
    ensures Lets(s.shared, PcOf(s.threads.tasks, Actor(a)), EffectOf(s, a), k)
  {
    hide TaskStep;
    if a.Advance? {
      var pc := s.threads.tasks[a.t];
      TaskLets(s.shared, a.t, pc, ReplyOf(s.threads, a.t), Alive(s.threads, pc), k);
    }
  }

  /** A waiting caller keeps its slot, and the reader answers the caller it took on unless its
      receiver is gone. */
  predicate Attends(h: Threads, t: Tid, pc: Option<Pc>, e: Effect) {
    (e.next.Some? && Waits(e.next.value) ==>
       (e.op.Open? && e.next.value.req.corr in Pend(e.shared, e.next.value.req.kind)) ||
       (e.op.Keep? && pc.Some? && Waits(pc.value) && e.next.value.req == pc.value.req)) &&
    (pc.Some? && InsideEnvelope(pc.value) ==>
       (e.next.Some? && InsideEnvelope(e.next.value) && e.next.value.owner == pc.value.owner) ||
       (e.op.Send? && e.op.owner == pc.value.owner) ||
       pc.value.owner !in h.slots) &&
    (e.next.Some? && InsideEnvelope(e.next.value) ==> t == READER)
  }

  lemma CallerAttends(m: Shared, h: Threads, t: Tid, phase: Phase, q: Request, reply: Reply)
    ensures Attends(h, t, Some(Calling(phase, q)), CallerStep(m, t, phase, q, reply))
  {
  }

  lemma TaskAttends(m: Shared, h: Threads, t: Tid, pc: Pc, reply: Reply, alive: bool)
    requires !pc.ControlSend? && !pc.Idle? && InPlace(t, pc)
    requires InsideEnvelope(pc) ==> (alive <==> pc.owner in h.slots)
    ensures Attends(h, t, Some(pc), TaskStep(m, t, pc, reply, alive))
  {
    hide CallerStep, Pend, PoolOf, WithPool;
    if pc.Calling? {
      CallerAttends(m, h, t, pc.phase, pc.req, reply);
    }
  }

  lemma StepAttends(s: State, a: Action)
    requires Enabled(s, a) && Shape(s.threads)
    ensures Attends(s.threads, Actor(a), PcOf(s.threads.tasks, Actor(a)), EffectOf(s, a))
  {
    hide TaskStep, Pend, PoolOf, WithPool;
    if a.Advance? {
      var pc := s.threads.tasks[a.t];
      TaskAttends(s.shared, s.threads, a.t, pc, ReplyOf(s.threads, a.t), Alive(s.threads, pc));
    }
  }

  /** A step of another task leaves a waiting caller hopeful. */
  lemma OthersStayHopeful(m: Shared, h: Threads, t: Tid, e: Effect, u: Tid)
    requires Numbers(h.tasks, m.corr) && AllBacked(m, h.tasks)
    requires u != t && u in h.tasks && Waits(h.tasks[u]) && Hopeful(m, h, u, h.tasks[u].req)
    requires Lets(m, PcOf(h.tasks, t), e, h.tasks[u].req.kind) && Attends(h, t, PcOf(h.tasks, t), e)
    requires READER in h.tasks
    ensures Hopeful(e.shared, Apply(h, t, e.next, e.op), u, h.tasks[u].req)
  {
    hide Pend, Lets;
    var q, h' := h.tasks[u].req, Apply(h, t, e.next, e.op);
    assert u in h'.slots && (Replied(h, u) ==> Replied(h', u));
    if q.corr in Pend(m, q.kind) {
      assert Backed(Pend(m, q.kind), h.tasks, q.kind);
      OwnEntry(m, h.tasks, u, q.kind, q.corr);
      if q.corr !in Pend(e.shared, q.kind) {
        LostIsAnswered(m, h, t, e, u, q);
      }
    }
  }

  lemma LostIsAnswered(m: Shared, h: Threads, t: Tid, e: Effect, u: Tid, q: Request)
    requires Numbers(h.tasks, m.corr) && READER in h.tasks
    requires u != t && u in h.tasks && Waits(h.tasks[u]) && h.tasks[u].req == q && u in h.slots
    requires q.corr in Pend(m, q.kind) && Pend(m, q.kind)[q.corr].owner == u && q.corr !in Pend(e.shared, q.kind)
    requires Lets(m, PcOf(h.tasks, t), e, q.kind) && Attends(h, t, PcOf(h.tasks, t), e)
    ensures Replied(Apply(h, t, e.next, e.op), u) || Due(Apply(h, t, e.next, e.op), u)
  {
    hide Pend;
    assert t in h.tasks ==> Apart(h.tasks[t], h.tasks[u]);
  }

  /** A waiting caller's own step leaves it hopeful. */
  lemma StaysHopeful(m: Shared, h: Threads, t: Tid, e: Effect)
    requires Shape(h) && Live(m, h)
    requires e.next.Some? && Waits(e.next.value)
    requires Lets(m, PcOf(h.tasks, t), e, e.next.value.req.kind) && Attends(h, t, PcOf(h.tasks, t), e)
    ensures Hopeful(e.shared, Apply(h, t, e.next, e.op), t, e.next.value.req)
  {
    hide Pend;
  }

  lemma LiveKept(m: Shared, h: Threads, t: Tid, e: Effect)
    requires Shape(h) && Numbers(h.tasks, m.corr) && AllBacked(m, h.tasks) && Live(m, h)
    requires (forall k :: Lets(m, PcOf(h.tasks, t), e, k)) && Attends(h, t, PcOf(h.tasks, t), e)
    ensures Live(e.shared, Apply(h, t, e.next, e.op))
  {
    hide Pend, Hopeful, Lets, Attends, Numbers, AllBacked;
    var h' := Apply(h, t, e.next, e.op);
    forall u | u in h'.tasks && Waits(h'.tasks[u])
      ensures Hopeful(e.shared, h', u, h'.tasks[u].req)
    {
      if u == t {
        StaysHopeful(m, h, t, e);
      } else {
        OthersStayHopeful(m, h, t, e, u);
      }
    }
  }

  // ---------------------------------------------------------------- after the drain

  function StageOf(k: Kind): nat {
    match k
    case Invocation => 1
    case Subscription => 2
    case Session => 3
  }

  predicate PastSend(pc: Pc) {
    pc.Calling? && (pc.phase == Outbound || pc.phase == Receiving)
  }

  /** Once a kind is drained, callers that register late do not get past their second open check. */
  ghost predicate Quieted(m: Shared, tasks: map<Tid, Pc>, k: Kind) {
    m.log.progress > StageOf(k) ==>
      forall c | c in Pend(m, k) :: Pend(m, k)[c].owner in tasks && !PastSend(tasks[Pend(m, k)[c].owner])
  }

  /** Draining a kind empties its map, and no caller gets past the check on a closed client. */
  predicate Hushes(m: Shared, pc: Option<Pc>, e: Effect, k: Kind) {
    (pc.Some? && pc.value.Term? && pc.value.stage == StageOf(k) ==> Pend(e.shared, k) == map[]) &&
    (e.next.Some? && PastSend(e.next.value) ==> (pc.Some? && PastSend(pc.value)) || !m.closed)
  }

  lemma TaskHushes(m: Shared, t: Tid, pc: Pc, reply: Reply, alive: bool, k: Kind)
    requires !pc.ControlSend? && !pc.Idle?
    ensures Hushes(m, Some(pc), TaskStep(m, t, pc, reply, alive), k)
  {
  }

  lemma StepHushes(s: State, a: Action, k: Kind)
    requires Enabled(s, a) && Shape(s.threads)
    ensures Hushes(s.shared, PcOf(s.threads.tasks, Actor(a)), EffectOf(s, a), k)
  {
    hide TaskStep, Pend;
    if a.Advance? {
      var pc := s.threads.tasks[a.t];
      TaskHushes(s.shared, a.t, pc, ReplyOf(s.threads, a.t), Alive(s.threads, pc), k);
    }
  }

  lemma QuietedKept(m: Shared, tasks: map<Tid, Pc>, t: Tid, e: Effect, k: Kind)
    requires Orderly(m, tasks) && Quieted(m, tasks, k)
    requires Proceeds(m, t, PcOf(tasks, t), e) && Hushes(m, PcOf(tasks, t), e, k)
    requires Changes(m, e.shared, t, PcOf(tasks, t), k) && Carries(e.shared, PcOf(tasks, t), e.next)
    requires Backed(Pend(m, k), tasks, k)
    ensures Quieted(e.shared, Moved(tasks, t, e.next), k)
  {
    hide Pend;
  }

  // ---------------------------------------------------------------- every run

  ghost predicate Closable(s: State) {
    Orderly(s.shared, s.threads.tasks) && Live(s.shared, s.threads) &&
    forall k: Kind :: Quieted(s.shared, s.threads.tasks, k)
  }

  lemma StepClosable(s: State, a: Action)
    requires Enabled(s, a) && Owned(s) && Closable(s)
    ensures Closable(Step(s, a))
  {
    hide EffectOf, Pend, Orderly, Live, Quieted, Proceeds, Hushes, Changes, Carries, Lets, Attends, Numbers, Answers;
    var t, e := Actor(a), EffectOf(s, a);
    StepProceeds(s, a);
    OrderlyKept(s.shared, s.threads.tasks, t, e);
    StepAttends(s, a);
    forall k
      ensures Lets(s.shared, PcOf(s.threads.tasks, t), e, k)
    {
      StepLets(s, a, k);
    }
    LiveKept(s.shared, s.threads, t, e);
    if a.Advance? && At(s.threads, t, Receiving) {
      ReceiverIsUnlisted(s, t);
    }
    StepCarries(s, a);
    forall k
      ensures Quieted(e.shared, Moved(s.threads.tasks, t, e.next), k)
    {
      StepHushes(s, a, k);
      StepChanges(s, a, k);
      QuietedKept(s.shared, s.threads.tasks, t, e, k);
    }
  }

  lemma InitClosable(max: Limits)
    ensures Closable(Init(max))
  {
  }

  lemma RunClosable(max: Limits, states: seq<State>, actions: seq<Action>)
    requires IsRun(max, states, actions)
    ensures forall i | 0 <= i < |states| :: Closable(states[i])
  {
    hide Owned, Closable, Step;
    RunOwned(max, states, actions);
    InitClosable(max);
    for i := 0 to |actions|
      invariant forall j | 0 <= j <= i :: Closable(states[j])
    {
      StepClosable(states[i], actions[i]);
    }
  }

  lemma DrainedIsAnswered(s: State, t: Tid)
    requires Owned(s) && Closable(s)
    requires t in s.threads.tasks && PastSend(s.threads.tasks[t])
    requires s.shared.log.progress > StageOf(s.threads.tasks[t].req.kind)
    ensures Replied(s.threads, t) || Due(s.threads, t)
  {
    hide Pend, Answers;
    var q := s.threads.tasks[t].req;
    assert Hopeful(s.shared, s.threads, t, q);
    assert Quieted(s.shared, s.threads.tasks, q.kind) && Backed(Pend(s.shared, q.kind), s.threads.tasks, q.kind);
    if q.corr in Pend(s.shared, q.kind) {
      OwnEntry(s.shared, s.threads.tasks, t, q.kind, q.corr);
    }
  }

  /** In every run, after a termination has drained a kind of request, every caller of that kind
      that has sent has its answer or the reader is about to give it; so with an idle reader a
      receiving caller can return. */
  lemma CloseAnswersWaiters(max: Limits, states: seq<State>, actions: seq<Action>, i: nat, t: Tid)
    requires IsRun(max, states, actions) && i < |states|
    requires t in states[i].threads.tasks && PastSend(states[i].threads.tasks[t])
    requires states[i].shared.log.progress > StageOf(states[i].threads.tasks[t].req.kind)
    ensures Replied(states[i].threads, t) || Due(states[i].threads, t)
    ensures ReaderIdle(states[i].threads) && At(states[i].threads, t, Receiving) ==> Enabled(states[i], Advance(t))
  {
    hide Owned, Closable;
    RunOwned(max, states, actions);
    RunClosable(max, states, actions);
    DrainedIsAnswered(states[i], t);
  }

  /** A client is terminated by one task, which drains map after map in order. */
  lemma TerminationRunsOnce(max: Limits, states: seq<State>, actions: seq<Action>, i: nat)
    requires IsRun(max, states, actions) && i < |states|
    ensures var s := states[i];
            (s.shared.closed <==> s.shared.log.progress >= 1) &&
            (1 <= s.shared.log.progress <= 5 <==> exists t :: Terminating(PcOf(s.threads.tasks, t))) &&
            forall t, u | Terminating(PcOf(s.threads.tasks, t)) && Terminating(PcOf(s.threads.tasks, u)) :: t == u
  {
    hide IsRun, Live, Quieted;
    RunClosable(max, states, actions);
    assert Closable(states[i]);
  }
}
