/** Every caller gets the answer to its own request. */
module ClientAnswers {
  import opened Words
  import opened ClientRuntime
  import opened ClientOwnership
  import opened ClientResolution

  /** What the reader is going to send. */
  function DueReply(pc: Pc): Reply
    requires InsideEnvelope(pc)
  {
    match pc
    case Answering(_, ok) => if ok then Answer else Failure
    case Replying(_, ok) => if ok then Answer else Failure
    case Taken(_, ack, _, valid) => if valid then Ack(ack) else Failure
    case Activated(_, ack) => Ack(ack)
  }

  predicate Says(m: Shared, corr: nat, reply: Reply) {
    corr in m.log.notes.verdicts && m.log.notes.verdicts[corr] == reply
  }

  /** The reply is the server's verdict on the request, or the error of a termination that drained
      it. */
  predicate IsOwn(m: Shared, q: Request, reply: Reply) {
    Says(m, q.corr, reply) || (reply == Failure && q.corr in PoolOf(m, q.kind).ledger.drained)
  }

  ghost predicate Truthful(m: Shared, h: Threads) {
    forall t | t in h.tasks && Listed(h.tasks[t]) ::
      (Due(h, t) ==> Says(m, h.tasks[t].req.corr, DueReply(h.tasks[READER]))) &&
      (Replied(h, t) ==> IsOwn(m, h.tasks[t].req, h.slots[t].reply))
  }

  /** The step takes up an entry and notes what the server said about it. */
  ghost predicate TakesNote(m: Shared, e: Effect) {
    e.next.Some? && InsideEnvelope(e.next.value) &&
    exists k, c ::
      c in Pend(m, k) && Pend(m, k)[c].owner == e.next.value.owner && c !in Pend(e.shared, k) &&
      e.shared.log.notes.verdicts == m.log.notes.verdicts[c := DueReply(e.next.value)]
  }

  ghost predicate Tells(m: Shared, pc: Option<Pc>, e: Effect) {
    (e.op.Send? ==> pc.Some? && InsideEnvelope(pc.value) && e.op.reply == DueReply(pc.value)) &&
    (TakesNote(m, e) || e.shared.log.notes.verdicts == m.log.notes.verdicts) &&
    (e.next.Some? && InsideEnvelope(e.next.value) ==>
       TakesNote(m, e) ||
       (pc.Some? && InsideEnvelope(pc.value) && e.next.value.owner == pc.value.owner && DueReply(e.next.value) == DueReply(pc.value))) &&
    (e.op.FailAll? ==> exists k :: e.op.drained == Pend(m, k) && Pend(m, k).Keys <= PoolOf(e.shared, k).ledger.drained)
  }

  lemma CallerTells(m: Shared, t: Tid, phase: Phase, q: Request, reply: Reply)
    ensures Tells(m, Some(Calling(phase, q)), CallerStep(m, t, phase, q, reply))
  {
    hide PoolOf, Pend, TakesNote;
  }

  lemma DrainTells(m: Shared, stage: nat, holding: Option<Kind>)
    ensures Tells(m, Some(Term(stage, holding)), Drain(m, stage, holding))
  {
    var k := DrainedKind(stage);
    assert Pend(m, k).Keys <= PoolOf(Drain(m, stage, holding).shared, k).ledger.drained;
  }

  lemma ReaderTells(m: Shared, pc: Pc, alive: bool)
    requires InsideEnvelope(pc)
    ensures Tells(m, Some(pc), ReaderStep(m, pc, alive))
  {
    hide PoolOf, Pend, TakesNote;
  }

  lemma TerminateTells(m: Shared, t: Tid, stage: nat, holding: Option<Kind>)
    ensures Tells(m, Some(Term(stage, holding)), Terminate(m, t, stage, holding))
  {
    hide PoolOf, Pend, Drain, Forget, Unhold, TakesNote;
    DrainTells(m, stage, holding);
    VerdictsAreKept(m, holding);
    VerdictsAreKept(Forget(m, 5), holding);
  }

  lemma TaskTells(m: Shared, t: Tid, pc: Pc, reply: Reply, alive: bool)
    requires !pc.ControlSend? && !pc.Idle?
    ensures Tells(m, Some(pc), TaskStep(m, t, pc, reply, alive))
  {
    hide PoolOf, Pend, CallerStep, ReaderStep, Terminate, TakesNote;
    if InsideEnvelope(pc) {
      ReaderTells(m, pc, alive);
    } else if pc.Calling? {
      CallerTells(m, t, pc.phase, pc.req, reply);
    } else if pc.Term? {
      TerminateTells(m, t, pc.stage, pc.holding);
    }
  }

  lemma VerdictsAreKept(m: Shared, holding: Option<Kind>)
    ensures Unhold(m, holding).log == m.log
    ensures Forget(m, 4).log.notes.verdicts == m.log.notes.verdicts == Forget(m, 5).log.notes.verdicts
  {
  }

  lemma ServerTells(m: Shared, a: Action)
    requires FromServer(a)
    ensures Tells(m, Some(Idle), FromServerEffect(m, a))
  {
    var m' := FromServerEffect(m, a).shared;
    match a
    case Response(corr, _) => assert corr !in Pend(m', Invocation);
    case SubscriptionAck(corr, _) => assert corr !in Pend(m', Subscription);
    case SessionMessage(corr, _, _) => assert corr !in Pend(m', Session);
    case _ =>
  }

  lemma StepTells(s: State, a: Action)
    requires Enabled(s, a)
    ensures Tells(s.shared, PcOf(s.threads.tasks, Actor(a)), EffectOf(s, a))
  {
    hide TaskStep, FromServerEffect, PoolOf, WithPool, Pend, Active;
    if FromServer(a) {
      ServerTells(s.shared, a);
    } else if a.Advance? {
      var pc := s.threads.tasks[a.t];
      TaskTells(s.shared, a.t, pc, ReplyOf(s.threads, a.t), Alive(s.threads, pc));
    } else {
      LocalTells(s, a);
    }
  }

  lemma LocalTells(s: State, a: Action)
    requires Enabled(s, a) && !FromServer(a) && !a.Advance?
    ensures Tells(s.shared, PcOf(s.threads.tasks, Actor(a)), EffectOf(s, a))
  {
    hide TaskStep, FromServerEffect, PoolOf, WithPool, Pend, Active;
  }

  /** A verdict on a request that is no longer pending is not touched again. */
  lemma VerdictStays(m: Shared, tasks: map<Tid, Pc>, e: Effect, pc: Option<Pc>, u: Tid, reply: Reply)
    requires Numbers(tasks, m.corr) && AllBacked(m, tasks) && Tells(m, pc, e)
    requires u in tasks && Listed(tasks[u]) && forall k :: Unowned(Pend(m, k), u)
    requires Says(m, tasks[u].req.corr, reply)
    ensures Says(e.shared, tasks[u].req.corr, reply)
  {
    hide Pend, Numbers, AllBacked, Tells;
    if e.shared.log.notes.verdicts != m.log.notes.verdicts {
      NotesElsewhere(m, tasks, e, pc, u);
    }
  }

  lemma NotesElsewhere(m: Shared, tasks: map<Tid, Pc>, e: Effect, pc: Option<Pc>, u: Tid)
    requires Numbers(tasks, m.corr) && AllBacked(m, tasks) && Tells(m, pc, e) && e.shared.log.notes.verdicts != m.log.notes.verdicts
    requires u in tasks && Listed(tasks[u]) && forall k :: Unowned(Pend(m, k), u)
    ensures var corr := tasks[u].req.corr;
            corr in m.log.notes.verdicts ==> corr in e.shared.log.notes.verdicts && e.shared.log.notes.verdicts[corr] == m.log.notes.verdicts[corr]
  {
    hide Pend;
    var corr := tasks[u].req.corr;
    var k, c :| c in Pend(m, k) && Pend(m, k)[c].owner == e.next.value.owner && c !in Pend(e.shared, k) &&
                e.shared.log.notes.verdicts == m.log.notes.verdicts[c := DueReply(e.next.value)];
    assert Backed(Pend(m, k), tasks, k) && Unowned(Pend(m, k), u);
    if c == corr {
      OwnEntry(m, tasks, u, k, c);
    }
  }

  /** What the reader took up is said of its owner's request. */
  lemma NotedIsSaid(m: Shared, tasks: map<Tid, Pc>, e: Effect)
    requires AllBacked(m, tasks) && TakesNote(m, e)
    ensures var u := e.next.value.owner;
            u in tasks && Listed(tasks[u]) && Says(e.shared, tasks[u].req.corr, DueReply(e.next.value))
  {
    hide Pend;
    var k, c :| c in Pend(m, k) && Pend(m, k)[c].owner == e.next.value.owner && c !in Pend(e.shared, k) &&
                e.shared.log.notes.verdicts == m.log.notes.verdicts[c := DueReply(e.next.value)];
    assert Backed(Pend(m, k), tasks, k) && Behind(tasks, k, c, Pend(m, k)[c]);
  }

  /** The request of a registered caller before and after a step. */
  lemma SameRequest(h: Threads, t: Tid, e: Effect, m: Shared, u: Tid)
    requires Draws(PcOf(h.tasks, t), e.next, m.corr, e.shared.corr) && Addressed(m, t, PcOf(h.tasks, t), e)
    requires Carries(e.shared, PcOf(h.tasks, t), e.next)
    requires u in Moved(h.tasks, t, e.next) && Listed(Moved(h.tasks, t, e.next)[u])
    ensures u in h.tasks && Drawn(h.tasks[u]) && Moved(h.tasks, t, e.next)[u].req == h.tasks[u].req
    ensures !Listed(h.tasks[u]) ==> u == t && e.op.Open?
  {
    hide Pend;
  }

  lemma DueIsTruthful(m: Shared, h: Threads, t: Tid, e: Effect, u: Tid)
    requires Shape(h) && Numbers(h.tasks, m.corr) && AllBacked(m, h.tasks) && Answers(m, h) && Truthful(m, h)
    requires Addressed(m, t, PcOf(h.tasks, t), e) && Tells(m, PcOf(h.tasks, t), e)
    requires u in h.tasks && Listed(h.tasks[u]) && Due(Apply(h, t, e.next, e.op), u)
    ensures Says(e.shared, h.tasks[u].req.corr, DueReply(Apply(h, t, e.next, e.op).tasks[READER]))
  {
    hide Pend, Numbers, AllBacked, Addressed, TakesNote, IsOwn;
    if t == READER && TakesNote(m, e) {
      NotedIsSaid(m, h.tasks, e);
    } else {
      assert Due(h, u) && forall k :: Unowned(Pend(m, k), u);
      VerdictStays(m, h.tasks, e, PcOf(h.tasks, t), u, DueReply(h.tasks[READER]));
    }
  }

  lemma OwnStays(m: Shared, h: Threads, t: Tid, e: Effect, u: Tid, reply: Reply)
    requires Numbers(h.tasks, m.corr) && AllBacked(m, h.tasks) && Tells(m, PcOf(h.tasks, t), e)
    requires u in h.tasks && Listed(h.tasks[u]) && forall k :: Unowned(Pend(m, k), u)
    requires Books(m, e.shared, t, PcOf(h.tasks, t), h.tasks[u].req.kind)
    requires IsOwn(m, h.tasks[u].req, reply)
    ensures IsOwn(e.shared, h.tasks[u].req, reply)
  {
    hide Pend, Numbers, AllBacked, Tells, PoolOf, Accounted;
    if Says(m, h.tasks[u].req.corr, reply) {
      VerdictStays(m, h.tasks, e, PcOf(h.tasks, t), u, reply);
    }
  }

  /** A caller whose slot is filled by a drain was pending there. */
  lemma DrainedIsOwn(m: Shared, h: Threads, t: Tid, e: Effect, u: Tid)
    requires AllBacked(m, h.tasks) && Tells(m, PcOf(h.tasks, t), e) && e.op.FailAll?
    requires u in h.tasks && Listed(h.tasks[u]) && !Unowned(e.op.drained, u)
    ensures IsOwn(e.shared, h.tasks[u].req, Failure)
  {
    hide Pend;
    var k :| e.op.drained == Pend(m, k) && Pend(m, k).Keys <= PoolOf(e.shared, k).ledger.drained;
    var c :| c in e.op.drained && e.op.drained[c].owner == u;
    assert Backed(Pend(m, k), h.tasks, k) && Behind(h.tasks, k, c, Pend(m, k)[c]);
    assert c in Pend(m, k).Keys;
  }

  lemma RepliedIsTruthful(m: Shared, h: Threads, t: Tid, e: Effect, u: Tid)
    requires Shape(h) && Numbers(h.tasks, m.corr) && AllBacked(m, h.tasks) && Answers(m, h) && Truthful(m, h)
    requires Addressed(m, t, PcOf(h.tasks, t), e) && Tells(m, PcOf(h.tasks, t), e)
    requires u in h.tasks && Listed(h.tasks[u]) && Replied(Apply(h, t, e.next, e.op), u)
    requires Books(m, e.shared, t, PcOf(h.tasks, t), h.tasks[u].req.kind)
    ensures IsOwn(e.shared, h.tasks[u].req, Apply(h, t, e.next, e.op).slots[u].reply)
  {
    hide Pend, Numbers, AllBacked, TakesNote, IsOwn, Books;
    if e.op.FailAll? && !Unowned(e.op.drained, u) {
      DrainedIsOwn(m, h, t, e, u);
    } else if e.op.Send? && e.op.owner == u {
      assert Due(h, u) && forall k :: Unowned(Pend(m, k), u);
      SaidIsOwn(m, h.tasks[u].req, e.op.reply);
      OwnStays(m, h, t, e, u, e.op.reply);
    } else {
      assert Replied(h, u) && forall k :: Unowned(Pend(m, k), u);
      OwnStays(m, h, t, e, u, h.slots[u].reply);
    }
  }

  lemma SaidIsOwn(m: Shared, q: Request, reply: Reply)
    requires Says(m, q.corr, reply)
    ensures IsOwn(m, q, reply)
  {
  }

  lemma TruthfulKept(m: Shared, h: Threads, t: Tid, e: Effect)
    requires Shape(h) && Numbers(h.tasks, m.corr) && AllBacked(m, h.tasks) && Answers(m, h) && Truthful(m, h)
    requires (t in h.tasks || t == h.spawned) && Tidy(t, PcOf(h.tasks, t), e)
    requires Draws(PcOf(h.tasks, t), e.next, m.corr, e.shared.corr) && Carries(e.shared, PcOf(h.tasks, t), e.next)
    requires Addressed(m, t, PcOf(h.tasks, t), e) && Tells(m, PcOf(h.tasks, t), e)
    requires forall k :: Books(m, e.shared, t, PcOf(h.tasks, t), k)
    ensures Truthful(e.shared, Apply(h, t, e.next, e.op))
  {
    hide Pend, Numbers, AllBacked, TakesNote, IsOwn, Books, Says, DueReply, Draws, Carries, Tells, Answers;
    var h' := Apply(h, t, e.next, e.op);
    forall u | u in h'.tasks && Listed(h'.tasks[u])
      ensures Due(h', u) ==> Says(e.shared, h'.tasks[u].req.corr, DueReply(h'.tasks[READER]))
      ensures Replied(h', u) ==> IsOwn(e.shared, h'.tasks[u].req, h'.slots[u].reply)
    {
      SameRequest(h, t, e, m, u);
      if Due(h', u) {
        DueWasListed(m, h, t, e, u);
        DueIsTruthful(m, h, t, e, u);
      }
      if Replied(h', u) {
        RepliedIsTruthful(m, h, t, e, u);
      }
    }
  }

  lemma DueWasListed(m: Shared, h: Threads, t: Tid, e: Effect, u: Tid)
    requires Shape(h) && AllBacked(m, h.tasks) && Answers(m, h) && Addressed(m, t, PcOf(h.tasks, t), e)
    requires Due(Apply(h, t, e.next, e.op), u) && u in h.tasks && Drawn(h.tasks[u])
    ensures Listed(h.tasks[u])
  {
    hide Pend, InPlace;
    DueFrom(m, h, t, e, u);
    if TakenFrom(m, e.shared, u) {
      var k, c :| c in Pend(m, k) && c !in Pend(e.shared, k) && Pend(m, k)[c].owner == u;
      OwnerIsPast(m, h, k, c);
    }
  }

  // ---------------------------------------------------------------- every run

  lemma StepTruthful(s: State, a: Action)
    requires Enabled(s, a) && Owned(s) && Truthful(s.shared, s.threads)
    ensures Truthful(Step(s, a).shared, Step(s, a).threads)
  {
    hide EffectOf, Pend, Truthful, Tidy, Draws, Carries, Addressed, Tells, Books, Numbers, AllBacked, Answers;
    var t, e := Actor(a), EffectOf(s, a);
    StepIsTidy(s, a);
    StepDraws(s, a);
    if a.Advance? && At(s.threads, t, Receiving) {
      ReceiverIsUnlisted(s, t);
    }
    StepCarries(s, a);
    StepAddressed(s, a);
    StepTells(s, a);
    forall k
      ensures Books(s.shared, e.shared, t, PcOf(s.threads.tasks, t), k)
    {
      StepBooks(s, a, k);
    }
    TruthfulKept(s.shared, s.threads, t, e);
  }

  lemma InitTruthful(max: Limits)
    ensures Truthful(Init(max).shared, Init(max).threads)
  {
  }

  lemma RunTruthful(max: Limits, states: seq<State>, actions: seq<Action>)
    requires IsRun(max, states, actions)
    ensures forall i | 0 <= i < |states| :: Truthful(states[i].shared, states[i].threads)
  {
    hide Owned, Truthful, Step;
    RunOwned(max, states, actions);
    InitTruthful(max);
    for i := 0 to |actions|
      invariant forall j | 0 <= j <= i :: Truthful(states[j].shared, states[j].threads)
    {
      StepTruthful(states[i], actions[i]);
    }
  }

  /** In every run, the answer that a caller finds is the server's verdict on its own request, or
      the error of a termination that drained its own request. */
  lemma CallersGetTheirOwnAnswers(max: Limits, states: seq<State>, actions: seq<Action>, i: nat, t: Tid)
    requires IsRun(max, states, actions) && i < |states|
    requires At(states[i].threads, t, Receiving) && Enabled(states[i], Advance(t))
    ensures t in states[i].threads.slots && states[i].threads.slots[t].Filled?
    ensures IsOwn(states[i].shared, states[i].threads.tasks[t].req, states[i].threads.slots[t].reply)
  {
    hide IsOwn;
    RunTruthful(max, states, actions);
    assert Truthful(states[i].shared, states[i].threads);
    assert Replied(states[i].threads, t);
  }

  /** What a message of the server says about a request. */
  predicate IsVerdict(a: Action, corr: nat, reply: Reply) {
    (a.Response? && a.corr == corr && reply == if a.ok then Answer else Failure) ||
    (a.SubscriptionAck? && a.corr == corr && (reply == Failure || reply == Ack(SubId(a.ackId)))) ||
    (a.SessionMessage? && a.corr == corr &&
     reply == if a.sessId != [] && a.fence != 0 then Ack(SessId(a.sessId)) else Failure)
  }

  lemma VerdictsAfter(s: State, a: Action, corr: nat, reply: Reply)
    requires Enabled(s, a) && Says(Step(s, a).shared, corr, reply)
    ensures Says(s.shared, corr, reply) || IsVerdict(a, corr, reply)
  {
    hide TaskStep, PoolOf, Pend;
    if a.Advance? {
      var pc := s.threads.tasks[a.t];
      TaskKeepsVerdicts(s.shared, a.t, pc, ReplyOf(s.threads, a.t), Alive(s.threads, pc));
    }
  }

  lemma TaskKeepsVerdicts(m: Shared, t: Tid, pc: Pc, reply: Reply, alive: bool)
    requires !pc.ControlSend? && !pc.Idle?
    ensures TaskStep(m, t, pc, reply, alive).shared.log.notes.verdicts == m.log.notes.verdicts
  {
    hide PoolOf, Pend, Active, CallerStep, Terminate;
    if pc.Calling? {
      CallerKeepsVerdicts(m, t, pc.phase, pc.req, reply);
    } else if pc.Term? {
      TerminateKeepsVerdicts(m, t, pc.stage, pc.holding);
    }
  }

  lemma CallerKeepsVerdicts(m: Shared, t: Tid, phase: Phase, q: Request, reply: Reply)
    ensures CallerStep(m, t, phase, q, reply).shared.log.notes.verdicts == m.log.notes.verdicts
  {
    hide PoolOf, Pend, Active;
  }

  lemma TerminateKeepsVerdicts(m: Shared, t: Tid, stage: nat, holding: Option<Kind>)
    ensures Terminate(m, t, stage, holding).shared.log.notes.verdicts == m.log.notes.verdicts
  {
    hide PoolOf, Pend, Active;
  }

  /** Every verdict was said by an earlier message of the server about that request. */
  lemma VerdictsComeFromTheServer(max: Limits, states: seq<State>, actions: seq<Action>, i: nat, corr: nat, reply: Reply)
    requires IsRun(max, states, actions) && i < |states| && Says(states[i].shared, corr, reply)
    ensures exists j :: 0 <= j < i && IsVerdict(actions[j], corr, reply)
  {
    hide Step, Says, IsVerdict;
    assert !Says(states[0].shared, corr, reply) by {
      NothingSaid(max, corr, reply);
    }
    for n := 0 to i
      invariant Says(states[n].shared, corr, reply) ==> exists j :: 0 <= j < n && IsVerdict(actions[j], corr, reply)
    {
      assert Enabled(states[n], actions[n]) && states[n + 1] == Step(states[n], actions[n]);
      if Says(states[n + 1].shared, corr, reply) {
        VerdictsAfter(states[n], actions[n], corr, reply);
      }
    }
  }

  lemma NothingSaid(max: Limits, corr: nat, reply: Reply)
    ensures !Says(Init(max).shared, corr, reply)
  {
  }
}
