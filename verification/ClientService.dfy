/** Calls are served: a caller is turned away only when every permit of its kind is in use, and a
    call with a free permit can be answered from every state with an idle reader. */
module ClientService {
  import opened Words
  import opened MapCounts
  import opened ClientRuntime
  import opened ClientOwnership
  import opened ClientPermits
  import opened ClientProgress

  // ---------------------------------------------------------------- refusals

  /** Permits in use: by pending requests, active entries and tasks. */
  ghost function Used(s: State, k: Kind): nat {
    |Pend(s.shared, k)| + |Active(s.shared, k)| + Held(s.threads.tasks, k)
  }

  /** What taking a permit does to the caller. */
  lemma AcquireExactly(m: Shared, t: Tid, q: Request)
    requires t != READER
    ensures var e := Acquire(m, t, q);
            e.next == if PoolOf(m, q.kind).available == 0 then None else Some(Calling(Permitted, q))
  {
  }

  lemma NobodyElseIsMoved(h: Threads, t: Tid, e: Effect, k: Kind)
    requires At(h, t, Checked)
    ensures var tasks' := Apply(h, t, e.next, e.op).tasks;
            PcOf(tasks', t) == e.next && Held(tasks', k) == Held(h.tasks, k) + One(HeldBy(e.next, k))
  {
    HeldAfter(h.tasks, t, e.next, k);
  }

  /** In every run, a caller that asks for a permit is turned away if and only if the permits in use
      are all there are; otherwise it goes on with one permit more in use. */
  lemma TurnedAwayExactly(max: Limits, states: seq<State>, actions: seq<Action>, i: nat, t: Tid)
    requires IsRun(max, states, actions) && i < |states| && At(states[i].threads, t, Checked)
    ensures Enabled(states[i], Advance(t))
    ensures var s, s', k := states[i], Step(states[i], Advance(t)), states[i].threads.tasks[t].req.kind;
            (t !in s'.threads.tasks <==> Used(s, k) == MaxOf(max, k)) &&
            (t in s'.threads.tasks ==>
               At(s'.threads, t, Permitted) && Held(s'.threads.tasks, k) == Held(s.threads.tasks, k) + 1 &&
               Used(s', k) == Used(s, k) + 1)
  {
    hide Held, Owned, EffectOf, PoolOf;
    var s, q := states[i], states[i].threads.tasks[t].req;
    var a, k := Advance(t), q.kind;
    RunOwned(max, states, actions);
    assert t != READER by { CallerIsNotReader(s, t); }
    PermitsAreConserved(max, states, actions, k);
    StepTotal(s, a, k);
    var e := EffectOf(s, a);
    assert e == Acquire(s.shared, t, q) by { CheckedAcquires(s, t); }
    AcquireExactly(s.shared, t, q);
    NobodyElseIsMoved(s.threads, t, e, k);
    AcquireTakesOne(s.shared, t, q);
  }

  lemma CallerIsNotReader(s: State, t: Tid)
    requires Owned(s) && t in s.threads.tasks && s.threads.tasks[t].Calling?
    ensures t != READER
  {
    hide Numbers, AllBacked, Answers;
  }

  lemma CheckedAcquires(s: State, t: Tid)
    requires At(s.threads, t, Checked)
    ensures Enabled(s, Advance(t)) && EffectOf(s, Advance(t)) == Acquire(s.shared, t, s.threads.tasks[t].req)
  {
  }

  lemma AcquireTakesOne(m: Shared, t: Tid, q: Request)
    ensures var m' := Acquire(m, t, q).shared;
            Pend(m', q.kind) == Pend(m, q.kind) && Active(m', q.kind) == Active(m, q.kind)
  {
  }

  // ---------------------------------------------------------------- from the call to its registration

  function SlotOf(slots: map<Tid, Slot>, t: Tid): Option<Slot> {
    if t in slots then Some(slots[t]) else None
  }

  /** Caller `t` is in the middle of its call, and the reader is free. */
  predicate Attended(s: State, t: Tid, phase: Phase, q: Request, m: Shared, slot: Option<Slot>) {
    t != READER && ReaderIdle(s.threads) && s.threads.lockHolder == None && s.shared == m &&
    t in s.threads.tasks && s.threads.tasks[t] == Calling(phase, q) && SlotOf(s.threads.slots, t) == slot
  }

  lemma CallBegins(s: State, k: Kind) returns (s': State)
    requires Shape(s.threads) && ReaderIdle(s.threads) && s.threads.lockHolder == None && !s.shared.closed
    ensures Leads(s, s') && Attended(s', s.threads.spawned, Checked, Request(k, 0, 0), s.shared, None)
  {
    hide Leads;
    LeadsNowhere(s);
    LeadsOn(s, s, Begin(s.threads.spawned, k));
    s' := Step(s, Begin(s.threads.spawned, k));
  }

  /** The caller takes its next step. */
  lemma CallerMoves(from: State, s: State, t: Tid, phase: Phase, q: Request, m: Shared, slot: Option<Slot>)
    returns (s': State)
    requires Leads(from, s) && Attended(s, t, phase, q, m, slot) && phase != Receiving
    requires var e := CallerStep(m, t, phase, q, Failure);
             e.next.Some? && e.next.value.Calling? && (e.op.Keep? || e.op.Open?)
    ensures Leads(from, s')
    ensures var e := CallerStep(m, t, phase, q, Failure);
            Attended(s', t, e.next.value.phase, e.next.value.req, e.shared, if e.op.Open? then Some(Waiting) else slot)
  {
    hide Leads, CallerStep;
    NoReplyNeeded(m, t, phase, q, ReplyOf(s.threads, t));
    LeadsOn(from, s, Advance(t));
    s' := Step(s, Advance(t));
  }

  lemma NoReplyNeeded(m: Shared, t: Tid, phase: Phase, q: Request, reply: Reply)
    requires phase != Receiving
    ensures CallerStep(m, t, phase, q, reply) == CallerStep(m, t, phase, q, Failure)
  {
  }

  /** With a free permit and ids left, the caller gets its ids. */
  lemma CallIsNumbered(from: State, s: State, t: Tid, k: Kind, m: Shared) returns (s': State, q: Request, m': Shared)
    requires Leads(from, s) && Attended(s, t, Checked, Request(k, 0, 0), m, None) && !m.closed
    requires PoolOf(m, k).available >= 1 && m.corr < U64_MAX && m.subIds < U64_MAX
    ensures Leads(from, s') && Attended(s', t, Numbered, q, m', None) && !m'.closed
    ensures q.kind == k && q.corr == m.corr + 1 && (k == Subscription ==> q.subId == m.subIds + 1)
  {
    hide Leads, Attended;
    var s1 := CallerMoves(from, s, t, Checked, Request(k, 0, 0), m, None);
    var m1 := Acquire(m, t, Request(k, 0, 0)).shared;
    q := Request(k, 0, 0);
    if k == Subscription {
      s1 := CallerMoves(from, s1, t, Permitted, q, m1, None);
      q := q.(subId := m1.subIds + 1);
      m1 := m1.(subIds := m1.subIds + 1);
    }
    s' := CallerMoves(from, s1, t, Permitted, q, m1, None);
    q := q.(corr := m1.corr + 1);
    m' := m1.(corr := m1.corr + 1);
  }

  /** A numbered caller registers and sends its request. */
  lemma CallIsSent(from: State, s: State, t: Tid, q: Request, m: Shared) returns (s': State, m': Shared)
    requires Leads(from, s) && Attended(s, t, Numbered, q, m, None) && !m.closed
    ensures Leads(from, s') && Attended(s', t, Receiving, q, m', Some(Waiting))
    ensures q.corr in Pend(m', q.kind) && Pend(m', q.kind)[q.corr] == Pending(t, q.subId)
  {
    hide Leads, Attended;
    var s1 := CallerMoves(from, s, t, Numbered, q, m, None);
    var m1 := Enlist(m, t, q).shared;
    var s2 := CallerMoves(from, s1, t, Registered, q, m1, Some(Waiting));
    m' := CountSubmitted(m1, q).shared;
    var s3 := CallerMoves(from, s2, t, Sending, q, m', Some(Waiting));
    s' := CallerMoves(from, s3, t, Outbound, q, m', Some(Waiting));
  }

  // ---------------------------------------------------------------- the answer

  /** The server's good answer to a request: a session gets the id and the fence that the server chose. */
  function GoodAnswer(q: Request, id: seq<Byte>, fence: nat): Action {
    match q.kind
    case Invocation => Response(q.corr, true)
    case Subscription => SubscriptionAck(q.corr, q.subId)
    case Session => SessionMessage(q.corr, id, fence)
  }

  /** What its caller then finds. */
  function GoodReply(q: Request, id: seq<Byte>): Reply {
    match q.kind
    case Invocation => Answer
    case Subscription => Ack(SubId(q.subId))
    case Session => Ack(SessId(id))
  }

  /** The reader is about to answer caller `t`, who listens. */
  predicate Handles(s: State, pc: Pc, t: Tid) {
    t != READER && InsideEnvelope(pc) && pc.owner == t &&
    READER in s.threads.tasks && s.threads.tasks[READER] == pc && SlotOf(s.threads.slots, t) == Some(Waiting)
  }

  lemma AnswerIsTakenUp(from: State, s: State, t: Tid, q: Request, m: Shared, id: seq<Byte>, fence: nat)
    returns (s': State, pc: Pc)
    requires Leads(from, s) && Attended(s, t, Receiving, q, m, Some(Waiting))
    requires q.corr in Pend(m, q.kind) && Pend(m, q.kind)[q.corr] == Pending(t, q.subId)
    requires (q.kind == Subscription ==> q.subId != 0) && id != [] && fence != 0
    ensures Leads(from, s') && Handles(s', pc, t)
    ensures if q.kind == Invocation then pc == Answering(t, true)
            else exists f :: pc == Taken(t, GoodReply(q, id).id, f, true)
  {
    hide Leads, TakeUp;
    var a := GoodAnswer(q, id, fence);
    LeadsOn(from, s, a);
    s' := Step(s, a);
    pc := s'.threads.tasks[READER];
    assert q.kind != Invocation ==> pc == Taken(t, GoodReply(q, id).id, if q.kind == Session then fence else 0, true);
  }

  /** The reader takes its next step. */
  lemma ReaderMoves(from: State, s: State, pc: Pc, t: Tid) returns (s': State)
    requires Leads(from, s) && Handles(s, pc, t)
    ensures Leads(from, s')
    ensures var e := ReaderStep(s.shared, pc, true);
            e.op.Keep? && e.next.Some? && InsideEnvelope(e.next.value) && e.next.value.owner == t ==> Handles(s', e.next.value, t)
    ensures var e := ReaderStep(s.shared, pc, true);
            e.op.Send? && e.op.owner == t ==> SlotOf(s'.threads.slots, t) == Some(Filled(e.op.reply))
  {
    hide Leads, ReaderStep;
    assert CanAdvance(s.threads, READER);
    LeadsOn(from, s, Advance(READER));
    s' := Step(s, Advance(READER));
  }

  lemma AnswerIsSent(from: State, s: State, pc: Pc, t: Tid, q: Request, id: seq<Byte>) returns (s': State)
    requires Leads(from, s) && Handles(s, pc, t)
    requires if q.kind == Invocation then pc == Answering(t, true)
             else exists f :: pc == Taken(t, GoodReply(q, id).id, f, true)
    ensures Leads(from, s') && SlotOf(s'.threads.slots, t) == Some(Filled(GoodReply(q, id)))
  {
    hide Leads, Handles, PoolOf, WithPool, Unhold;
    var s1 := ReaderMoves(from, s, pc, t);
    var next := ReaderStep(s.shared, pc, true).next.value;
    s' := ReaderMoves(from, s1, next, t);
  }

  /** In every run, from every state of an open client with an idle reader, ids left and a permit that
      is not in use, a call of any kind can go all the way to the server's good answer. */
  lemma CallCanBeServed(max: Limits, states: seq<State>, actions: seq<Action>, i: nat, k: Kind, id: seq<Byte>, fence: nat)
    returns (s': State, q: Request)
    requires IsRun(max, states, actions) && i < |states| && id != [] && fence != 0
    requires var s := states[i];
             ReaderIdle(s.threads) && !s.shared.closed && s.shared.corr < U64_MAX && s.shared.subIds < U64_MAX &&
             Used(s, k) < MaxOf(max, k)
    ensures Leads(states[i], s') && q.kind == k
    ensures SlotOf(s'.threads.slots, states[i].threads.spawned) == Some(Filled(GoodReply(q, id)))
  {
    hide Leads, Attended, Handles, Held, PoolOf, Used, Owned, GoodReply;
    var s, t := states[i], states[i].threads.spawned;
    FreePermit(max, states, actions, i, k);
    var s1 := CallBegins(s, k);
    var s2, q2, m2 := CallIsNumbered(s, s1, t, k, s.shared);
    q := q2;
    var s3, m3 := CallIsSent(s, s2, t, q, m2);
    var s4, pc := AnswerIsTakenUp(s, s3, t, q, m3, id, fence);
    s' := AnswerIsSent(s, s4, pc, t, q, id);
  }

  lemma FreePermit(max: Limits, states: seq<State>, actions: seq<Action>, i: nat, k: Kind)
    requires IsRun(max, states, actions) && i < |states| && ReaderIdle(states[i].threads)
    requires Used(states[i], k) < MaxOf(max, k)
    ensures PoolOf(states[i].shared, k).available >= 1
    ensures Shape(states[i].threads) && states[i].threads.lockHolder == None
  {
    hide Held, Numbers, AllBacked, Answers;
    RunOwned(max, states, actions);
    RunLockFits(max, states, actions);
    PermitsAreConserved(max, states, actions, k);
  }
}
