/** Runs built step by step, for showing that a situation can arise. */
module ClientScenario {
  import opened Words
  import opened ClientRuntime

  /** A run from a fresh client to state `s`. */
  ghost predicate Reachable(max: Limits, s: State) {
    exists states: seq<State>, actions: seq<Action> :: IsRun(max, states, actions) && states[|states| - 1] == s
  }

  lemma StartIsReachable(max: Limits)
    ensures Reachable(max, Init(max))
  {
    var states: seq<State>, actions: seq<Action> := [Init(max)], [];
    assert IsRun(max, states, actions);
  }

  lemma StepIsReachable(max: Limits, s: State, a: Action)
    requires Reachable(max, s) && Enabled(s, a)
    ensures Reachable(max, Step(s, a))
  {
    hide Step, Enabled, Init;
    var states: seq<State>, actions: seq<Action> :| IsRun(max, states, actions) && states[|states| - 1] == s;
    var longer, more := states + [Step(s, a)], actions + [a];
    assert IsRun(max, longer, more);
  }

  /** Nothing in flight but the idle reader; `t` is the next task. */
  predicate Resting(s: State, m: Shared, t: Tid, orphans: set<Id>) {
    t > READER && s.shared == m && s.threads == Threads(map[READER := Idle], map[], t, None, orphans)
  }

  /** The reader and one caller, task `t`. */
  predicate Pair(s: State, m: Shared, reader: Pc, t: Tid, pc: Pc, slots: map<Tid, Slot>, lock: Option<Tid>, orphans: set<Id>) {
    t > READER && s.shared == m && s.threads == Threads(map[READER := reader, t := pc], slots, t + 1, lock, orphans)
  }

  // ---------------------------------------------------------------- a call

  lemma CallBegins(max: Limits, s: State, m: Shared, t: Tid, orphans: set<Id>, k: Kind) returns (s': State)
    requires Reachable(max, s) && Resting(s, m, t, orphans) && !m.closed
    ensures Reachable(max, s') && Pair(s', m, Idle, t, Calling(Checked, Request(k, 0, 0)), map[], None, orphans)
  {
    hide Reachable;
    s' := Step(s, Begin(t, k));
    assert s'.threads.tasks == map[READER := Idle, t := Calling(Checked, Request(k, 0, 0))];
    StepIsReachable(max, s, Begin(t, k));
  }

  /** The caller takes its next step. */
  lemma CallerAdvances(max: Limits, s: State, m: Shared, t: Tid, phase: Phase, q: Request, slots: map<Tid, Slot>, orphans: set<Id>)
    returns (s': State)
    requires Reachable(max, s) && Pair(s, m, Idle, t, Calling(phase, q), slots, None, orphans) && phase != Receiving
    requires var e := CallerStep(m, t, phase, q, Failure); e.next.Some? && (e.op.Keep? || e.op.Open?)
    ensures Reachable(max, s')
    ensures var e := CallerStep(m, t, phase, q, Failure);
            Pair(s', e.shared, Idle, t, e.next.value, if e.op.Open? then slots[t := Waiting] else slots, None, orphans)
  {
    hide CallerStep, Reachable;
    ReplyIsUnused(m, t, phase, q, ReplyOf(s.threads, t));
    var e := CallerStep(m, t, phase, q, Failure);
    assert CanAdvance(s.threads, t);
    s' := Step(s, Advance(t));
    assert s'.threads.tasks == map[READER := Idle, t := e.next.value];
    StepIsReachable(max, s, Advance(t));
  }

  lemma ReplyIsUnused(m: Shared, t: Tid, phase: Phase, q: Request, reply: Reply)
    requires phase != Receiving
    ensures CallerStep(m, t, phase, q, reply) == CallerStep(m, t, phase, q, Failure)
  {
  }

  /** What a scenario keeps track of: the rest of the shared state stays. */
  predicate Same(m: Shared, m': Shared) {
    m'.closed == m.closed && m'.handles == m.handles && m'.log == m.log
  }

  lemma CallGetsPermit(max: Limits, s: State, m: Shared, t: Tid, orphans: set<Id>, k: Kind) returns (s': State, m': Shared)
    requires Reachable(max, s) && Resting(s, m, t, orphans) && !m.closed && PoolOf(m, k).available >= 1
    ensures Reachable(max, s') && Pair(s', m', Idle, t, Calling(Permitted, Request(k, 0, 0)), map[], None, orphans)
    ensures Same(m, m') && m'.corr == m.corr && m'.subIds == m.subIds
    ensures Pend(m', k) == Pend(m, k) && Active(m', k) == Active(m, k) && PoolOf(m', k).available == PoolOf(m, k).available - 1
  {
    hide Reachable;
    var s1 := CallBegins(max, s, m, t, orphans, k);
    m' := Acquire(m, t, Request(k, 0, 0)).shared;
    s' := CallerAdvances(max, s1, m, t, Checked, Request(k, 0, 0), map[], orphans);
  }

  /** A subscription draws its id. */
  lemma SubIdIsDrawn(max: Limits, s: State, m: Shared, t: Tid, orphans: set<Id>) returns (s': State)
    requires Reachable(max, s) && Pair(s, m, Idle, t, Calling(Permitted, Request(Subscription, 0, 0)), map[], None, orphans)
    requires m.subIds < U64_MAX
    ensures Reachable(max, s')
    ensures var n := m.subIds + 1;
            Pair(s', m.(subIds := n), Idle, t, Calling(Permitted, Request(Subscription, 0, n)), map[], None, orphans)
  {
    hide Reachable;
    s' := CallerAdvances(max, s, m, t, Permitted, Request(Subscription, 0, 0), map[], orphans);
  }

  lemma CallRegisters(max: Limits, s: State, m: Shared, t: Tid, orphans: set<Id>, q: Request) returns (s': State, m': Shared)
    requires Reachable(max, s) && Pair(s, m, Idle, t, Calling(Permitted, q), map[], None, orphans)
    requires m.corr < U64_MAX && (q.kind == Subscription ==> q.subId != 0)
    ensures Reachable(max, s')
    ensures Pair(s', m', Idle, t, Calling(Registered, q.(corr := m.corr + 1)), map[t := Waiting], None, orphans)
    ensures Same(m, m') && m'.corr == m.corr + 1 && m'.subIds == m.subIds
    ensures Pend(m', q.kind) == Pend(m, q.kind)[m.corr + 1 := Pending(t, q.subId)] && Active(m', q.kind) == Active(m, q.kind)
    ensures PoolOf(m', q.kind).available == PoolOf(m, q.kind).available
  {
    hide Reachable;
    var q', m1 := q.(corr := m.corr + 1), m.(corr := m.corr + 1);
    var s1 := CallerAdvances(max, s, m, t, Permitted, q, map[], orphans);
    s' := CallerAdvances(max, s1, m1, t, Numbered, q', map[], orphans);
    m' := Enlist(m1, t, q').shared;
  }

  lemma CallReceives(max: Limits, s: State, m: Shared, t: Tid, orphans: set<Id>, q: Request) returns (s': State, m': Shared)
    requires Reachable(max, s) && Pair(s, m, Idle, t, Calling(Registered, q), map[t := Waiting], None, orphans) && !m.closed
    ensures Reachable(max, s') && Pair(s', m', Idle, t, Calling(Receiving, q), map[t := Waiting], None, orphans)
    ensures Same(m, m') && m'.corr == m.corr && m'.subIds == m.subIds && m'.pools == m.pools
  {
    hide Reachable;
    var s1 := CallerAdvances(max, s, m, t, Registered, q, map[t := Waiting], orphans);
    m' := CountSubmitted(m, q).shared;
    var s2 := CallerAdvances(max, s1, m', t, Sending, q, map[t := Waiting], orphans);
    s' := CallerAdvances(max, s2, m', t, Outbound, q, map[t := Waiting], orphans);
  }

  // ---------------------------------------------------------------- an acknowledgement

  function AckMessage(corr: nat, id: Id): Action {
    if id.SubId? then SubscriptionAck(corr, id.number) else SessionMessage(corr, id.bytes, 1)
  }

  /** The id fits the request. */
  predicate Fits(q: Request, id: Id) {
    q.kind == KindOf(id) && if id.SubId? then id.number == q.subId > 0 else id.bytes != []
  }

  function FenceOf(id: Id): nat {
    if id.SubId? then 0 else 1
  }

  function LockFor(id: Id): Option<Tid> {
    if id.SubId? then None else Some(READER)
  }

  lemma AckIsTaken(max: Limits, s: State, m: Shared, t: Tid, pc: Pc, slots: map<Tid, Slot>, orphans: set<Id>, q: Request, id: Id)
    returns (s': State, m': Shared)
    requires Reachable(max, s) && Pair(s, m, Idle, t, pc, slots, None, orphans) && Fits(q, id)
    requires q.corr in Pend(m, q.kind) && Pend(m, q.kind)[q.corr] == Pending(t, q.subId)
    ensures Reachable(max, s')
    ensures Pair(s', m', Taken(t, id, FenceOf(id), true), t, pc, slots, LockFor(id), orphans)
    ensures m' == TakeUp(m, q.kind, q.corr, Ack(id))
  {
    hide Reachable, TakeUp;
    var a := AckMessage(q.corr, id);
    s' := Step(s, a);
    m' := s'.shared;
    assert s'.threads.tasks == map[READER := Taken(t, id, FenceOf(id), true), t := pc];
    StepIsReachable(max, s, a);
  }

  lemma AckIsAccepted(max: Limits, s: State, m: Shared, t: Tid, pc: Pc, slots: map<Tid, Slot>, orphans: set<Id>, id: Id)
    returns (s': State, m': Shared)
    requires Reachable(max, s) && Pair(s, m, Taken(t, id, FenceOf(id), true), t, pc, slots, LockFor(id), orphans)
    ensures Reachable(max, s')
    ensures Pair(s', m', Activated(t, id), t, pc, slots, LockFor(id), orphans)
    ensures m' == WithPool(m, KindOf(id), Activate(PoolOf(m, KindOf(id)), id, FenceOf(id)))
  {
    hide Reachable, PoolOf, WithPool;
    s' := Step(s, Advance(READER));
    m' := s'.shared;
    assert s'.threads.tasks == map[READER := Activated(t, id), t := pc];
    StepIsReachable(max, s, Advance(READER));
  }

  lemma AckIsSent(max: Limits, s: State, m: Shared, t: Tid, pc: Pc, orphans: set<Id>, id: Id) returns (s': State)
    requires Reachable(max, s) && Pair(s, m, Activated(t, id), t, pc, map[t := Waiting], LockFor(id), orphans)
    ensures Reachable(max, s') && Pair(s', m, Idle, t, pc, map[t := Filled(Ack(id))], None, orphans)
  {
    hide Reachable, PoolOf, WithPool;
    s' := Step(s, Advance(READER));
    assert s'.threads.tasks == map[READER := Idle, t := pc];
    assert s'.threads.slots == map[t := Filled(Ack(id))];
    StepIsReachable(max, s, Advance(READER));
  }

  /** The caller gives up without reading the acknowledgement, and its guard finds nothing. */
  lemma AckIsDropped(max: Limits, s: State, m: Shared, t: Tid, orphans: set<Id>, q: Request, id: Id) returns (s': State)
    requires Reachable(max, s) && Pair(s, m, Idle, t, Calling(Receiving, q), map[t := Filled(Ack(id))], None, orphans)
    requires q.corr !in Pend(m, q.kind)
    ensures Reachable(max, s') && Resting(s', m, t + 1, orphans + {id})
  {
    hide Reachable, Pend;
    var s1 := Step(s, GiveUp(t));
    assert s1.threads.tasks == map[READER := Idle, t := Calling(Cancelling, q)];
    assert s1.threads.slots == map[];
    StepIsReachable(max, s, GiveUp(t));
    s' := Step(s1, Advance(t));
    assert s'.threads.tasks == map[READER := Idle];
    assert s'.threads.slots == map[];
    StepIsReachable(max, s1, Advance(t));
  }

  /** The caller reads the acknowledgement and gets its handle. */
  lemma AckIsRead(max: Limits, s: State, m: Shared, t: Tid, orphans: set<Id>, q: Request, id: Id) returns (s': State, m': Shared)
    requires Reachable(max, s) && Pair(s, m, Idle, t, Calling(Receiving, q), map[t := Filled(Ack(id))], None, orphans)
    ensures Reachable(max, s') && Resting(s', m', t + 1, orphans)
    ensures m' == TakeReply(m, q, Ack(id)).shared
  {
    hide Reachable, Pend;
    s' := Step(s, Advance(t));
    m' := s'.shared;
    assert s'.threads.tasks == map[READER := Idle];
    assert s'.threads.slots == map[];
    StepIsReachable(max, s, Advance(t));
  }

  /** From rest to an acknowledgement that waits to be read. */
  lemma AckArrives(max: Limits, s: State, m: Shared, t: Tid, orphans: set<Id>, id: Id) returns (s': State, m': Shared, q: Request)
    requires Reachable(max, s) && Resting(s, m, t, orphans) && !m.closed && PoolOf(m, KindOf(id)).available >= 1
    requires m.corr < U64_MAX && m.subIds < U64_MAX
    requires if id.SubId? then id.number == m.subIds + 1 else id.bytes != []
    ensures Reachable(max, s') && Pair(s', m', Idle, t, Calling(Receiving, q), map[t := Filled(Ack(id))], None, orphans)
    ensures q.kind == KindOf(id) && q.corr == m.corr + 1 == m'.corr && q.corr !in Pend(m', q.kind)
    ensures id in Active(m', KindOf(id)) && !m'.closed && m'.handles == m.handles && m'.subIds <= m.subIds + 1
    ensures PoolOf(m', KindOf(id)).available >= PoolOf(m, KindOf(id)).available - 1
    ensures m'.log.notes.acks == m.log.notes.acks + multiset{id}
  {
    hide Reachable, PoolOf, WithPool, Resting, Pair, CallerStep;
    var k := KindOf(id);
    var s1, m1 := CallGetsPermit(max, s, m, t, orphans, k);
    q := Request(k, 0, 0);
    if id.SubId? {
      s1 := SubIdIsDrawn(max, s1, m1, t, orphans);
      PoolsOnly(m1, m1.(subIds := m1.subIds + 1), k);
      m1 := m1.(subIds := m1.subIds + 1);
      q := Request(k, 0, id.number);
    }
    var s2, m2 := CallRegisters(max, s1, m1, t, orphans, q);
    q := q.(corr := m.corr + 1);
    var s3, m3 := CallReceives(max, s2, m2, t, orphans, q);
    PoolsOnly(m2, m3, k);
    var s4, m4 := AckIsTaken(max, s3, m3, t, Calling(Receiving, q), map[t := Waiting], orphans, q, id);
    var s5, m5 := AckIsAccepted(max, s4, m4, t, Calling(Receiving, q), map[t := Waiting], orphans, id);
    AckChanges(m3, q, id);
    s' := AckIsSent(max, s5, m5, t, Calling(Receiving, q), orphans, id);
    m' := m5;
  }

  lemma PoolsOnly(m: Shared, m': Shared, k: Kind)
    requires m'.pools == m.pools
    ensures PoolOf(m', k) == PoolOf(m, k)
  {
  }

  /** What an accepted acknowledgement changes. */
  lemma AckChanges(m: Shared, q: Request, id: Id)
    requires q.kind == KindOf(id)
    ensures var m4 := TakeUp(m, q.kind, q.corr, Ack(id));
            var m5 := WithPool(m4, KindOf(id), Activate(PoolOf(m4, KindOf(id)), id, FenceOf(id)));
            q.corr !in Pend(m5, q.kind) && id in Active(m5, KindOf(id)) && m5.closed == m.closed && m5.handles == m.handles &&
            m5.corr == m.corr && m5.subIds == m.subIds && PoolOf(m5, q.kind).available >= PoolOf(m, q.kind).available &&
            m5.log.notes.acks == m.log.notes.acks + multiset{id}
  {
  }

  lemma StartIsResting(max: Limits)
    ensures Reachable(max, Init(max)) && Resting(Init(max), Init(max).shared, 1, {})
    ensures forall k :: PoolOf(Init(max).shared, k) == FullPool(MaxOf(max, k))
  {
    StartIsReachable(max);
  }
}
