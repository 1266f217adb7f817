/** Who owns what: every pending entry belongs to one caller in flight that carries the same
    correlation id, no two callers ever carry the same one, and a caller is answered only after
    its entry is gone. */
module ClientOwnership {
  import opened Words
  import opened ClientRuntime

  function PcOf(tasks: map<Tid, Pc>, t: Tid): Option<Pc> {
    if t in tasks then Some(tasks[t]) else None
  }

  /** The caller has drawn its correlation id. */
  predicate Drawn(pc: Pc) {
    pc.Calling? && pc.phase != Checked && pc.phase != Permitted
  }

  /** The caller has registered its request. */
  predicate Listed(pc: Pc) {
    Drawn(pc) && pc.phase != Numbered
  }

  /** Steps that neither take up an envelope nor advance a task leave the pools alone. */
  lemma LocalKeepsPools(s: State, a: Action)
    requires Enabled(s, a) && !FromServer(a) && !a.Advance?
    ensures EffectOf(s, a).shared.pools == s.shared.pools
  {
    hide TaskStep, FromServerEffect, PoolOf, WithPool, Pend, Active;
  }

  // ---------------------------------------------------------------- shape

  /** Which program counters the reader and the other tasks can have. */
  predicate InPlace(t: Tid, pc: Pc) {
    if t == READER then !pc.Calling?
    else !pc.Idle? && !InsideEnvelope(pc) && (pc.Term? ==> pc.holding == None)
  }

  predicate Early(pc: Pc) {
    pc.Calling? && !Listed(pc)
  }

  ghost predicate Shape(h: Threads) {
    READER in h.tasks &&
    READER < h.spawned &&
    (h.lockHolder == None || h.lockHolder == Some(READER)) &&
    (forall t | t in h.tasks :: t < h.spawned && InPlace(t, h.tasks[t])) &&
    (forall t | t in h.slots :: t in h.tasks && t != READER && !Early(h.tasks[t]))
  }

  /** A task that ends drops its slot, only callers open one, and callers do not go back. */
  predicate Tidy(t: Tid, pc: Option<Pc>, e: Effect) {
    (pc.Some? && !Early(pc.value) && e.next.Some? ==> !Early(e.next.value)) &&
    (e.next.Some? ==> InPlace(t, e.next.value)) &&
    (e.next.None? ==> t != READER && (e.op.Read? || e.op.Drop?)) &&
    (e.op.Open? ==> t != READER && e.next.Some? && !Early(e.next.value))
  }

  lemma TaskIsTidy(m: Shared, t: Tid, pc: Pc, reply: Reply, alive: bool)
    requires !pc.ControlSend? && !pc.Idle? && InPlace(t, pc)
    ensures Tidy(t, Some(pc), TaskStep(m, t, pc, reply, alive))
  {
    hide WithPool, PoolOf, Unhold, Forget;
  }

  lemma StepIsTidy(s: State, a: Action)
    requires Enabled(s, a) && Shape(s.threads)
    ensures Tidy(Actor(a), PcOf(s.threads.tasks, Actor(a)), EffectOf(s, a))
  {
    hide WithPool, PoolOf, TaskStep;
    if a.Advance? {
      var pc := s.threads.tasks[a.t];
      TaskIsTidy(s.shared, a.t, pc, ReplyOf(s.threads, a.t), Alive(s.threads, pc));
    }
  }

  lemma ShapeKept(h: Threads, t: Tid, e: Effect)
    requires Shape(h) && t <= h.spawned && Tidy(t, PcOf(h.tasks, t), e)
    ensures Shape(Apply(h, t, e.next, e.op))
  {
    hide InPlace;
  }

  // ---------------------------------------------------------------- correlation ids

  predicate InRange(pc: Pc, n: nat) {
    Drawn(pc) ==> 1 <= pc.req.corr <= n
  }

  predicate Apart(a: Pc, b: Pc) {
    Drawn(a) && Drawn(b) ==> a.req.corr != b.req.corr
  }

  /** Correlation ids in flight are positive words, already drawn, and pairwise different. */
  ghost predicate Numbers(tasks: map<Tid, Pc>, n: nat) {
    n <= U64_MAX &&
    (forall t | t in tasks :: InRange(tasks[t], n)) &&
    (forall t, u | t in tasks && u in tasks && t != u :: Apart(tasks[t], tasks[u]))
  }

  /** A caller keeps its request, or draws the next correlation id. */
  predicate Draws(pc: Option<Pc>, next: Option<Pc>, n: nat, n': nat) {
    n <= n' &&
    (n <= U64_MAX ==> n' <= U64_MAX) &&
    (next.Some? && Drawn(next.value) ==>
       (pc.Some? && Drawn(pc.value) && next.value.req == pc.value.req) ||
       (next.value.req.corr == n + 1 == n' && !Listed(next.value)))
  }

  lemma CallerDraws(m: Shared, t: Tid, phase: Phase, q: Request, reply: Reply)
    ensures var e := CallerStep(m, t, phase, q, reply); Draws(Some(Calling(phase, q)), e.next, m.corr, e.shared.corr)
  {
    hide PoolOf, Pend, Take, Release, Register;
  }

  lemma TaskDraws(m: Shared, t: Tid, pc: Pc, reply: Reply, alive: bool)
    requires !pc.ControlSend? && !pc.Idle?
    ensures var e := TaskStep(m, t, pc, reply, alive); Draws(Some(pc), e.next, m.corr, e.shared.corr)
  {
    hide PoolOf, Pend, CallerStep;
    hide TakeAll, DeactivateAll, Deactivate, Activate, Release;
    if pc.Calling? {
      CallerDraws(m, t, pc.phase, pc.req, reply);
    }
  }

  lemma StepDraws(s: State, a: Action)
    requires Enabled(s, a)
    ensures var e := EffectOf(s, a); Draws(PcOf(s.threads.tasks, Actor(a)), e.next, s.shared.corr, e.shared.corr)
  {
    hide PoolOf, TaskStep;
    if a.Advance? {
      var pc := s.threads.tasks[a.t];
      TaskDraws(s.shared, a.t, pc, ReplyOf(s.threads, a.t), Alive(s.threads, pc));
    }
  }

  lemma NumbersKept(tasks: map<Tid, Pc>, t: Tid, next: Option<Pc>, n: nat, n': nat)
    requires Numbers(tasks, n) && Draws(PcOf(tasks, t), next, n, n')
    ensures Numbers(Moved(tasks, t, next), n')
  {
  }

  // ---------------------------------------------------------------- pending entries

  /** Task `t` is the caller behind entry `c` of kind `k`. */
  predicate Behind(tasks: map<Tid, Pc>, k: Kind, c: nat, entry: Pending) {
    entry.owner in tasks && Listed(tasks[entry.owner]) && tasks[entry.owner].req == Request(k, c, entry.subId)
  }

  ghost predicate Backed(pend: map<nat, Pending>, tasks: map<Tid, Pc>, k: Kind) {
    forall c | c in pend :: Behind(tasks, k, c, pend[c])
  }

  ghost predicate Shrinks(pend: map<nat, Pending>, pend': map<nat, Pending>) {
    forall c | c in pend' :: c in pend && pend'[c] == pend[c]
  }

  /** A pending map only shrinks, unless the actor registers in it. */
  ghost predicate Changes(m: Shared, m': Shared, t: Tid, pc: Option<Pc>, k: Kind) {
    Shrinks(Pend(m, k), Pend(m', k)) ||
    (pc.Some? && pc.value.Calling? && pc.value.phase == Numbered && pc.value.req.kind == k &&
     Pend(m', k) == Pend(m, k)[pc.value.req.corr := Pending(t, pc.value.req.subId)])
  }

  lemma CallerChanges(m: Shared, t: Tid, phase: Phase, q: Request, reply: Reply, k: Kind)
    ensures Changes(m, CallerStep(m, t, phase, q, reply).shared, t, Some(Calling(phase, q)), k)
  {
    hide Unhold;
    UnholdKeeps(m, Some(q.kind), k);
  }

  lemma UnholdKeeps(m: Shared, holding: Option<Kind>, k: Kind)
    ensures Pend(Unhold(m, holding), k) == Pend(m, k) && Active(Unhold(m, holding), k) == Active(m, k)
  {
  }

  lemma ForgetKeeps(m: Shared, stage: nat, k: Kind)
    ensures Pend(Forget(m, stage), k) == Pend(m, k)
    ensures Active(Forget(m, stage), k) == if k == DrainedKind(stage) then map[] else Active(m, k)
  {
  }

  lemma TerminateChanges(m: Shared, t: Tid, stage: nat, holding: Option<Kind>, k: Kind)
    ensures Shrinks(Pend(m, k), Pend(Terminate(m, t, stage, holding).shared, k))
  {
    hide Unhold, Forget;
    UnholdKeeps(m, holding, k);
    UnholdKeeps(Forget(m, 5), holding, k);
    ForgetKeeps(m, 4, k);
    ForgetKeeps(m, 5, k);
  }

  lemma TaskChanges(m: Shared, t: Tid, pc: Pc, reply: Reply, alive: bool, k: Kind)
    requires !pc.ControlSend? && !pc.Idle?
    ensures Changes(m, TaskStep(m, t, pc, reply, alive).shared, t, Some(pc), k)
  {
    hide CallerStep, Terminate;
    if pc.Calling? {
      CallerChanges(m, t, pc.phase, pc.req, reply, k);
    } else if pc.Term? {
      TerminateChanges(m, t, pc.stage, pc.holding, k);
    }
  }

  lemma StepChanges(s: State, a: Action, k: Kind)
    requires Enabled(s, a)
    ensures Changes(s.shared, EffectOf(s, a).shared, Actor(a), PcOf(s.threads.tasks, Actor(a)), k)
  {
    hide TaskStep;
    if a.Advance? {
      var pc := s.threads.tasks[a.t];
      TaskChanges(s.shared, a.t, pc, ReplyOf(s.threads, a.t), Alive(s.threads, pc), k);
    }
  }

  /** A registered caller carries its request on until its entry is gone. */
  predicate Carries(m': Shared, pc: Option<Pc>, next: Option<Pc>) {
    pc.Some? && Drawn(pc.value) ==>
      var q := pc.value.req;
      (next.Some? && Listed(next.value) && next.value.req == q) ||
      (Listed(pc.value) && q.corr !in Pend(m', q.kind))
  }

  lemma CallerCarries(m: Shared, t: Tid, phase: Phase, q: Request, reply: Reply)
    requires phase == Receiving ==> q.corr !in Pend(m, q.kind)
    ensures var e := CallerStep(m, t, phase, q, reply); Carries(e.shared, Some(Calling(phase, q)), e.next)
  {
  }

  lemma StepCarries(s: State, a: Action)
    requires Enabled(s, a) && Shape(s.threads)
    requires a.Advance? && At(s.threads, a.t, Receiving) ==>
               var q := s.threads.tasks[a.t].req; q.corr !in Pend(s.shared, q.kind)
    ensures var e := EffectOf(s, a); Carries(e.shared, PcOf(s.threads.tasks, Actor(a)), e.next)
  {
    hide CallerStep, PoolOf, WithPool, ReaderStep, Terminate, Close, DrawControl;
    if a.Advance? && s.threads.tasks[a.t].Calling? {
      var pc := s.threads.tasks[a.t];
      CallerCarries(s.shared, a.t, pc.phase, pc.req, ReplyOf(s.threads, a.t));
    }
  }

  lemma BackedKept(m: Shared, m': Shared, tasks: map<Tid, Pc>, t: Tid, next: Option<Pc>, k: Kind)
    requires Backed(Pend(m, k), tasks, k)
    requires Changes(m, m', t, PcOf(tasks, t), k) && Carries(m', PcOf(tasks, t), next)
    ensures Backed(Pend(m', k), Moved(tasks, t, next), k)
  {
    hide Pend;
  }

  /** A caller's own entry is the only one with its correlation id. */
  lemma OwnEntry(m: Shared, tasks: map<Tid, Pc>, t: Tid, k: Kind, c: nat)
    requires Numbers(tasks, m.corr) && Backed(Pend(m, k), tasks, k)
    requires t in tasks && Drawn(tasks[t]) && c == tasks[t].req.corr && c in Pend(m, k)
    ensures Pend(m, k)[c].owner == t && Listed(tasks[t]) && tasks[t].req.kind == k
  {
    hide Pend;
    var u := Pend(m, k)[c].owner;
    assert Behind(tasks, k, c, Pend(m, k)[c]);
    assert t != u ==> Apart(tasks[t], tasks[u]);
  }

  // ---------------------------------------------------------------- active entries

  /** An entry becomes active only when the reader accepts its acknowledgement. */
  ghost predicate Activates(m: Shared, m': Shared, pc: Option<Pc>, k: Kind) {
    forall id | id in Active(m', k) ::
      id in Active(m, k) || (pc.Some? && pc.value.Taken? && pc.value.ack == id && KindOf(id) == k)
  }

  lemma CallerActivates(m: Shared, t: Tid, phase: Phase, q: Request, reply: Reply, k: Kind)
    ensures Active(CallerStep(m, t, phase, q, reply).shared, k) == Active(m, k)
  {
    hide Unhold, Pend;
    UnholdKeeps(m, Some(q.kind), k);
  }

  lemma TerminateActivates(m: Shared, t: Tid, stage: nat, holding: Option<Kind>, k: Kind)
    ensures Activates(m, Terminate(m, t, stage, holding).shared, None, k)
  {
    hide Unhold, Forget, Pend;
    ForgetKeeps(m, 4, k);
    ForgetKeeps(m, 5, k);
    UnholdKeeps(m, holding, k);
    UnholdKeeps(Forget(m, 5), holding, k);
  }

  lemma TaskActivates(m: Shared, t: Tid, pc: Pc, reply: Reply, alive: bool, k: Kind)
    requires !pc.ControlSend? && !pc.Idle?
    ensures Activates(m, TaskStep(m, t, pc, reply, alive).shared, Some(pc), k)
  {
    hide CallerStep, Terminate;
    if pc.Calling? {
      CallerActivates(m, t, pc.phase, pc.req, reply, k);
    } else if pc.Term? {
      TerminateActivates(m, t, pc.stage, pc.holding, k);
    }
  }

  lemma StepActivates(s: State, a: Action, k: Kind)
    requires Enabled(s, a)
    ensures Activates(s.shared, EffectOf(s, a).shared, PcOf(s.threads.tasks, Actor(a)), k)
  {
    hide TaskStep;
    if a.Advance? {
      var pc := s.threads.tasks[a.t];
      TaskActivates(s.shared, a.t, pc, ReplyOf(s.threads, a.t), Alive(s.threads, pc), k);
    }
  }

  // ---------------------------------------------------------------- answers

  /** The task whose reply the reader is about to send. */
  predicate Due(h: Threads, t: Tid) {
    READER in h.tasks && InsideEnvelope(h.tasks[READER]) && h.tasks[READER].owner == t
  }

  predicate Replied(h: Threads, t: Tid) {
    t in h.slots && h.slots[t].Filled?
  }

  ghost predicate Unowned(pend: map<nat, Pending>, t: Tid) {
    forall c | c in pend :: pend[c].owner != t
  }

  /** A caller is answered after its entry is gone, and once. */
  ghost predicate Answers(m: Shared, h: Threads) {
    (forall t, k | Replied(h, t) || Due(h, t) :: Unowned(Pend(m, k), t)) &&
    (forall t | Due(h, t) :: Past(h, t) && !Replied(h, t))
  }

  /** The task has existed and, if it is still a caller, has registered. */
  predicate Past(h: Threads, t: Tid) {
    t < h.spawned && t != READER && (t in h.tasks ==> !Early(h.tasks[t]))
  }

  /** The owner of an entry that the step took out of a pending map. */
  ghost predicate TakenFrom(m: Shared, m': Shared, owner: Tid) {
    exists k, c :: c in Pend(m, k) && c !in Pend(m', k) && Pend(m, k)[c].owner == owner
  }

  /** Replies go to the caller the reader is dealing with or to the callers of a drained map. */
  ghost predicate Addressed(m: Shared, t: Tid, pc: Option<Pc>, e: Effect) {
    (pc.Some? && pc.value.Calling? && pc.value.phase == Numbered <==> e.op.Open?) &&
    (e.op.Send? ==>
       t == READER && pc.Some? && InsideEnvelope(pc.value) && e.op.owner == pc.value.owner &&
       e.next.Some? && !InsideEnvelope(e.next.value)) &&
    (e.op.FailAll? ==>
       pc.Some? && pc.value.Term? && e.next.Some? && e.next.value.Term? &&
       exists k :: e.op.drained == Pend(m, k) && Pend(e.shared, k) == map[]) &&
    (e.next.Some? && InsideEnvelope(e.next.value) ==>
       t == READER && e.op.Keep? &&
       ((pc.Some? && InsideEnvelope(pc.value) && pc.value.owner == e.next.value.owner) ||
        TakenFrom(m, e.shared, e.next.value.owner)))
  }

  lemma CallerAddressed(m: Shared, t: Tid, phase: Phase, q: Request, reply: Reply)
    requires t != READER
    ensures Addressed(m, t, Some(Calling(phase, q)), CallerStep(m, t, phase, q, reply))
  {
    hide PoolOf, WithPool;
  }

  lemma DrainAddressed(m: Shared, t: Tid, stage: nat, holding: Option<Kind>)
    ensures Addressed(m, t, Some(Term(stage, holding)), Drain(m, stage, holding))
  {
    var k := DrainedKind(stage);
    assert Pend(Drain(m, stage, holding).shared, k) == map[];
  }

  lemma TaskAddressed(m: Shared, t: Tid, pc: Pc, reply: Reply, alive: bool)
    requires !pc.ControlSend? && !pc.Idle? && InPlace(t, pc)
    ensures Addressed(m, t, Some(pc), TaskStep(m, t, pc, reply, alive))
  {
    hide PoolOf, WithPool, CallerStep, Drain;
    if pc.Calling? {
      CallerAddressed(m, t, pc.phase, pc.req, reply);
    } else if pc.Term? {
      DrainAddressed(m, t, pc.stage, pc.holding);
    }
  }

  lemma ServerAddressed(m: Shared, a: Action)
    requires FromServer(a)
    ensures Addressed(m, READER, Some(Idle), FromServerEffect(m, a))
  {
    var m' := FromServerEffect(m, a).shared;
    match a
    case Response(corr, _) => assert corr !in Pend(m', Invocation);
    case SubscriptionAck(corr, _) => assert corr !in Pend(m', Subscription);
    case SessionMessage(corr, _, _) => assert corr !in Pend(m', Session);
    case _ =>
  }

  lemma StepAddressed(s: State, a: Action)
    requires Enabled(s, a) && Shape(s.threads)
    ensures Addressed(s.shared, Actor(a), PcOf(s.threads.tasks, Actor(a)), EffectOf(s, a))
  {
    hide TaskStep, FromServerEffect, PoolOf, WithPool;
    if FromServer(a) {
      ServerAddressed(s.shared, a);
    } else if a.Advance? {
      var pc := s.threads.tasks[a.t];
      TaskAddressed(s.shared, a.t, pc, ReplyOf(s.threads, a.t), Alive(s.threads, pc));
    }
  }

  ghost predicate AllBacked(m: Shared, tasks: map<Tid, Pc>) {
    forall k: Kind :: Backed(Pend(m, k), tasks, k)
  }

  /** One caller has at most one entry. */
  lemma OneEntry(m: Shared, tasks: map<Tid, Pc>, j: Kind, b: nat, k: Kind, c: nat)
    requires AllBacked(m, tasks)
    requires b in Pend(m, j) && c in Pend(m, k) && Pend(m, j)[b].owner == Pend(m, k)[c].owner
    ensures j == k && b == c
  {
    hide Pend;
    assert Backed(Pend(m, j), tasks, j) && Backed(Pend(m, k), tasks, k);
    assert Behind(tasks, j, b, Pend(m, j)[b]) && Behind(tasks, k, c, Pend(m, k)[c]);
  }

  lemma TakenIsUnowned(m: Shared, m': Shared, tasks: map<Tid, Pc>, t: Tid, owner: Tid, k: Kind)
    requires AllBacked(m, tasks) && TakenFrom(m, m', owner) && Changes(m, m', t, PcOf(tasks, t), k)
    requires owner == t ==> Shrinks(Pend(m, k), Pend(m', k))
    ensures Unowned(Pend(m', k), owner)
  {
    hide Pend;
    var j, b :| b in Pend(m, j) && b !in Pend(m', j) && Pend(m, j)[b].owner == owner;
    forall c | c in Pend(m', k)
      ensures Pend(m', k)[c].owner != owner
    {
      if Pend(m', k)[c].owner == owner {
        OneEntry(m, tasks, j, b, k, c);
      }
    }
  }

  lemma UnownedKept(m: Shared, m': Shared, t: Tid, pc: Option<Pc>, u: Tid, k: Kind)
    requires Unowned(Pend(m, k), u) && Changes(m, m', t, pc, k)
    requires u == t ==> Shrinks(Pend(m, k), Pend(m', k))
    ensures Unowned(Pend(m', k), u)
  {
    hide Pend;
  }

  /** Where a filled slot comes from. */
  lemma RepliedFrom(m: Shared, h: Threads, t: Tid, e: Effect, u: Tid)
    requires Addressed(m, t, PcOf(h.tasks, t), e) && Replied(Apply(h, t, e.next, e.op), u)
    ensures e.op.Open? ==> u != t
    ensures Replied(h, u) || (t == READER && e.op.Send? && Due(h, u)) || TakenFrom(m, e.shared, u)
  {
    hide Pend;
    if e.op.FailAll? && !Replied(h, u) {
      var k :| e.op.drained == Pend(m, k) && Pend(e.shared, k) == map[];
      var c :| c in e.op.drained && e.op.drained[c].owner == u;
      assert c in Pend(m, k) && c !in Pend(e.shared, k);
    }
  }

  lemma DueFrom(m: Shared, h: Threads, t: Tid, e: Effect, u: Tid)
    requires Addressed(m, t, PcOf(h.tasks, t), e) && Due(Apply(h, t, e.next, e.op), u)
    ensures (t != READER && Due(h, u)) || (t == READER && e.op.Keep? && (Due(h, u) || TakenFrom(m, e.shared, u)))
  {
    hide Pend;
  }

  lemma AnsweredIsUnowned(m: Shared, h: Threads, t: Tid, e: Effect, u: Tid, k: Kind)
    requires Answers(m, h) && AllBacked(m, h.tasks)
    requires Addressed(m, t, PcOf(h.tasks, t), e) && Changes(m, e.shared, t, PcOf(h.tasks, t), k)
    requires Replied(h, u) || Due(h, u) || TakenFrom(m, e.shared, u)
    requires e.op.Open? ==> u != t
    ensures Unowned(Pend(e.shared, k), u)
  {
    hide Pend;
    if Replied(h, u) || Due(h, u) {
      UnownedKept(m, e.shared, t, PcOf(h.tasks, t), u, k);
    } else {
      TakenIsUnowned(m, e.shared, h.tasks, t, u, k);
    }
  }

  lemma DueIsPast(m: Shared, h: Threads, t: Tid, e: Effect, u: Tid)
    requires Shape(h) && (t in h.tasks || t == h.spawned) && AllBacked(m, h.tasks) && Answers(m, h)
    requires Addressed(m, t, PcOf(h.tasks, t), e) && Tidy(t, PcOf(h.tasks, t), e)
    requires Due(Apply(h, t, e.next, e.op), u)
    ensures Past(Apply(h, t, e.next, e.op), u) && !Replied(Apply(h, t, e.next, e.op), u)
  {
    hide Pend, Early, InPlace;
    var h' := Apply(h, t, e.next, e.op);
    DueFrom(m, h, t, e, u);
    if Replied(h', u) {
      RepliedFrom(m, h, t, e, u);
    }
    if TakenFrom(m, e.shared, u) {
      var k, c :| c in Pend(m, k) && c !in Pend(e.shared, k) && Pend(m, k)[c].owner == u;
      OwnerIsPast(m, h, k, c);
      assert !Unowned(Pend(m, k), u);
    }
  }

  lemma OwnerIsPast(m: Shared, h: Threads, k: Kind, c: nat)
    requires Shape(h) && AllBacked(m, h.tasks) && c in Pend(m, k)
    ensures Past(h, Pend(m, k)[c].owner) && Pend(m, k)[c].owner in h.tasks
  {
    hide Pend;
    assert Backed(Pend(m, k), h.tasks, k) && Behind(h.tasks, k, c, Pend(m, k)[c]);
  }

  lemma AnswersKept(m: Shared, h: Threads, t: Tid, e: Effect)
    requires Shape(h) && (t in h.tasks || t == h.spawned) && AllBacked(m, h.tasks) && Answers(m, h)
    requires Addressed(m, t, PcOf(h.tasks, t), e)
    requires Tidy(t, PcOf(h.tasks, t), e)
    requires forall k :: Changes(m, e.shared, t, PcOf(h.tasks, t), k)
    ensures Answers(e.shared, Apply(h, t, e.next, e.op))
  {
    hide Pend;
    var h' := Apply(h, t, e.next, e.op);
    forall u, k | Replied(h', u) || Due(h', u)
      ensures Unowned(Pend(e.shared, k), u)
    {
      if Replied(h', u) {
        RepliedFrom(m, h, t, e, u);
      } else {
        DueFrom(m, h, t, e, u);
      }
      AnsweredIsUnowned(m, h, t, e, u, k);
    }
    forall u | Due(h', u)
      ensures Past(h', u) && !Replied(h', u)
    {
      DueIsPast(m, h, t, e, u);
    }
  }

  // ---------------------------------------------------------------- the invariant

  ghost predicate Owned(s: State) {
    Shape(s.threads) &&
    Active(s.shared, Invocation) == map[] &&
    Numbers(s.threads.tasks, s.shared.corr) &&
    AllBacked(s.shared, s.threads.tasks) &&
    Answers(s.shared, s.threads)
  }

  /** An answered caller has no entry left. */
  lemma ReceiverIsUnlisted(s: State, t: Tid)
    requires Owned(s) && t in s.threads.tasks && Drawn(s.threads.tasks[t]) && Replied(s.threads, t)
    ensures var q := s.threads.tasks[t].req; q.corr !in Pend(s.shared, q.kind)
  {
    hide Pend;
    var q := s.threads.tasks[t].req;
    assert Unowned(Pend(s.shared, q.kind), t);
    if q.corr in Pend(s.shared, q.kind) {
      OwnEntry(s.shared, s.threads.tasks, t, q.kind, q.corr);
    }
  }

  lemma StepOwned(s: State, a: Action)
    requires Enabled(s, a) && Owned(s)
    ensures Owned(Step(s, a))
  {
    hide Pend, Active, EffectOf, Tidy, Draws, Changes, Carries, Addressed, Numbers, Answers;
    var t, e := Actor(a), EffectOf(s, a);
    StepIsTidy(s, a);
    StepDraws(s, a);
    StepAddressed(s, a);
    if a.Advance? && At(s.threads, t, Receiving) {
      ReceiverIsUnlisted(s, t);
    }
    StepCarries(s, a);
    forall k
      ensures Changes(s.shared, e.shared, t, PcOf(s.threads.tasks, t), k)
    {
      StepChanges(s, a, k);
    }
    forall k
      ensures Backed(Pend(e.shared, k), Moved(s.threads.tasks, t, e.next), k)
    {
      BackedKept(s.shared, e.shared, s.threads.tasks, t, e.next, k);
    }
    StepActivates(s, a, Invocation);
    assert Active(e.shared, Invocation) == map[];
    ShapeKept(s.threads, t, e);
    NumbersKept(s.threads.tasks, t, e.next, s.shared.corr, e.shared.corr);
    AnswersKept(s.shared, s.threads, t, e);
  }

  lemma NewcomerIsFresh(s: State, t: Tid)
    requires Owned(s) && t == s.threads.spawned
    ensures t !in s.threads.tasks && t != READER
  {
  }

  lemma InitOwned(max: Limits)
    ensures Owned(Init(max))
  {
  }

  /** The invariant holds in every state of every run. */
  lemma RunOwned(max: Limits, states: seq<State>, actions: seq<Action>)
    requires IsRun(max, states, actions)
    ensures forall i | 0 <= i < |states| :: Owned(states[i])
  {
    hide Owned, Step;
    InitOwned(max);
    for i := 0 to |actions|
      invariant forall j | 0 <= j <= i :: Owned(states[j])
    {
      StepOwned(states[i], actions[i]);
    }
  }
}
