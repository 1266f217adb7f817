/** The client runtime as a transition system. One step is one critical section or atomic
    operation of one task: a caller, the reader, a closer or a terminator. Steps of different
    tasks interleave freely. A step reads and writes what the tasks share and says where its own
    task goes next.

    The mutex of the pending sessions is modelled explicitly, because the reader keeps it while
    it handles a session acknowledgement; every other critical section is a single step. */
module ClientRuntime {
  import opened Words

  type Tid = nat

  /** The task that handles inbound envelopes. */
  const READER: Tid := 0

  datatype Kind = Invocation | Subscription | Session

  /** Subscription ids are the client's own; session ids are chosen by the server. */
  datatype Id = SubId(number: nat) | SessId(bytes: seq<Byte>)

  // ---------------------------------------------------------------- permits, pending and active entries

  datatype Pending = Pending(owner: Tid, subId: nat)

  /** Bookkeeping that the program does not keep: the correlation ids ever registered, and how
      those that are no longer pending ended. */
  datatype Ledger = Ledger(registered: set<nat>, answered: set<nat>, withdrawn: set<nat>, drained: set<nat>)

  /** The semaphore of one kind of request, the requests that wait for the server, and the
      acknowledged subscriptions or sessions with their fences. Every pending and every active
      entry holds a permit. */
  datatype Pool = Pool(available: nat, pending: map<nat, Pending>, active: map<Id, nat>, ledger: Ledger)

  function Release(p: Pool, n: nat): Pool {
    p.(available := p.available + n)
  }

  function Register(p: Pool, corr: nat, entry: Pending): Pool {
    p.(pending := p.pending[corr := entry], ledger := p.ledger.(registered := p.ledger.registered + {corr}))
  }

  /** The reader takes an entry out of a pending map; its permit goes with it. */
  function Take(p: Pool, corr: nat): Pool {
    p.(pending := p.pending - {corr}, ledger := p.ledger.(answered := p.ledger.answered + {corr}))
  }

  /** The caller takes its own entry out and drops its permit. */
  function TakeBack(p: Pool, corr: nat): Pool {
    p.(available := p.available + 1,
       pending := p.pending - {corr},
       ledger := p.ledger.(withdrawn := p.ledger.withdrawn + {corr}))
  }

  function TakeAll(p: Pool): Pool {
    p.(available := p.available + |p.pending|,
       pending := map[],
       ledger := p.ledger.(drained := p.ledger.drained + p.pending.Keys))
  }

  /** Activating with the permit of the pending entry; a replaced entry gives its permit back. */
  function Activate(p: Pool, id: Id, fence: nat): Pool {
    Release(p.(active := p.active[id := fence]), if id in p.active then 1 else 0)
  }

  function Deactivate(p: Pool, id: Id): Pool {
    Release(p.(active := p.active - {id}), if id in p.active then 1 else 0)
  }

  function DeactivateAll(p: Pool): Pool {
    p.(available := p.available + |p.active|, active := map[])
  }

  function RenewFence(p: Pool, id: Id, fence: nat): Pool {
    if id in p.active then p.(active := p.active[id := Max(p.active[id], fence)]) else p
  }

  // ---------------------------------------------------------------- tasks

  datatype Reply = Failure | Answer | Ack(id: Id)

  /** A caller's one-shot reply channel; a dropped receiver has no slot. */
  datatype Slot = Waiting | Filled(reply: Reply)

  /** A caller's way from its first open check to its return: it takes a permit, draws its ids,
      registers itself, sends, receives, and cancels if its guard is still armed. */
  datatype Phase = Checked | Permitted | Numbered | Registered | Sending | Outbound | Receiving | Cancelling

  datatype Request = Request(kind: Kind, corr: nat, subId: nat)

  /** A best-effort message to the server: a request is cancelled, a subscription or a session is
      given up, or a session is kept alive. */
  datatype Notice = CancelRequest(request: nat) | EndSubscription(sub: nat) | EndSession(session: seq<Byte>) | Beat(session: seq<Byte>)

  /** How the server learns that an active entry is given up. */
  function EndOf(id: Id): Notice {
    match id
    case SubId(number) => EndSubscription(number)
    case SessId(bytes) => EndSession(bytes)
  }

  datatype Pc =
    | Calling(phase: Phase, req: Request)
    // A best-effort control message: first its correlation id, then the queue.
    | Control(notice: Notice)
    | ControlSend(notice: Notice)
    // A handle, or the reader in its place, gives up an active entry.
    | Closing(id: Id)
    // Termination: stage 0 is the swap of the closed flag, stages 1 to 5 drain one map each.
    | Term(stage: nat, holding: Option<Kind>)
    // The reader between envelopes and inside one.
    | Idle
    | Answering(owner: Tid, ok: bool)
    | Replying(owner: Tid, ok: bool)
    | Taken(owner: Tid, ack: Id, fence: nat, valid: bool)
    | Activated(owner: Tid, ack: Id)

  // ---------------------------------------------------------------- shared state

  datatype Metrics = Metrics(submitted: nat, completed: nat, failed: nat, cancelled: nat, late: nat)

  /** More bookkeeping: what the server's answer to each correlation id was worth, how many
      invocations it answered with success, how often it acknowledged each id, which ids ever had a
      handle, and what the server was told. */
  datatype Notes = Notes(verdicts: map<nat, Reply>, goodAnswers: nat, acks: multiset<Id>, handled: set<Id>, told: set<Notice>)

  /** The notes, how many control messages failed, and how far termination has come. */
  datatype Log = Log(notes: Notes, failedSends: nat, progress: nat, terminator: Tid)

  /** The server's verdict on a request. */
  function Heard(notes: Notes, corr: nat, verdict: Reply): Notes {
    Notes(notes.verdicts[corr := verdict],
          notes.goodAnswers + (if verdict == Answer then 1 else 0),
          if verdict.Ack? then notes.acks + multiset{verdict.id} else notes.acks,
          notes.handled,
          notes.told)
  }

  /** What the tasks share, and the handles that callers hold. */
  datatype Shared = Shared(
    closed: bool,
    corr: nat,
    subIds: nat,
    pools: map<Kind, Pool>,
    handles: multiset<Id>,
    metrics: Metrics,
    log: Log)

  function FullPool(n: nat): Pool {
    Pool(n, map[], map[], Ledger({}, {}, {}, {}))
  }

  function PoolOf(m: Shared, k: Kind): Pool {
    if k in m.pools then m.pools[k] else FullPool(0)
  }

  function WithPool(m: Shared, k: Kind, p: Pool): Shared {
    m.(pools := m.pools[k := p])
  }

  function Pend(m: Shared, k: Kind): map<nat, Pending> {
    PoolOf(m, k).pending
  }

  function Active(m: Shared, k: Kind): map<Id, nat> {
    PoolOf(m, k).active
  }

  function KindOf(id: Id): Kind {
    if id.SubId? then Subscription else Session
  }

  // ---------------------------------------------------------------- effects

  /** What a step does to reply slots: nothing; open the actor's, read it, or drop it; answer one
      caller; or tell every drained caller the error. */
  datatype SlotOp =
    | Keep
    | Open
    | Read
    | Drop
    | Send(owner: Tid, reply: Reply)
    | FailAll(drained: map<nat, Pending>)

  /** The outcome of a step: where its task goes, if anywhere, and what it leaves behind. */
  datatype Effect = Effect(next: Option<Pc>, shared: Shared, op: SlotOp)

  function Go(m: Shared, pc: Pc): Effect {
    Effect(Some(pc), m, Keep)
  }

  /** The task returns: the reader to its loop, any other task for good, dropping its receiver. */
  function Done(m: Shared, t: Tid): Effect {
    if t == READER then Effect(Some(Idle), m, Keep) else Effect(None, m, Drop)
  }

  function Unhold(m: Shared, holding: Option<Kind>): Shared {
    match holding
    case Some(k) => WithPool(m, k, Release(PoolOf(m, k), 1))
    case None => m
  }

  // ---------------------------------------------------------------- caller steps

  function Acquire(m: Shared, t: Tid, q: Request): Effect {
    var p := PoolOf(m, q.kind);
    if p.available == 0 then Done(m, t)
    else Go(WithPool(m, q.kind, p.(available := p.available - 1)), Calling(Permitted, q))
  }

  /** A subscription draws its own id before its correlation id; both counters never wrap. */
  function DrawIds(m: Shared, t: Tid, q: Request): Effect {
    if q.kind == Subscription && q.subId == 0 then
      if m.subIds >= U64_MAX then Done(Unhold(m, Some(q.kind)), t)
      else Go(m.(subIds := m.subIds + 1), Calling(Permitted, q.(subId := m.subIds + 1)))
    else if m.corr >= U64_MAX then Done(Unhold(m, Some(q.kind)), t)
    else Go(m.(corr := m.corr + 1), Calling(Numbered, q.(corr := m.corr + 1)))
  }

  function Enlist(m: Shared, t: Tid, q: Request): Effect {
    Effect(Some(Calling(Registered, q)),
           WithPool(m, q.kind, Register(PoolOf(m, q.kind), q.corr, Pending(t, q.subId))),
           Open)
  }

  function CountSubmitted(m: Shared, q: Request): Effect {
    Go(m.(metrics := if q.kind == Invocation then m.metrics.(submitted := m.metrics.submitted + 1) else m.metrics),
       Calling(Sending, q))
  }

  /** An acknowledgement becomes a handle; an error leaves the guard armed. */
  function TakeReply(m: Shared, q: Request, reply: Reply): Effect {
    match reply
    case Failure => Effect(Some(Calling(Cancelling, q)), m, Read)
    case Answer => Effect(None, m, Read)
    case Ack(id) =>
      Effect(None,
             m.(handles := m.handles + multiset{id},
                log := m.log.(notes := m.log.notes.(handled := m.log.notes.handled + {id}))),
             Read)
  }

  /** The armed guard withdraws the request, if it is still pending, and tells the server so
      unless it was a session. */
  function Withdraw(m: Shared, t: Tid, q: Request): Effect {
    if q.corr !in Pend(m, q.kind) then Done(m, t) else
      var m' := WithPool(m, q.kind, TakeBack(PoolOf(m, q.kind), q.corr))
                .(metrics := m.metrics.(cancelled := m.metrics.cancelled + 1));
      match q.kind
      case Invocation => Go(m', Control(CancelRequest(q.corr)))
      case Subscription => Go(m', Control(EndSubscription(q.subId)))
      case Session => Done(m', t)
  }

  // ---------------------------------------------------------------- control, closing, terminating

  function DrawControl(m: Shared, notice: Notice): Effect {
    if m.corr >= U64_MAX then Go(m, Term(0, None))
    else Go(m.(corr := m.corr + 1), ControlSend(notice))
  }

  /** A closed client sends nothing; a queue that refuses closes it. */
  function SendControl(m: Shared, t: Tid, notice: Notice, accepted: bool): Effect {
    if m.closed then Done(m, t)
    else if accepted then Done(m.(log := m.log.(notes := m.log.notes.(told := m.log.notes.told + {notice}))), t)
    else
      Go(m.(metrics := m.metrics.(failed := m.metrics.failed + 1),
            log := m.log.(failedSends := m.log.failedSends + 1)),
         Term(0, None))
  }

  /** Closing tells the server, if the entry was still active. */
  function Close(m: Shared, t: Tid, id: Id): Effect {
    var k := KindOf(id);
    if id in Active(m, k) then Go(WithPool(m, k, Deactivate(PoolOf(m, k), id)), Control(EndOf(id))) else Done(m, t)
  }

  function DrainedKind(stage: nat): Kind {
    if stage == 1 then Invocation else if stage == 2 || stage == 4 then Subscription else Session
  }

  /** Stages 1, 2 and 3 fail the pending requests of one kind. */
  function Drain(m: Shared, stage: nat, holding: Option<Kind>): Effect {
    var k := DrainedKind(stage);
    Effect(Some(Term(stage + 1, holding)),
           WithPool(m, k, TakeAll(PoolOf(m, k))).(log := m.log.(progress := stage + 1)),
           FailAll(Pend(m, k)))
  }

  /** Stages 4 and 5 drop the active entries of one kind. */
  function Forget(m: Shared, stage: nat): Shared {
    var k := DrainedKind(stage);
    WithPool(m, k, DeactivateAll(PoolOf(m, k))).(log := m.log.(progress := stage + 1))
  }

  function Terminate(m: Shared, t: Tid, stage: nat, holding: Option<Kind>): Effect {
    if stage == 0 then
      if m.closed then Done(Unhold(m, holding), t)
      else Go(m.(closed := true, log := m.log.(progress := 1, terminator := t)), Term(1, holding))
    else if stage <= 3 then Drain(m, stage, holding)
    else if stage == 4 then Go(Forget(m, 4), Term(5, holding))
    else Done(Unhold(Forget(m, 5), holding), t)
  }

  // ---------------------------------------------------------------- reader steps

  /** Taking an entry out of its pending map in order to answer it. */
  function TakeUp(m: Shared, k: Kind, corr: nat, verdict: Reply): Shared {
    WithPool(m, k, Take(PoolOf(m, k), corr)).(log := m.log.(notes := Heard(m.log.notes, corr, verdict)))
  }

  function GotResponse(m: Shared, corr: nat, ok: bool): Effect {
    if corr !in Pend(m, Invocation) then Go(m.(metrics := m.metrics.(late := m.metrics.late + 1)), Idle) else
      Go(TakeUp(m, Invocation, corr, if ok then Answer else Failure),
         Answering(Pend(m, Invocation)[corr].owner, ok))
  }

  function GotSubAck(m: Shared, corr: nat, ackId: nat): Effect {
    if corr !in Pend(m, Subscription) then Go(m, Idle) else
      var entry := Pend(m, Subscription)[corr];
      var valid := ackId != 0 && ackId == entry.subId;
      Go(TakeUp(m, Subscription, corr, if valid then Ack(SubId(entry.subId)) else Failure),
         Taken(entry.owner, SubId(ackId), 0, valid))
  }

  /** A session message either acknowledges a pending session, in which case the reader keeps
      the mutex, or renews the fence of an active one. */
  function GotSessionMessage(m: Shared, corr: nat, id: seq<Byte>, fence: nat): Effect {
    if corr !in Pend(m, Session) then Go(WithPool(m, Session, RenewFence(PoolOf(m, Session), SessId(id), fence)), Idle)
    else
      var valid := id != [] && fence != 0;
      Go(TakeUp(m, Session, corr, if valid then Ack(SessId(id)) else Failure),
         Taken(Pend(m, Session)[corr].owner, SessId(id), fence, valid))
  }

  function GotSessionLost(m: Shared, id: seq<Byte>): Effect {
    Go(WithPool(m, Session, Deactivate(PoolOf(m, Session), SessId(id))), Idle)
  }

  /** The permit is released before the caller is woken. */
  function CountAnswer(m: Shared, owner: Tid, ok: bool): Effect {
    Go(Unhold(m, Some(Invocation)).(metrics :=
         if ok then m.metrics.(completed := m.metrics.completed + 1)
         else m.metrics.(failed := m.metrics.failed + 1)),
       Replying(owner, ok))
  }

  /** An invalid acknowledgement fails the caller and terminates the runtime, while the reader
      still holds the permit. */
  function Accept(m: Shared, owner: Tid, ack: Id, fence: nat, valid: bool): Effect {
    var k := KindOf(ack);
    if valid then Go(WithPool(m, k, Activate(PoolOf(m, k), ack, fence)), Activated(owner, ack))
    else Effect(Some(Term(0, Some(k))), m, Send(owner, Failure))
  }

  /** Without a living receiver the reader closes what it has just activated. */
  function Acknowledge(m: Shared, owner: Tid, ack: Id, alive: bool): Effect {
    if alive then Effect(Some(Idle), m, Send(owner, Ack(ack))) else Go(m, Closing(ack))
  }

  // ---------------------------------------------------------------- states

  /** Program counters, reply slots and the one mutex that outlives a step. Task ids below
      `spawned` have been used. The orphans are the acknowledged ids whose acknowledgement was
      dropped unread. */
  datatype Threads = Threads(
    tasks: map<Tid, Pc>,
    slots: map<Tid, Slot>,
    spawned: nat,
    lockHolder: Option<Tid>,
    orphans: set<Id>)

  datatype State = State(shared: Shared, threads: Threads)

  /** The configured maximum of each kind. */
  datatype Limits = Limits(invocations: nat, subscriptions: nat, sessions: nat)

  function MaxOf(max: Limits, k: Kind): nat {
    match k
    case Invocation => max.invocations
    case Subscription => max.subscriptions
    case Session => max.sessions
  }

  function Init(max: Limits): State {
    State(
      Shared(false, 0, 0,
             map[Invocation := FullPool(max.invocations), Subscription := FullPool(max.subscriptions),
                 Session := FullPool(max.sessions)],
             multiset{}, Metrics(0, 0, 0, 0, 0), Log(Notes(map[], 0, multiset{}, {}, {}), 0, 0, READER)),
      Threads(map[READER := Idle], map[], READER + 1, None, {}))
  }

  function Moved(tasks: map<Tid, Pc>, t: Tid, next: Option<Pc>): map<Tid, Pc> {
    match next
    case Some(pc) => tasks[t := pc]
    case None => tasks - {t}
  }

  /** Sending on a one-shot channel succeeds while its receiver is alive. */
  function SlotsAfter(slots: map<Tid, Slot>, t: Tid, op: SlotOp): map<Tid, Slot> {
    match op
    case Keep => slots
    case Open => slots[t := Waiting]
    case Read => slots - {t}
    case Drop => slots - {t}
    case Send(owner, reply) => if owner in slots then slots[owner := Filled(reply)] else slots
    case FailAll(drained) =>
      map u | u in slots :: if exists c :: c in drained && drained[c].owner == u then Filled(Failure) else slots[u]
  }

  /** The acknowledgement that a dropped receiver leaves unread. */
  function Unread(slots: map<Tid, Slot>, t: Tid, op: SlotOp): set<Id> {
    if op == Drop && t in slots && slots[t].Filled? && slots[t].reply.Ack? then {slots[t].reply.id} else {}
  }

  /** The reader takes the mutex of the pending sessions with an acknowledged one and releases
      it when it returns to its loop. */
  function LockAfter(lockHolder: Option<Tid>, t: Tid, next: Option<Pc>): Option<Tid> {
    if t == READER && next == Some(Idle) then None
    else if t == READER && next.Some? && next.value.Taken? && next.value.ack.SessId? then Some(READER)
    else lockHolder
  }

  function Apply(h: Threads, t: Tid, next: Option<Pc>, op: SlotOp): Threads {
    Threads(Moved(h.tasks, t, next),
            SlotsAfter(h.slots, t, op),
            if t < h.spawned then h.spawned else t + 1,
            LockAfter(h.lockHolder, t, next),
            h.orphans + Unread(h.slots, t, op))
  }

  // ---------------------------------------------------------------- the transition relation

  datatype Action =
    | Begin(t: Tid, kind: Kind)
    | Advance(t: Tid)
    | SendFails(t: Tid)
    | GiveUp(t: Tid)
    | ControlOutcome(t: Tid, accepted: bool)
    | DropHandle(t: Tid, id: Id)
    | UseCloser(t: Tid, subId: nat)
    | Heartbeat(t: Tid, beating: seq<Byte>)
    | CloseClient(t: Tid)
    | Response(corr: nat, ok: bool)
    | SubscriptionAck(corr: nat, ackId: nat)
    | SessionMessage(corr: nat, sessId: seq<Byte>, fence: nat)
    | SessionLost(sessId: seq<Byte>)
    | Fatal

  predicate FromServer(a: Action) {
    a.Response? || a.SubscriptionAck? || a.SessionMessage? || a.SessionLost? || a.Fatal?
  }

  /** The task that takes the step. */
  function Actor(a: Action): Tid {
    if FromServer(a) then READER else a.t
  }

  predicate InsideEnvelope(pc: Pc) {
    pc.Answering? || pc.Replying? || pc.Taken? || pc.Activated?
  }

  /** A step that touches the pending sessions waits for their mutex. */
  predicate NeedsLock(pc: Pc) {
    (pc.Calling? && (pc.phase == Numbered || pc.phase == Cancelling) && pc.req.kind == Session) ||
    (pc.Term? && pc.stage == 3)
  }

  predicate CanAdvance(h: Threads, t: Tid) {
    t in h.tasks &&
    var pc := h.tasks[t];
    (pc.Calling? && pc.phase == Receiving ==> t in h.slots && h.slots[t].Filled?) &&
    (NeedsLock(pc) ==> h.lockHolder == None) &&
    !pc.ControlSend? && !pc.Idle?
  }

  predicate At(h: Threads, t: Tid, phase: Phase) {
    t in h.tasks && h.tasks[t].Calling? && h.tasks[t].phase == phase
  }

  predicate ReaderIdle(h: Threads) {
    READER in h.tasks && h.tasks[READER].Idle?
  }

  predicate Enabled(s: State, a: Action) {
    match a
    case Begin(t, _) => t == s.threads.spawned && !s.shared.closed
    case Advance(t) => CanAdvance(s.threads, t)
    case SendFails(t) => At(s.threads, t, Sending) || At(s.threads, t, Outbound)
    case GiveUp(t) => At(s.threads, t, Receiving)
    case ControlOutcome(t, _) => t in s.threads.tasks && s.threads.tasks[t].ControlSend?
    case DropHandle(t, id) => t == s.threads.spawned && id in s.shared.handles
    case UseCloser(t, n) => t == s.threads.spawned && SubId(n) in s.shared.log.notes.handled
    case Heartbeat(t, id) => t == s.threads.spawned && !s.shared.closed && SessId(id) in Active(s.shared, Session)
    case CloseClient(t) => t == s.threads.spawned
    case SessionMessage(_, _, _) => ReaderIdle(s.threads) && s.threads.lockHolder == None
    case _ => ReaderIdle(s.threads)
  }

  function CallerStep(m: Shared, t: Tid, phase: Phase, q: Request, reply: Reply): Effect {
    match phase
    case Checked => Acquire(m, t, q)
    case Permitted => DrawIds(m, t, q)
    case Numbered => Enlist(m, t, q)
    case Registered => CountSubmitted(m, q)
    case Sending => Go(m, Calling(if m.closed then Cancelling else Outbound, q))
    case Outbound => Go(m, Calling(Receiving, q))
    case Receiving => TakeReply(m, q, reply)
    case Cancelling => Withdraw(m, t, q)
  }

  function ReaderStep(m: Shared, pc: Pc, alive: bool): Effect
    requires InsideEnvelope(pc)
  {
    match pc
    case Answering(owner, ok) => CountAnswer(m, owner, ok)
    case Replying(owner, ok) => Effect(Some(Idle), m, Send(owner, if ok then Answer else Failure))
    case Taken(owner, ack, fence, valid) => Accept(m, owner, ack, fence, valid)
    case Activated(owner, ack) => Acknowledge(m, owner, ack, alive)
  }

  /** The next step of a task; `reply` is what its slot holds and `alive` says whether the
      caller the reader is about to answer still has its receiver. */
  function TaskStep(m: Shared, t: Tid, pc: Pc, reply: Reply, alive: bool): Effect
    requires !pc.ControlSend? && !pc.Idle?
  {
    if InsideEnvelope(pc) then ReaderStep(m, pc, alive)
    else if pc.Calling? then CallerStep(m, t, pc.phase, pc.req, reply)
    else if pc.Control? then DrawControl(m, pc.notice)
    else if pc.Closing? then Close(m, t, pc.id)
    else Terminate(m, t, pc.stage, pc.holding)
  }

  function ReplyOf(h: Threads, t: Tid): Reply {
    if t in h.slots && h.slots[t].Filled? then h.slots[t].reply else Failure
  }

  predicate Alive(h: Threads, pc: Pc) {
    InsideEnvelope(pc) && pc.owner in h.slots
  }

  function FromServerEffect(m: Shared, a: Action): Effect
    requires FromServer(a)
  {
    match a
    case Response(corr, ok) => GotResponse(m, corr, ok)
    case SubscriptionAck(corr, ackId) => GotSubAck(m, corr, ackId)
    case SessionMessage(corr, id, fence) => GotSessionMessage(m, corr, id, fence)
    case SessionLost(id) => GotSessionLost(m, id)
    case Fatal => Go(m, Term(0, None))
  }

  function EffectOf(s: State, a: Action): Effect
    requires Enabled(s, a)
  {
    var m := s.shared;
    if FromServer(a) then FromServerEffect(m, a) else
    match a
    case Begin(_, k) => Go(m, Calling(Checked, Request(k, 0, 0)))
    case Advance(t) =>
      var pc := s.threads.tasks[t];
      TaskStep(m, t, pc, ReplyOf(s.threads, t), Alive(s.threads, pc))
    case SendFails(t) => Go(m, Calling(Cancelling, s.threads.tasks[t].req))
    case GiveUp(t) => Effect(Some(Calling(Cancelling, s.threads.tasks[t].req)), m, Drop)
    case ControlOutcome(t, accepted) => SendControl(m, t, s.threads.tasks[t].notice, accepted)
    case DropHandle(_, id) => Go(m.(handles := m.handles - multiset{id}), Closing(id))
    case UseCloser(_, id) => Go(m, Closing(SubId(id)))
    case Heartbeat(_, id) => Go(m, Control(Beat(id)))
    case CloseClient(_) => Go(m, Term(0, None))
  }

  function Step(s: State, a: Action): State
    requires Enabled(s, a)
  {
    var e := EffectOf(s, a);
    State(e.shared, Apply(s.threads, Actor(a), e.next, e.op))
  }

  /** A run: states linked by enabled steps, from a fresh runtime. */
  ghost predicate IsRun(max: Limits, states: seq<State>, actions: seq<Action>) {
    |states| == |actions| + 1 && states[0] == Init(max) &&
    forall i | 0 <= i < |actions| :: Enabled(states[i], actions[i]) && states[i + 1] == Step(states[i], actions[i])
  }
}
