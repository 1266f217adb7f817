/** What the server is told: everything the client gives up while it is open, and nothing that it
    still holds or waits for. */
module ClientNotices {
  import opened Words
  import opened ClientRuntime
  import opened ClientOwnership
  import ClientResolution
  import opened ClientClose
  import opened ClientSubscriptions
  import opened ClientFences
  import opened ClientActivity

  // ---------------------------------------------------------------- giving up is told

  /** The task is on its way to tell the server. */
  predicate Carries(pc: Pc, notice: Notice) {
    pc == Control(notice) || pc == ControlSend(notice)
  }

  ghost predicate Owed(h: Threads, notice: Notice) {
    exists t | t in h.tasks :: Carries(h.tasks[t], notice)
  }

  /** The server was told, a task is about to tell it, or the client is closed or about to be. */
  ghost predicate Settled(s: State, notice: Notice) {
    notice in s.shared.log.notes.told || Owed(s.threads, notice) || Ending(s)
  }

  /** A task that carries a notice passes it on, delivers it, or closes the client. */
  lemma CarrierMoves(s: State, a: Action, notice: Notice)
    requires Enabled(s, a) && Owned(s)
    requires Actor(a) in s.threads.tasks && Carries(s.threads.tasks[Actor(a)], notice)
    ensures var e := EffectOf(s, a);
            notice in e.shared.log.notes.told || s.shared.closed ||
            (e.next.Some? && (Carries(e.next.value, notice) || Terminates(e.next.value)))
  {
    hide PoolOf, WithPool, Pend, Active, CallerStep, Terminate, Numbers, AllBacked, Answers;
  }

  lemma ToldStays(s: State, a: Action)
    requires Enabled(s, a)
    ensures s.shared.log.notes.told <= EffectOf(s, a).shared.log.notes.told
  {
    hide PoolOf, Pend, Active, TaskStep;
    if a.Advance? {
      var pc := s.threads.tasks[a.t];
      TaskTellsNothing(s.shared, a.t, pc, ReplyOf(s.threads, a.t), Alive(s.threads, pc));
    }
  }

  lemma TaskTellsNothing(m: Shared, t: Tid, pc: Pc, reply: Reply, alive: bool)
    requires !pc.ControlSend? && !pc.Idle?
    ensures TaskStep(m, t, pc, reply, alive).shared.log.notes.told == m.log.notes.told
  {
    hide PoolOf, Pend, Active;
  }

  lemma StepSettled(s: State, a: Action, notice: Notice)
    requires Enabled(s, a) && Owned(s) && Settled(s, notice)
    ensures Settled(Step(s, a), notice)
  {
    hide EffectOf, Owned, Ending, Enabled, Carries, Cause;
    var s' := Step(s, a);
    ToldStays(s, a);
    StepEnds(s, a);
    if t :| t in s.threads.tasks && Carries(s.threads.tasks[t], notice) {
      if t == Actor(a) {
        CarrierMoves(s, a, notice);
        EndingHolds(s, s', Actor(a));
      } else {
        OthersStayPut(s, a, t);
        assert t in s'.threads.tasks && Carries(s'.threads.tasks[t], notice);
      }
    }
  }

  lemma EndingHolds(s: State, s': State, t: Tid)
    ensures s.shared.closed ==> Ending(s)
    ensures t in s'.threads.tasks && Terminates(s'.threads.tasks[t]) ==> Ending(s')
  {
  }

  lemma SettledLater(max: Limits, states: seq<State>, actions: seq<Action>, i: nat, j: nat, notice: Notice)
    requires IsRun(max, states, actions) && i <= j < |states| && Settled(states[i], notice)
    ensures Settled(states[j], notice)
  {
    hide Owned, Settled, Step, Enabled;
    RunOwned(max, states, actions);
    for n := i to j
      invariant Settled(states[n], notice)
    {
      assert Enabled(states[n], actions[n]) && states[n + 1] == Step(states[n], actions[n]);
      StepSettled(states[n], actions[n], notice);
    }
  }

  /** What the server is told about a withdrawn request; a pending session is only forgotten. */
  function NoticeOf(q: Request): Option<Notice> {
    match q.kind
    case Invocation => Some(CancelRequest(q.corr))
    case Subscription => Some(EndSubscription(q.subId))
    case Session => None
  }

  lemma WithdrawalMoves(s: State, t: Tid)
    requires Enabled(s, Advance(t)) && At(s.threads, t, Cancelling) && t != READER
    requires var q := s.threads.tasks[t].req; q.corr in Pend(s.shared, q.kind)
    ensures var q, s' := s.threads.tasks[t].req, Step(s, Advance(t));
            q.corr !in Pend(s'.shared, q.kind) &&
            PcOf(s'.threads.tasks, t) == if NoticeOf(q).Some? then Some(Control(NoticeOf(q).value)) else None
  {
  }

  /** In every run, a caller that withdraws its pending request, because it gave up or could not send
      it, takes it out, and from then on the server is told, or about to be, or the client is closed
      or about to be; for a session the server is not told. */
  lemma WithdrawnIsTold(max: Limits, states: seq<State>, actions: seq<Action>, i: nat, j: nat, t: Tid)
    requires IsRun(max, states, actions) && i < j < |states| && actions[i] == Advance(t)
    requires At(states[i].threads, t, Cancelling)
    requires var q := states[i].threads.tasks[t].req; q.corr in Pend(states[i].shared, q.kind)
    ensures var q := states[i].threads.tasks[t].req;
            q.corr !in Pend(states[i + 1].shared, q.kind) &&
            match NoticeOf(q)
            case Some(notice) => Settled(states[j], notice)
            case None => t !in states[i + 1].threads.tasks
  {
    hide Owned, Settled, Step, Pend;
    RunOwned(max, states, actions);
    assert Enabled(states[i], actions[i]) && states[i + 1] == Step(states[i], actions[i]);
    CallerReads(states[i], t);
    WithdrawalMoves(states[i], t);
    var q := states[i].threads.tasks[t].req;
    if NoticeOf(q).Some? {
      OwedIsSettled(states[i + 1], t, NoticeOf(q).value);
      SettledLater(max, states, actions, i + 1, j, NoticeOf(q).value);
    }
  }

  lemma CallerReads(s: State, t: Tid)
    requires Owned(s) && t in s.threads.tasks && s.threads.tasks[t].Calling?
    ensures t != READER
  {
    hide Numbers, AllBacked, Answers;
  }

  lemma OwedIsSettled(s: State, t: Tid, notice: Notice)
    requires t in s.threads.tasks && Carries(s.threads.tasks[t], notice)
    ensures Settled(s, notice)
  {
  }

  /** In every run, an entry that stops being active for any reason but the server's own word is told
      to the server, or about to be, or the client is closed or about to be. */
  lemma EndedIsTold(max: Limits, states: seq<State>, actions: seq<Action>, i: nat, j: nat, id: Id)
    requires IsRun(max, states, actions) && i < j < |states|
    requires id in Active(states[i].shared, KindOf(id)) && id !in Active(states[i + 1].shared, KindOf(id))
    requires !actions[i].SessionLost?
    ensures Settled(states[j], EndOf(id))
  {
    hide Owned, Settled, Step, Active, Closable, GoesActive, Enabled;
    RunOwned(max, states, actions);
    RunClosable(max, states, actions);
    assert Enabled(states[i], actions[i]) && states[i + 1] == Step(states[i], actions[i]);
    StepKeeps(states[i], actions[i], id);
    EndingStep(states[i], actions[i], id);
    SettledLater(max, states, actions, i + 1, j, EndOf(id));
  }

  lemma EndingStep(s: State, a: Action, id: Id)
    requires Enabled(s, a) && Owned(s) && Closable(s)
    requires Ends(s, a, id) && !a.SessionLost? && id in Active(s.shared, KindOf(id))
    ensures Settled(Step(s, a), EndOf(id))
  {
    hide Owned, Closable, Active, EffectOf;
    if s.threads.tasks[a.t] == Closing(id) {
      ClosingMoves(s, a.t, id);
      OwedIsSettled(Step(s, a), a.t, EndOf(id));
    } else {
      SweeperIsClosed(s, a.t);
      StepEnds(s, a);
    }
  }

  lemma ClosingMoves(s: State, t: Tid, id: Id)
    requires Enabled(s, Advance(t)) && s.threads.tasks[t] == Closing(id) && id in Active(s.shared, KindOf(id))
    ensures PcOf(Step(s, Advance(t)).threads.tasks, t) == Some(Control(EndOf(id)))
  {
  }

  lemma SweeperIsClosed(s: State, t: Tid)
    requires Closable(s) && t in s.threads.tasks && s.threads.tasks[t].Term? && s.threads.tasks[t].stage >= 1
    ensures Ending(s)
  {
  }

  /** At rest, an open client has told the server what was to be told. */
  lemma SettledAtRest(s: State, notice: Notice)
    requires Settled(s, notice) && !s.shared.closed
    requires READER in s.threads.tasks && s.threads.tasks[READER].Idle? && forall t | t in s.threads.tasks :: t == READER
    ensures notice in s.shared.log.notes.told
  {
  }

  // ---------------------------------------------------------------- only what was given up is told

  /** The server was told, or a task is about to tell it. */
  ghost predicate Mentioned(s: State, notice: Notice) {
    notice in s.shared.log.notes.told || Owed(s.threads, notice)
  }

  /** The step gives something up, or keeps a session alive, and so sends a task to tell. */
  predicate Raises(s: State, a: Action, notice: Notice) {
    (a.Advance? && At(s.threads, a.t, Cancelling) &&
     var q := s.threads.tasks[a.t].req; q.corr in Pend(s.shared, q.kind) && NoticeOf(q) == Some(notice)) ||
    (a.Advance? && a.t in s.threads.tasks && s.threads.tasks[a.t].Closing? &&
     var id := s.threads.tasks[a.t].id; id in Active(s.shared, KindOf(id)) && EndOf(id) == notice) ||
    (a.Heartbeat? && notice == Beat(a.beating))
  }

  lemma EffectMentions(s: State, a: Action, notice: Notice)
    requires Enabled(s, a) && Owned(s)
    ensures var e, pc := EffectOf(s, a), PcOf(s.threads.tasks, Actor(a));
            (e.next.Some? && Carries(e.next.value, notice) ==> (pc.Some? && Carries(pc.value, notice)) || Raises(s, a, notice)) &&
            (notice in e.shared.log.notes.told ==>
               notice in s.shared.log.notes.told || (pc.Some? && Carries(pc.value, notice)))
  {
    hide PoolOf, Pend, Active, Owned, TaskStep;
    if a.Advance? {
      var pc := s.threads.tasks[a.t];
      TaskTellsNothing(s.shared, a.t, pc, ReplyOf(s.threads, a.t), Alive(s.threads, pc));
      TaskCarries(s.shared, a.t, pc, ReplyOf(s.threads, a.t), Alive(s.threads, pc), notice);
    }
  }

  lemma TaskCarries(m: Shared, t: Tid, pc: Pc, reply: Reply, alive: bool, notice: Notice)
    requires !pc.ControlSend? && !pc.Idle?
    ensures var next := TaskStep(m, t, pc, reply, alive).next;
            next.Some? && Carries(next.value, notice) ==>
              Carries(pc, notice) ||
              (pc.Calling? && pc.phase == Cancelling && pc.req.corr in Pend(m, pc.req.kind) && NoticeOf(pc.req) == Some(notice)) ||
              (pc.Closing? && pc.id in Active(m, KindOf(pc.id)) && EndOf(pc.id) == notice)
  {
    hide PoolOf, WithPool, Pend, Active;
  }

  lemma StepMentions(s: State, a: Action, notice: Notice)
    requires Enabled(s, a) && Owned(s) && Mentioned(Step(s, a), notice)
    ensures Mentioned(s, notice) || Raises(s, a, notice)
  {
    hide EffectOf, Owned, Enabled, Carries, Raises;
    var s' := Step(s, a);
    EffectMentions(s, a, notice);
    if t :| t in s'.threads.tasks && Carries(s'.threads.tasks[t], notice) {
      if t != Actor(a) {
        OthersStayPut(s, a, t);
        assert t in s.threads.tasks && Carries(s.threads.tasks[t], notice);
      }
    }
  }

  // ---------------------------------------------------------------- cancelled requests

  lemma WithdrawnStays(s: State, a: Action, c: nat)
    requires Enabled(s, a) && c in PoolOf(s.shared, Invocation).ledger.withdrawn
    ensures c in PoolOf(Step(s, a).shared, Invocation).ledger.withdrawn
  {
    hide EffectOf, PoolOf, ClientResolution.Accounted;
    ClientResolution.StepBooks(s, a, Invocation);
  }

  lemma CancelIsWithdrawn(s: State, a: Action, c: nat)
    requires Enabled(s, a) && Raises(s, a, CancelRequest(c))
    ensures c in PoolOf(Step(s, a).shared, Invocation).ledger.withdrawn
  {
  }

  /** In every run, the server is told to cancel a request only after its caller has withdrawn it, and
      so never while it is pending or after it was answered. */
  lemma CancelsOnlyWithdrawn(max: Limits, states: seq<State>, actions: seq<Action>, n: nat, c: nat)
    requires IsRun(max, states, actions) && n < |states| && Mentioned(states[n], CancelRequest(c))
    ensures c in PoolOf(states[n].shared, Invocation).ledger.withdrawn
    ensures c !in Pend(states[n].shared, Invocation) && c !in PoolOf(states[n].shared, Invocation).ledger.answered
  {
    hide Owned, Step, PoolOf, Raises, Enabled, Mentioned;
    RunOwned(max, states, actions);
    NothingMentioned(max, CancelRequest(c));
    for k := 0 to n
      invariant Mentioned(states[k], CancelRequest(c)) ==> c in PoolOf(states[k].shared, Invocation).ledger.withdrawn
    {
      var s, a := states[k], actions[k];
      assert Enabled(s, a) && states[k + 1] == Step(s, a);
      if Mentioned(Step(s, a), CancelRequest(c)) {
        StepMentions(s, a, CancelRequest(c));
        if Mentioned(s, CancelRequest(c)) {
          WithdrawnStays(s, a, c);
        } else {
          CancelIsWithdrawn(s, a, c);
        }
      }
    }
    ClientResolution.RequestsEndOnce(max, states, actions);
    WithdrawnIsNothingElse(states[n], c);
  }

  lemma WithdrawnIsNothingElse(s: State, c: nat)
    requires ClientResolution.Booked(s) && c in PoolOf(s.shared, Invocation).ledger.withdrawn
    ensures c !in Pend(s.shared, Invocation) && c !in PoolOf(s.shared, Invocation).ledger.answered
  {
    hide PoolOf;
    assert ClientResolution.Accounted(PoolOf(s.shared, Invocation));
  }

  lemma NothingMentioned(max: Limits, notice: Notice)
    ensures !Mentioned(Init(max), notice)
  {
  }

  // ---------------------------------------------------------------- ended subscriptions

  /** A caller of a subscription has drawn its id by the time it draws its correlation id. */
  predicate HasSub(pc: Pc) {
    Drawn(pc) && pc.req.kind == Subscription ==> pc.req.subId > 0
  }

  ghost predicate AllHaveSub(tasks: map<Tid, Pc>) {
    forall t | t in tasks :: HasSub(tasks[t])
  }

  lemma EffectHasSub(s: State, a: Action)
    requires Enabled(s, a) && AllHaveSub(s.threads.tasks)
    ensures EffectOf(s, a).next.Some? ==> HasSub(EffectOf(s, a).next.value)
  {
    hide PoolOf, WithPool, Pend, Active;
  }

  lemma StepHasSub(s: State, a: Action)
    requires Enabled(s, a) && AllHaveSub(s.threads.tasks)
    ensures AllHaveSub(Step(s, a).threads.tasks)
  {
    hide EffectOf, HasSub;
    EffectHasSub(s, a);
  }

  /** Subscription `n` is over: nobody holds it, waits for it or can still get it. */
  ghost predicate Gone(s: State, n: nat) {
    Spent(s.shared, s.threads.tasks, n) && SubId(n) !in Active(s.shared, Subscription) &&
    !(READER in s.threads.tasks && Accepting(s.threads.tasks[READER], n))
  }

  lemma GoneStays(s: State, a: Action, n: nat)
    requires Enabled(s, a) && Owned(s) && SubsApart(s) && Gone(s, n)
    ensures Gone(Step(s, a), n)
  {
    hide EffectOf, Pend, Active, Exclusive, Numbers, Answers, Tidy, Changes, DrawsSub, SubNumbers, Spent, Enabled;
    var t, e := Actor(a), EffectOf(s, a);
    StepIsTidy(s, a);
    StepDrawsSub(s, a);
    StepChanges(s, a, Subscription);
    StepAccepts(s, a);
    SpentKept(s.shared, s.threads.tasks, t, e, n);
    assert SubId(n).SubId? && SubId(n).number == n;
    if t in s.threads.tasks && Accepting(s.threads.tasks[t], n) {
      TakerIsReader(s.threads, t, n);
    }
    if e.next.Some? && Accepting(e.next.value, n) {
      var c :| c in Pend(s.shared, Subscription) && Pend(s.shared, Subscription)[c].subId == n;
      PendingIsUnspent(s, n, c);
    }
    if t != READER {
      OthersStayPut(s, a, READER);
    }
  }

  lemma ClosedIsGone(s: State, a: Action, n: nat)
    requires Enabled(s, a) && Owned(s) && SubsApart(s) && a.Advance?
    requires PcOf(s.threads.tasks, a.t) == Some(Closing(SubId(n))) && SubId(n) in Active(s.shared, Subscription)
    ensures Gone(Step(s, a), n)
  {
    hide EffectOf, Pend, Active, Numbers, Answers, Tidy, Changes, DrawsSub, SubNumbers, Spent;
    var e := EffectOf(s, a);
    StepIsTidy(s, a);
    StepDrawsSub(s, a);
    StepChanges(s, a, Subscription);
    SpentKept(s.shared, s.threads.tasks, a.t, e, n);
    StepKeeps(s, a, SubId(n));
    ClosingMoves(s, a.t, SubId(n));
    if a.t != READER {
      OthersStayPut(s, a, READER);
    }
  }

  lemma WithdrawnIsGone(s: State, a: Action, n: nat)
    requires Enabled(s, a) && Owned(s) && SubsApart(s) && AllHaveSub(s.threads.tasks)
    requires a.Advance? && At(s.threads, a.t, Cancelling)
    requires var q := s.threads.tasks[a.t].req; q.kind == Subscription && q.subId == n && q.corr in Pend(s.shared, Subscription)
    ensures Gone(Step(s, a), n)
  {
    hide EffectOf, Active, Numbers, Answers, Changes, Pend, Enabled;
    var t, q := a.t, s.threads.tasks[a.t].req;
    CallerReads(s, t);
    OwnSubscription(s, t);
    assert !Unowned(Pend(s.shared, Subscription), t) && SubOf(PcOf(s.threads.tasks, t)) == n;
    assert !Spent(s.shared, s.threads.tasks, n);
    WithdrawalMoves(s, t);
    StepKeeps(s, a, SubId(n));
    NothingGoesActive(s, t, SubId(n));
    OthersStayPut(s, a, READER);
    StepDrawsSub(s, a);
    var tasks' := Step(s, a).threads.tasks;
    forall u | u in tasks' && SubOf(PcOf(tasks', u)) == n ensures false {
      if u != t {
        OthersStayPut(s, a, u);
      }
    }
  }

  lemma NothingGoesActive(s: State, t: Tid, id: Id)
    requires At(s.threads, t, Cancelling)
    ensures !GoesActive(s, Advance(t), id) && !Ends(s, Advance(t), id)
  {
  }

  lemma OwnSubscription(s: State, t: Tid)
    requires Owned(s) && At(s.threads, t, Cancelling)
    requires var q := s.threads.tasks[t].req; q.kind == Subscription && q.corr in Pend(s.shared, Subscription)
    ensures Pend(s.shared, Subscription)[s.threads.tasks[t].req.corr].owner == t
  {
    hide Pend, Answers;
    OwnEntry(s.shared, s.threads.tasks, t, Subscription, s.threads.tasks[t].req.corr);
  }

  lemma RaisedIsGone(s: State, a: Action, n: nat)
    requires Enabled(s, a) && Owned(s) && SubsApart(s) && AllHaveSub(s.threads.tasks)
    requires Raises(s, a, EndSubscription(n))
    ensures Gone(Step(s, a), n)
  {
    hide Owned, SubsApart, AllHaveSub, Gone, Step, Enabled, Pend, Active;
    if At(s.threads, a.t, Cancelling) {
      WithdrawnIsGone(s, a, n);
    } else {
      assert s.threads.tasks[a.t] == Closing(SubId(n));
      ClosedIsGone(s, a, n);
    }
  }

  /** In every run, the server is told to end a subscription only when the client has given it up for
      good: nobody holds it, waits for it or will ever get it again. */
  lemma EndsOnlyGone(max: Limits, states: seq<State>, actions: seq<Action>, n: nat, sub: nat)
    requires IsRun(max, states, actions) && n < |states| && Mentioned(states[n], EndSubscription(sub))
    ensures Gone(states[n], sub)
  {
    hide Owned, SubsApart, AllHaveSub, Step, Raises, Enabled, Mentioned, Gone;
    RunOwned(max, states, actions);
    RunSubsApart(max, states, actions);
    NothingMentioned(max, EndSubscription(sub));
    NobodyYet(max);
    for k := 0 to n
      invariant AllHaveSub(states[k].threads.tasks)
      invariant Mentioned(states[k], EndSubscription(sub)) ==> Gone(states[k], sub)
    {
      var s, a := states[k], actions[k];
      assert Enabled(s, a) && states[k + 1] == Step(s, a);
      StepHasSub(s, a);
      if Mentioned(Step(s, a), EndSubscription(sub)) {
        StepMentions(s, a, EndSubscription(sub));
        if Mentioned(s, EndSubscription(sub)) {
          GoneStays(s, a, sub);
        } else {
          RaisedIsGone(s, a, sub);
        }
      }
    }
  }

  lemma NobodyYet(max: Limits)
    ensures AllHaveSub(Init(max).threads.tasks)
  {
  }
}
