/** The metrics agree with what happened to the requests. */
module ClientCounters {
  import opened Words
  import opened MapCounts
  import opened ClientRuntime
  import opened ClientOwnership
  import opened ClientResolution

  // ---------------------------------------------------------------- sizes

  function Registrations(m: Shared): nat {
    |PoolOf(m, Invocation).ledger.registered|
  }

  function Answered(m: Shared): nat {
    |PoolOf(m, Invocation).ledger.answered|
  }

  function Withdrawals(m: Shared): nat {
    |PoolOf(m, Invocation).ledger.withdrawn| + |PoolOf(m, Subscription).ledger.withdrawn| +
    |PoolOf(m, Session).ledger.withdrawn|
  }

  lemma SizeWith(s: set<nat>, c: nat)
    ensures |s + {c}| == |s| + One(c !in s)
  {
    if c in s {
      assert s + {c} == s;
    }
  }

  // ---------------------------------------------------------------- one step

  /** Registered as an invocation, not yet counted as submitted. */
  predicate Uncounted(pc: Pc) {
    pc.Calling? && pc.phase == Registered && pc.req.kind == Invocation
  }

  predicate IsUncounted(pc: Option<Pc>) {
    pc.Some? && Uncounted(pc.value)
  }

  predicate IsAnswering(pc: Option<Pc>, ok: bool) {
    pc.Some? && pc.value.Answering? && pc.value.ok == ok
  }

  predicate Counts(m: Shared, pc: Option<Pc>, e: Effect) {
    var n, n' := m.metrics, e.shared.metrics;
    n'.submitted + One(IsUncounted(e.next)) + Registrations(m) ==
      n.submitted + One(IsUncounted(pc)) + Registrations(e.shared) &&
    n'.completed + One(IsAnswering(e.next, true)) + m.log.notes.goodAnswers ==
      n.completed + One(IsAnswering(pc, true)) + e.shared.log.notes.goodAnswers &&
    n'.failed + One(IsAnswering(e.next, false)) + Answered(m) - m.log.notes.goodAnswers + m.log.failedSends ==
      n.failed + One(IsAnswering(pc, false)) + Answered(e.shared) - e.shared.log.notes.goodAnswers + e.shared.log.failedSends &&
    n'.cancelled + Withdrawals(m) == n.cancelled + Withdrawals(e.shared)
  }

  /** Nothing about the sizes changes while the ledgers stay the same. */
  lemma SameSizes(m: Shared, m': Shared)
    requires forall k :: SameLedger(m, m', k)
    ensures Registrations(m') == Registrations(m) && Answered(m') == Answered(m) && Withdrawals(m') == Withdrawals(m)
  {
    assert SameLedger(m, m', Invocation) && SameLedger(m, m', Subscription) && SameLedger(m, m', Session);
  }

  predicate SameLedger(m: Shared, m': Shared, k: Kind) {
    PoolOf(m', k).ledger == PoolOf(m, k).ledger
  }

  lemma EnlistCounts(m: Shared, t: Tid, q: Request)
    requires q.corr !in PoolOf(m, q.kind).ledger.registered
    ensures Counts(m, Some(Calling(Numbered, q)), Enlist(m, t, q))
  {
    SizeWith(PoolOf(m, q.kind).ledger.registered, q.corr);
  }

  lemma OneMoreWithdrawal(m: Shared, m': Shared, k: Kind, c: nat)
    requires forall j | j != k :: SameLedger(m, m', j)
    requires var l := PoolOf(m, k).ledger; c !in l.withdrawn && PoolOf(m', k).ledger == l.(withdrawn := l.withdrawn + {c})
    ensures Registrations(m') == Registrations(m) && Answered(m') == Answered(m)
    ensures Withdrawals(m') == Withdrawals(m) + 1
  {
    hide PoolOf;
    SizeWith(PoolOf(m, k).ledger.withdrawn, c);
    assert Invocation != k ==> SameLedger(m, m', Invocation);
    assert Subscription != k ==> SameLedger(m, m', Subscription);
    assert Session != k ==> SameLedger(m, m', Session);
  }

  lemma WithdrawCounts(m: Shared, t: Tid, q: Request)
    requires Accounted(PoolOf(m, q.kind))
    ensures Counts(m, Some(Calling(Cancelling, q)), Withdraw(m, t, q))
  {
    hide Registrations, Answered, Withdrawals;
    var p := PoolOf(m, q.kind);
    if q.corr in p.pending {
      assert q.corr in p.pending.Keys;
      OneMoreWithdrawal(m, Withdraw(m, t, q).shared, q.kind, q.corr);
    }
  }

  lemma CallerCounts(m: Shared, t: Tid, phase: Phase, q: Request, reply: Reply)
    requires Accounted(PoolOf(m, q.kind))
    requires phase == Numbered ==> q.corr !in PoolOf(m, q.kind).ledger.registered
    ensures Counts(m, Some(Calling(phase, q)), CallerStep(m, t, phase, q, reply))
  {
    hide Accounted, Registrations, Answered, Withdrawals;
    if phase == Numbered {
      EnlistCounts(m, t, q);
    } else if phase == Cancelling {
      WithdrawCounts(m, t, q);
    } else {
      SameSizes(m, CallerStep(m, t, phase, q, reply).shared);
    }
  }

  lemma DrainCounts(m: Shared, stage: nat, holding: Option<Kind>)
    ensures Counts(m, Some(Term(stage, holding)), Drain(m, stage, holding))
  {
  }

  lemma TerminateCounts(m: Shared, t: Tid, stage: nat, holding: Option<Kind>)
    ensures Counts(m, Some(Term(stage, holding)), Terminate(m, t, stage, holding))
  {
    hide Drain, Registrations, Answered, Withdrawals;
    if 1 <= stage <= 3 {
      DrainCounts(m, stage, holding);
    } else {
      SameSizes(m, Terminate(m, t, stage, holding).shared);
    }
  }

  lemma ReaderCounts(m: Shared, pc: Pc, alive: bool)
    requires InsideEnvelope(pc)
    ensures Counts(m, Some(pc), ReaderStep(m, pc, alive))
  {
    hide Registrations, Answered, Withdrawals;
    SameSizes(m, ReaderStep(m, pc, alive).shared);
  }

  lemma TaskCounts(m: Shared, t: Tid, pc: Pc, reply: Reply, alive: bool)
    requires !pc.ControlSend? && !pc.Idle?
    requires pc.Calling? ==> Accounted(PoolOf(m, pc.req.kind))
    requires pc.Calling? && pc.phase == Numbered ==> pc.req.corr !in PoolOf(m, pc.req.kind).ledger.registered
    ensures Counts(m, Some(pc), TaskStep(m, t, pc, reply, alive))
  {
    hide Accounted, CallerStep, ReaderStep, Terminate, Registrations, Answered, Withdrawals;
    if InsideEnvelope(pc) {
      ReaderCounts(m, pc, alive);
    } else if pc.Calling? {
      CallerCounts(m, t, pc.phase, pc.req, reply);
    } else if pc.Term? {
      TerminateCounts(m, t, pc.stage, pc.holding);
    } else {
      SameSizes(m, TaskStep(m, t, pc, reply, alive).shared);
    }
  }

  lemma ResponseCounts(m: Shared, corr: nat, ok: bool)
    requires Accounted(PoolOf(m, Invocation))
    ensures Counts(m, Some(Idle), GotResponse(m, corr, ok))
  {
    hide Registrations, Withdrawals;
    var p, m' := PoolOf(m, Invocation), GotResponse(m, corr, ok).shared;
    SizeWith(p.ledger.answered, corr);
    assert corr in p.pending ==> corr in p.pending.Keys;
    OtherSizes(m, m');
  }

  lemma OtherSizes(m: Shared, m': Shared)
    requires PoolOf(m', Invocation).ledger.registered == PoolOf(m, Invocation).ledger.registered
    requires forall k :: PoolOf(m', k).ledger.withdrawn == PoolOf(m, k).ledger.withdrawn
    ensures Registrations(m') == Registrations(m) && Withdrawals(m') == Withdrawals(m)
  {
    hide PoolOf;
  }

  lemma ServerCounts(m: Shared, a: Action)
    requires FromServer(a) && Accounted(PoolOf(m, Invocation))
    ensures Counts(m, Some(Idle), FromServerEffect(m, a))
  {
    hide Accounted, Registrations, Answered, Withdrawals, GotResponse;
    if a.Response? {
      ResponseCounts(m, a.corr, a.ok);
    } else {
      ServerKeepsSizes(m, a);
    }
  }

  lemma ServerKeepsSizes(m: Shared, a: Action)
    requires FromServer(a) && !a.Response?
    ensures var m' := FromServerEffect(m, a).shared;
            Registrations(m') == Registrations(m) && Answered(m') == Answered(m) && Withdrawals(m') == Withdrawals(m)
  {
  }

  lemma StepCounts(s: State, a: Action)
    requires Enabled(s, a) && Owned(s) && Booked(s)
    ensures Counts(s.shared, PcOf(s.threads.tasks, Actor(a)), EffectOf(s, a))
  {
    hide Counts, Accounted, TaskStep, FromServerEffect, Owned;
    if FromServer(a) {
      ServerCounts(s.shared, a);
    } else if a.Advance? {
      var pc := s.threads.tasks[a.t];
      if pc.Calling? {
        assert Unused(s.shared, s.threads.tasks, pc.req.kind);
      }
      TaskCounts(s.shared, a.t, pc, ReplyOf(s.threads, a.t), Alive(s.threads, pc));
    } else {
      if a.t == s.threads.spawned {
        NewcomerIsFresh(s, a.t);
      }
      LocalCounts(s, a);
    }
  }

  lemma LocalCounts(s: State, a: Action)
    requires Enabled(s, a) && !FromServer(a) && !a.Advance?
    requires a.t == s.threads.spawned ==> a.t !in s.threads.tasks
    ensures Counts(s.shared, PcOf(s.threads.tasks, a.t), EffectOf(s, a))
  {
    hide TaskStep, FromServerEffect, Registrations, Answered, Withdrawals;
    var e := EffectOf(s, a);
    LocalKeepsPools(s, a);
    SameSizes(s.shared, e.shared);
  }

  // ---------------------------------------------------------------- every run

  /** Every registered invocation is submitted or about to be counted; every invocation answered
      with success is completed, and every other answered one failed, or the reader is about to say
      so; failed control messages count as failures too; and cancellations are counted. */
  ghost predicate Counted(s: State) {
    var n := s.shared.metrics;
    n.submitted + |Where(s.threads.tasks, Uncounted)| == Registrations(s.shared) &&
    n.completed + One(IsAnswering(PcOf(s.threads.tasks, READER), true)) == s.shared.log.notes.goodAnswers &&
    n.failed + One(IsAnswering(PcOf(s.threads.tasks, READER), false)) ==
      Answered(s.shared) - s.shared.log.notes.goodAnswers + s.shared.log.failedSends &&
    n.cancelled == Withdrawals(s.shared)
  }

  lemma UncountedAfter(tasks: map<Tid, Pc>, t: Tid, next: Option<Pc>)
    ensures |Where(Moved(tasks, t, next), Uncounted)| ==
            |Where(tasks, Uncounted)| - One(IsUncounted(PcOf(tasks, t))) + One(IsUncounted(next))
  {
    if next.Some? {
      WhereUpdate(tasks, t, next.value, Uncounted);
    } else {
      WhereRemove(tasks, t, Uncounted);
    }
  }

  lemma StepCounted(s: State, a: Action)
    requires Enabled(s, a) && Owned(s) && Booked(s) && Counted(s)
    ensures Counted(Step(s, a))
  {
    hide EffectOf, Registrations, Answered, Withdrawals, Booked, AllBacked, Answers, Numbers;
    var t, e := Actor(a), EffectOf(s, a);
    StepCounts(s, a);
    StepIsTidy(s, a);
    UncountedAfter(s.threads.tasks, t, e.next);
    assert t != READER ==> forall ok :: !IsAnswering(e.next, ok) && !IsAnswering(PcOf(s.threads.tasks, t), ok);
  }

  lemma RunCounted(max: Limits, states: seq<State>, actions: seq<Action>)
    requires IsRun(max, states, actions)
    ensures forall i | 0 <= i < |states| :: Counted(states[i])
  {
    hide Owned, Booked, Counted, Step;
    RunOwned(max, states, actions);
    RequestsEndOnce(max, states, actions);
    InitCounted(max);
    for i := 0 to |actions|
      invariant forall j | 0 <= j <= i :: Counted(states[j])
    {
      StepCounted(states[i], actions[i]);
    }
  }

  lemma InitCounted(max: Limits)
    ensures Counted(Init(max))
  {
    assert Where(map[READER := Idle], Uncounted) == {};
  }

  /** In every state of every run, submitted invocations are pending, answered, withdrawn or
      drained, up to those registered but not counted yet. */
  lemma SubmittedIsAccountedFor(max: Limits, states: seq<State>, actions: seq<Action>, i: nat)
    requires IsRun(max, states, actions) && i < |states|
    ensures var s, l := states[i], PoolOf(states[i].shared, Invocation).ledger;
            s.shared.metrics.submitted + |Where(s.threads.tasks, Uncounted)| ==
            |Pend(s.shared, Invocation)| + |l.answered| + |l.withdrawn| + |l.drained|
  {
    hide Owned, Counted, IsRun;
    RunCounted(max, states, actions);
    RequestsEndOnce(max, states, actions);
    LedgerSizes(PoolOf(states[i].shared, Invocation));
    CountedHere(states[i]);
  }

  lemma CountedHere(s: State)
    requires Counted(s)
    ensures s.shared.metrics.submitted + |Where(s.threads.tasks, Uncounted)| == |PoolOf(s.shared, Invocation).ledger.registered|
  {
  }

  lemma LedgerSizes(p: Pool)
    requires Accounted(p)
    ensures |p.ledger.registered| == |p.pending| + |p.ledger.answered| + |p.ledger.withdrawn| + |p.ledger.drained|
  {
    var l := p.ledger;
    assert |p.pending.Keys + l.answered| == |p.pending| + |l.answered|;
    assert |p.pending.Keys + l.answered + l.withdrawn| == |p.pending| + |l.answered| + |l.withdrawn|;
  }
}
