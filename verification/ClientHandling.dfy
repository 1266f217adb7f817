/** How the reader handles the acknowledgement of a pending session, whatever the other tasks do
    meanwhile, and which acknowledgements leave the client stuck. The conditions are about messages,
    receivers, ids and send outcomes; none mentions a program counter. */
module ClientHandling {
  import opened Words
  import opened ClientRuntime
  import opened ClientOwnership
  import opened ClientClose
  import opened ClientDeadlock
  import opened ClientScenario

  datatype Trace = Trace(states: seq<State>, actions: seq<Action>)

  ghost predicate IsTrace(max: Limits, r: Trace) {
    IsRun(max, r.states, r.actions)
  }

  // ---------------------------------------------------------------- the reader's steps

  /** The reader takes no step strictly between `a` and `b`. */
  ghost predicate Quiet(r: Trace, a: nat, b: nat) {
    forall x | a < x < b && x < |r.actions| :: Actor(r.actions[x]) != READER
  }

  /** Step `b` is the reader's next one after `a`. */
  ghost predicate Next(r: Trace, a: nat, b: nat) {
    a < b < |r.actions| && Actor(r.actions[b]) == READER && Quiet(r, a, b)
  }

  /** Step `j` takes up a message that acknowledges a pending session. */
  predicate Delivers(r: Trace, j: nat) {
    j < |r.actions| && j < |r.states| && r.actions[j].SessionMessage? && r.actions[j].corr in Pend(r.states[j].shared, Session)
  }

  predicate IsValid(a: Action) {
    a.SessionMessage? && a.sessId != [] && a.fence != 0
  }

  function IdAt(r: Trace, j: nat): Id
    requires Delivers(r, j)
  {
    SessId(r.actions[j].sessId)
  }

  /** The caller whose session it is. */
  function CallerAt(r: Trace, j: nat): Tid
    requires Delivers(r, j)
  {
    Pend(r.states[j].shared, Session)[r.actions[j].corr].owner
  }

  // ---------------------------------------------------------------- what can go wrong

  /** The acknowledgement has no session id or no fence; the reader says so at `a`. */
  ghost predicate Malformed(r: Trace, j: nat, a: nat) {
    Delivers(r, j) && !IsValid(r.actions[j]) && Next(r, j, a)
  }

  /** The acknowledgement is valid and is accepted at `a`; at `b` its caller has no receiver left. */
  ghost predicate Deserted(r: Trace, j: nat, a: nat, b: nat) {
    Delivers(r, j) && IsValid(r.actions[j]) && Next(r, j, a) && Next(r, a, b) && b < |r.states| &&
    CallerAt(r, j) !in r.states[b].threads.slots
  }

  /** The reader gives the session up at `c`, while it is still active. */
  ghost predicate GivenUp(r: Trace, j: nat, a: nat, b: nat, c: nat) {
    Deserted(r, j, a, b) && Next(r, b, c) && c < |r.states| && IdAt(r, j) in Active(r.states[c].shared, Session)
  }

  /** No correlation id is left for telling the server. */
  ghost predicate Exhausted(r: Trace, j: nat, a: nat, b: nat, c: nat, d: nat) {
    GivenUp(r, j, a, b, c) && Next(r, c, d) && d < |r.states| && r.states[d].shared.corr >= U64_MAX
  }

  /** The queue refuses the message to the server while the client is open. */
  ghost predicate Refused(r: Trace, j: nat, a: nat, b: nat, c: nat, d: nat, e: nat) {
    GivenUp(r, j, a, b, c) && Next(r, c, d) && d < |r.states| && r.states[d].shared.corr < U64_MAX &&
    Next(r, d, e) && e < |r.states| && r.actions[e] == ControlOutcome(READER, false) && !r.states[e].shared.closed
  }

  /** At `l` the handling of an acknowledgement failed in one of these ways. */
  ghost predicate Failed(r: Trace, l: nat) {
    (exists j :: Malformed(r, j, l)) ||
    (exists j, a, b, c :: Exhausted(r, j, a, b, c, l)) ||
    (exists j, a, b, c, d :: Refused(r, j, a, b, c, d, l))
  }

  /** ... and at the reader's next step the client is still open. */
  ghost predicate FailsOpen(r: Trace, l: nat, k: nat) {
    Failed(r, l) && Next(r, l, k) && k < |r.states| && !r.states[k].shared.closed
  }

  // ---------------------------------------------------------------- one step of the reader

  /** Where a reader that is not idle goes. */
  function Onward(m: Shared, h: Threads, a: Action, pc: Pc): Pc {
    match pc
    case Taken(owner, ack, _, valid) => if valid then Activated(owner, ack) else Term(0, Some(KindOf(ack)))
    case Activated(owner, ack) => if owner in h.slots then Idle else Closing(ack)
    case Closing(id) => if id in Active(m, KindOf(id)) then Control(EndOf(id)) else Idle
    case Control(notice) => if m.corr >= U64_MAX then Term(0, None) else ControlSend(notice)
    case ControlSend(_) => if m.closed || a != ControlOutcome(READER, false) then Idle else Term(0, None)
    case Term(stage, holding) =>
      if stage == 0 then (if m.closed then Idle else Term(1, holding))
      else if stage <= 4 then Term(stage + 1, holding)
      else Idle
    case Answering(owner, ok) => Replying(owner, ok)
    case _ => Idle
  }

  lemma ReaderGoes(s: State, a: Action)
    requires Enabled(s, a) && Owned(s) && Actor(a) == READER && !FromServer(a)
    ensures READER in s.threads.tasks &&
            var pc, h' := s.threads.tasks[READER], Step(s, a).threads;
            var next := Onward(s.shared, s.threads, a, pc);
            !pc.Idle? && READER in h'.tasks && h'.tasks[READER] == next &&
            h'.lockHolder == (if next.Idle? then None else s.threads.lockHolder)
  {
    hide PoolOf, WithPool, Unhold, Forget, Drain;
    NewcomersAreNotReader(s);
    DrainGoesOn(s.shared);
  }

  lemma DrainGoesOn(m: Shared)
    ensures forall stage: nat, holding :: Drain(m, stage, holding).next == Some(Term(stage + 1, holding))
  {
  }

  // ---------------------------------------------------------------- following the reader

  /** The reader is at `pc` in state `n` and holds the mutex. */
  predicate Holds(r: Trace, n: nat, pc: Pc) {
    n < |r.states| && PcOf(r.states[n].threads.tasks, READER) == Some(pc) && UnderLock(r.states[n].threads)
  }

  /** While the reader takes no step it stays where it is. */
  lemma Steady(max: Limits, r: Trace, x: nat, n: nat, pc: Pc)
    requires IsTrace(max, r) && x < n < |r.states| && Quiet(r, x, n) && Holds(r, x + 1, pc)
    ensures Holds(r, n, pc)
  {
    hide Owned, Step;
    RunOwned(max, r.states, r.actions);
    for y := x + 1 to n
      invariant Holds(r, y, pc)
    {
      assert Enabled(r.states[y], r.actions[y]) && r.states[y + 1] == Step(r.states[y], r.actions[y]);
      OthersKeepReader(r.states[y], r.actions[y]);
    }
  }

  /** The reader's next step. */
  lemma Follow(max: Limits, r: Trace, x: nat, n: nat, pc: Pc)
    requires IsTrace(max, r) && Next(r, x, n) && Holds(r, x + 1, pc) && !pc.Idle?
    ensures n + 1 < |r.states| && Holds(r, n, pc)
    ensures var next := Onward(r.states[n].shared, r.states[n].threads, r.actions[n], pc);
            if next.Idle? then ReaderIdle(r.states[n + 1].threads) && r.states[n + 1].threads.lockHolder == None
            else Holds(r, n + 1, next)
  {
    hide Owned, Step, Onward;
    RunOwned(max, r.states, r.actions);
    Steady(max, r, x, n, pc);
    assert Enabled(r.states[n], r.actions[n]) && r.states[n + 1] == Step(r.states[n], r.actions[n]);
    ReaderGoes(r.states[n], r.actions[n]);
  }

  lemma TookUp(max: Limits, r: Trace, j: nat)
    requires IsTrace(max, r) && Delivers(r, j)
    ensures Holds(r, j + 1, Taken(CallerAt(r, j), IdAt(r, j), r.actions[j].fence, IsValid(r.actions[j])))
  {
    assert Enabled(r.states[j], r.actions[j]) && r.states[j + 1] == Step(r.states[j], r.actions[j]);
    TakenUp(r.states[j], r.actions[j]);
  }

  lemma TakenUp(s: State, a: Action)
    requires Enabled(s, a) && a.SessionMessage? && a.corr in Pend(s.shared, Session)
    ensures var h' := Step(s, a).threads;
            UnderLock(h') && PcOf(h'.tasks, READER) ==
              Some(Taken(Pend(s.shared, Session)[a.corr].owner, SessId(a.sessId), a.fence, IsValid(a)))
  {
  }

  lemma MalformedThen(max: Limits, r: Trace, j: nat, a: nat)
    requires IsTrace(max, r) && Malformed(r, j, a)
    ensures Holds(r, a + 1, Term(0, Some(Session)))
  {
    hide IsTrace;
    TookUp(max, r, j);
    Follow(max, r, j, a, Taken(CallerAt(r, j), IdAt(r, j), r.actions[j].fence, false));
  }

  lemma AcceptedThen(max: Limits, r: Trace, j: nat, a: nat)
    requires IsTrace(max, r) && Delivers(r, j) && IsValid(r.actions[j]) && Next(r, j, a)
    ensures Holds(r, a + 1, Activated(CallerAt(r, j), IdAt(r, j)))
  {
    hide IsTrace;
    TookUp(max, r, j);
    Follow(max, r, j, a, Taken(CallerAt(r, j), IdAt(r, j), r.actions[j].fence, true));
  }

  lemma DesertedThen(max: Limits, r: Trace, j: nat, a: nat, b: nat)
    requires IsTrace(max, r) && Deserted(r, j, a, b)
    ensures Holds(r, b + 1, Closing(IdAt(r, j)))
  {
    hide IsTrace;
    AcceptedThen(max, r, j, a);
    Follow(max, r, a, b, Activated(CallerAt(r, j), IdAt(r, j)));
  }

  lemma GivenUpThen(max: Limits, r: Trace, j: nat, a: nat, b: nat, c: nat)
    requires IsTrace(max, r) && GivenUp(r, j, a, b, c)
    ensures Delivers(r, j) && Holds(r, c + 1, Control(EndOf(IdAt(r, j))))
  {
    hide IsTrace, Deserted, Active;
    assert Delivers(r, j) by {
      DesertedDelivers(r, j, a, b);
    }
    DesertedThen(max, r, j, a, b);
    Follow(max, r, b, c, Closing(IdAt(r, j)));
  }

  lemma DesertedDelivers(r: Trace, j: nat, a: nat, b: nat)
    requires Deserted(r, j, a, b)
    ensures Delivers(r, j)
  {
  }

  lemma FailedThen(max: Limits, r: Trace, l: nat) returns (holding: Option<Kind>)
    requires IsTrace(max, r) && Failed(r, l)
    ensures Holds(r, l + 1, Term(0, holding))
  {
    hide IsTrace, GivenUp;
    holding := None;
    if j :| Malformed(r, j, l) {
      MalformedThen(max, r, j, l);
      holding := Some(Session);
    } else if j, a, b, c :| Exhausted(r, j, a, b, c, l) {
      GivenUpThen(max, r, j, a, b, c);
      Follow(max, r, c, l, Control(EndOf(IdAt(r, j))));
    } else {
      var j, a, b, c, d :| Refused(r, j, a, b, c, d, l);
      GivenUpThen(max, r, j, a, b, c);
      Follow(max, r, c, d, Control(EndOf(IdAt(r, j))));
      Follow(max, r, d, l, ControlSend(EndOf(IdAt(r, j))));
    }
  }

  /** Once handling has failed, the reader's next step decides: an open client gets stuck, a closed
      one is left alone and the mutex is released. */
  lemma FailureDecides(max: Limits, r: Trace, l: nat, k: nat)
    requires IsTrace(max, r) && Failed(r, l) && Next(r, l, k)
    ensures k + 1 < |r.states|
    ensures if r.states[k].shared.closed then ReaderIdle(r.states[k + 1].threads) && r.states[k + 1].threads.lockHolder == None
            else Wedged(r.states[k + 1])
  {
    hide IsTrace, Failed;
    var holding := FailedThen(max, r, l);
    Follow(max, r, l, k, Term(0, holding));
  }

  // ---------------------------------------------------------------- every stuck client has such a cause

  ghost predicate JustTaken(r: Trace, j: nat, n: nat, owner: Tid, ack: Id, valid: bool) {
    Delivers(r, j) && j < n && Quiet(r, j, n) && owner == CallerAt(r, j) && ack == IdAt(r, j) && valid == IsValid(r.actions[j])
  }

  ghost predicate JustAccepted(r: Trace, j: nat, a: nat, n: nat, owner: Tid, ack: Id) {
    Delivers(r, j) && IsValid(r.actions[j]) && Next(r, j, a) && a < n && Quiet(r, a, n) &&
    owner == CallerAt(r, j) && ack == IdAt(r, j)
  }

  ghost predicate JustDeserted(r: Trace, j: nat, a: nat, b: nat, n: nat, id: Id) {
    Deserted(r, j, a, b) && b < n && Quiet(r, b, n) && id == IdAt(r, j)
  }

  ghost predicate JustGivenUp(r: Trace, j: nat, a: nat, b: nat, c: nat, n: nat) {
    GivenUp(r, j, a, b, c) && c < n && Quiet(r, c, n)
  }

  ghost predicate JustNumbered(r: Trace, j: nat, a: nat, b: nat, c: nat, d: nat, n: nat) {
    GivenUp(r, j, a, b, c) && Next(r, c, d) && d < |r.states| && r.states[d].shared.corr < U64_MAX && d < n && Quiet(r, d, n)
  }

  ghost predicate JustFailed(r: Trace, l: nat, n: nat) {
    Failed(r, l) && l < n && Quiet(r, l, n)
  }

  ghost predicate FailedOpenBefore(r: Trace, l: nat, k: nat, n: nat) {
    FailsOpen(r, l, k) && k < n
  }

  /** Why the reader is where it is while it holds the mutex. */
  ghost predicate Explained(r: Trace, n: nat, pc: Pc) {
    match pc
    case Taken(owner, ack, _, valid) => exists j :: JustTaken(r, j, n, owner, ack, valid)
    case Activated(owner, ack) => exists j, a :: JustAccepted(r, j, a, n, owner, ack)
    case Closing(id) => exists j, a, b :: JustDeserted(r, j, a, b, n, id)
    case Control(_) => exists j, a, b, c :: JustGivenUp(r, j, a, b, c, n)
    case ControlSend(_) => exists j, a, b, c, d :: JustNumbered(r, j, a, b, c, d, n)
    case Term(stage, _) => if stage == 0 then exists l :: JustFailed(r, l, n) else exists l, k :: FailedOpenBefore(r, l, k, n)
    case _ => false
  }

  lemma QuietGrows(r: Trace, x: nat, n: nat)
    requires x < n < |r.actions| && Quiet(r, x, n) && Actor(r.actions[n]) != READER
    ensures Quiet(r, x, n + 1)
  {
  }

  /** The explanation stands while other tasks move. */
  lemma ExplainedStays(r: Trace, n: nat, pc: Pc)
    requires n < |r.actions| && Actor(r.actions[n]) != READER && Explained(r, n, pc)
    ensures Explained(r, n + 1, pc)
  {
    hide Deserted, GivenUp, Failed, FailsOpen, Quiet, Next, Delivers, IsValid;
    match pc
    case Taken(owner, ack, _, valid) =>
      var j :| JustTaken(r, j, n, owner, ack, valid);
      QuietGrows(r, j, n);
      assert JustTaken(r, j, n + 1, owner, ack, valid);
    case Activated(owner, ack) =>
      var j, a :| JustAccepted(r, j, a, n, owner, ack);
      QuietGrows(r, a, n);
      assert JustAccepted(r, j, a, n + 1, owner, ack);
    case Closing(id) =>
      var j, a, b :| JustDeserted(r, j, a, b, n, id);
      QuietGrows(r, b, n);
      assert JustDeserted(r, j, a, b, n + 1, id);
    case Control(_) =>
      var j, a, b, c :| JustGivenUp(r, j, a, b, c, n);
      QuietGrows(r, c, n);
      assert JustGivenUp(r, j, a, b, c, n + 1);
    case ControlSend(_) =>
      var j, a, b, c, d :| JustNumbered(r, j, a, b, c, d, n);
      QuietGrows(r, d, n);
      assert JustNumbered(r, j, a, b, c, d, n + 1);
    case Term(stage, _) =>
      if stage == 0 {
        var l :| JustFailed(r, l, n);
        QuietGrows(r, l, n);
        assert JustFailed(r, l, n + 1);
      } else {
        var l, k :| FailedOpenBefore(r, l, k, n);
        assert FailedOpenBefore(r, l, k, n + 1);
      }
  }

  /** The reader's own step explains where it goes. */
  ghost predicate Explains(r: Trace, n: nat, pc: Pc)
    requires n < |r.actions| && n < |r.states|
  {
    var next := Onward(r.states[n].shared, r.states[n].threads, r.actions[n], pc);
    next.Idle? || Explained(r, n + 1, next)
  }

  ghost predicate ReaderMovesAt(r: Trace, n: nat) {
    n < |r.actions| && n < |r.states| && Actor(r.actions[n]) == READER
  }

  lemma TakenNext(r: Trace, n: nat, pc: Pc)
    requires ReaderMovesAt(r, n) && pc.Taken? && Explained(r, n, pc)
    ensures Explains(r, n, pc)
  {
    hide Delivers;
    var j :| JustTaken(r, j, n, pc.owner, pc.ack, pc.valid);
    assert Next(r, j, n);
    if pc.valid {
      assert JustAccepted(r, j, n, n + 1, pc.owner, pc.ack);
    } else {
      assert Malformed(r, j, n);
      assert JustFailed(r, n, n + 1);
    }
  }

  lemma ActivatedNext(r: Trace, n: nat, pc: Pc)
    requires ReaderMovesAt(r, n) && pc.Activated? && Explained(r, n, pc)
    ensures Explains(r, n, pc)
  {
    hide Delivers;
    var j, a :| JustAccepted(r, j, a, n, pc.owner, pc.ack);
    assert Next(r, a, n);
    assert pc.owner in r.states[n].threads.slots || JustDeserted(r, j, a, n, n + 1, pc.ack);
  }

  lemma ClosingNext(r: Trace, n: nat, pc: Pc)
    requires ReaderMovesAt(r, n) && pc.Closing? && Explained(r, n, pc)
    ensures Explains(r, n, pc)
  {
    hide Active;
    var j, a, b :| JustDeserted(r, j, a, b, n, pc.id);
    assert Next(r, b, n);
    assert pc.id !in Active(r.states[n].shared, Session) || JustGivenUp(r, j, a, b, n, n + 1);
  }

  lemma ControlNext(r: Trace, n: nat, pc: Pc)
    requires ReaderMovesAt(r, n) && pc.Control? && Explained(r, n, pc)
    ensures Explains(r, n, pc)
  {
    hide GivenUp;
    var j, a, b, c :| JustGivenUp(r, j, a, b, c, n);
    assert Next(r, c, n);
    if r.states[n].shared.corr >= U64_MAX {
      assert Exhausted(r, j, a, b, c, n);
      assert JustFailed(r, n, n + 1);
    } else {
      assert JustNumbered(r, j, a, b, c, n, n + 1);
    }
  }

  lemma SendNext(r: Trace, n: nat, pc: Pc)
    requires ReaderMovesAt(r, n) && pc.ControlSend? && Explained(r, n, pc)
    ensures Explains(r, n, pc)
  {
    hide GivenUp;
    var j, a, b, c, d :| JustNumbered(r, j, a, b, c, d, n);
    assert Next(r, d, n);
    if !r.states[n].shared.closed && r.actions[n] == ControlOutcome(READER, false) {
      assert Refused(r, j, a, b, c, d, n);
      assert JustFailed(r, n, n + 1);
    }
  }

  lemma TermNext(r: Trace, n: nat, pc: Pc)
    requires ReaderMovesAt(r, n) && pc.Term? && Explained(r, n, pc)
    ensures Explains(r, n, pc)
  {
    hide Failed;
    if pc.stage == 0 {
      var l :| JustFailed(r, l, n);
      assert Next(r, l, n);
      assert r.states[n].shared.closed || FailedOpenBefore(r, l, n, n + 1);
    } else {
      var l, k :| FailedOpenBefore(r, l, k, n);
      assert FailedOpenBefore(r, l, k, n + 1);
    }
  }

  lemma ExplainedNext(r: Trace, n: nat, pc: Pc)
    requires ReaderMovesAt(r, n) && Explained(r, n, pc)
    ensures Explains(r, n, pc)
  {
    hide Explains;
    match pc
    case Taken(_, _, _, _) => TakenNext(r, n, pc);
    case Activated(_, _) => ActivatedNext(r, n, pc);
    case Closing(_) => ClosingNext(r, n, pc);
    case Control(_) => ControlNext(r, n, pc);
    case ControlSend(_) => SendNext(r, n, pc);
    case Term(_, _) => TermNext(r, n, pc);
  }

  /** The mutex is taken only with an acknowledgement of a pending session. */
  lemma LockIsTaken(s: State, a: Action)
    requires Enabled(s, a) && Owned(s) && FromServer(a) && s.threads.lockHolder == None
    ensures UnderLock(Step(s, a).threads) ==> a.SessionMessage? && a.corr in Pend(s.shared, Session)
  {
    hide PoolOf, WithPool;
  }

  lemma IdleIsUnlocked(max: Limits, states: seq<State>, actions: seq<Action>)
    requires IsRun(max, states, actions)
    ensures forall i | 0 <= i < |states| :: ReaderIdle(states[i].threads) ==> states[i].threads.lockHolder == None
  {
    hide Owned, Step;
    RunOwned(max, states, actions);
    for i := 0 to |actions|
      invariant forall j | 0 <= j <= i :: ReaderIdle(states[j].threads) ==> states[j].threads.lockHolder == None
    {
      IdleStaysUnlocked(states[i], actions[i]);
    }
  }

  lemma IdleStaysUnlocked(s: State, a: Action)
    requires Enabled(s, a) && Owned(s) && (ReaderIdle(s.threads) ==> s.threads.lockHolder == None)
    ensures ReaderIdle(Step(s, a).threads) ==> Step(s, a).threads.lockHolder == None
  {
    hide EffectOf, Owned;
    if Actor(a) != READER {
      OthersKeepReader(s, a);
    }
  }

  ghost predicate Story(r: Trace, n: nat)
    requires n < |r.states|
  {
    UnderLock(r.states[n].threads) ==>
      READER in r.states[n].threads.tasks && Explained(r, n, r.states[n].threads.tasks[READER])
  }

  lemma StoryGoesOn(max: Limits, r: Trace, n: nat)
    requires IsTrace(max, r) && n < |r.actions| && Story(r, n)
    ensures Story(r, n + 1)
  {
    hide Owned, Step, Explained, Onward;
    RunOwned(max, r.states, r.actions);
    IdleIsUnlocked(max, r.states, r.actions);
    var s, a := r.states[n], r.actions[n];
    assert Enabled(s, a) && r.states[n + 1] == Step(s, a);
    if Actor(a) != READER {
      OthersKeepReader(s, a);
      if UnderLock(s.threads) {
        ExplainedStays(r, n, s.threads.tasks[READER]);
      }
    } else if FromServer(a) {
      ReaderWasIdle(s, a);
      LockIsTaken(s, a);
      if UnderLock(r.states[n + 1].threads) {
        TakenUp(s, a);
        TakenIsExplained(r, n);
      }
    } else {
      ReaderGoes(s, a);
      if UnderLock(s.threads) {
        ExplainedNext(r, n, s.threads.tasks[READER]);
      }
    }
  }

  lemma ReaderWasIdle(s: State, a: Action)
    requires Enabled(s, a) && FromServer(a)
    ensures ReaderIdle(s.threads)
  {
  }

  lemma TakenIsExplained(r: Trace, n: nat)
    requires Delivers(r, n)
    ensures Explained(r, n + 1, Taken(CallerAt(r, n), IdAt(r, n), r.actions[n].fence, IsValid(r.actions[n])))
  {
    assert JustTaken(r, n, n + 1, CallerAt(r, n), IdAt(r, n), IsValid(r.actions[n]));
  }

  /** In every run, the client is stuck if and only if the handling of some earlier acknowledgement
      of a pending session failed and the client was still open at the reader's next step: the
      acknowledgement had no id or no fence; or it was valid, its caller's receiver was gone, the
      session was still active, and telling the server failed because no correlation id was left or
      the queue refused. */
  lemma StuckExactly(max: Limits, r: Trace, i: nat)
    requires IsTrace(max, r) && i < |r.states|
    ensures Wedged(r.states[i]) <==> exists l: nat, k: nat :: FailsOpen(r, l, k) && k < i
  {
    hide Failed, Explained, Story;
    StoryBegins(max, r);
    for n := 0 to i
      invariant Story(r, n)
    {
      StoryGoesOn(max, r, n);
    }
    if Wedged(r.states[i]) {
      WedgedHasCause(r, i);
    }
    if l: nat, k: nat :| FailsOpen(r, l, k) && k < i {
      FailureDecides(max, r, l, k);
      StaysWedged(max, r, k + 1, i);
    }
  }

  lemma StoryBegins(max: Limits, r: Trace)
    requires IsTrace(max, r)
    ensures Story(r, 0)
  {
  }

  lemma WedgedHasCause(r: Trace, i: nat)
    requires i < |r.states| && Story(r, i) && Wedged(r.states[i])
    ensures exists l: nat, k: nat :: FailsOpen(r, l, k) && k < i
  {
    hide FailsOpen;
    var l, k :| FailedOpenBefore(r, l, k, i);
  }

  lemma StaysWedged(max: Limits, r: Trace, i: nat, j: nat)
    requires IsTrace(max, r) && i <= j < |r.states| && Wedged(r.states[i])
    ensures Wedged(r.states[j])
  {
    WedgedIsStuck(max, r.states, r.actions, i, j, READER);
  }

  // ---------------------------------------------------------------- single messages

  /** An acknowledgement without id or fence, whatever happens between the reader's steps: at its
      second step the client gets stuck if it is open; if someone has closed it, the reader returns
      and releases the mutex. */
  lemma InvalidAckDecides(max: Limits, r: Trace, j: nat, a: nat, k: nat)
    requires IsTrace(max, r) && Malformed(r, j, a) && Next(r, a, k)
    ensures k + 1 < |r.states|
    ensures if r.states[k].shared.closed then ReaderIdle(r.states[k + 1].threads) && r.states[k + 1].threads.lockHolder == None
            else Wedged(r.states[k + 1])
  {
    FailureDecides(max, r, a, k);
  }

  /** A valid acknowledgement whose caller has its receiver when the reader answers: the caller gets
      the id, and the mutex is released. */
  lemma ValidAckReleases(max: Limits, r: Trace, j: nat, a: nat, b: nat)
    requires IsTrace(max, r) && Delivers(r, j) && IsValid(r.actions[j]) && Next(r, j, a) && Next(r, a, b)
    requires b < |r.states| && CallerAt(r, j) in r.states[b].threads.slots
    ensures b + 1 < |r.states| && ReaderIdle(r.states[b + 1].threads) && r.states[b + 1].threads.lockHolder == None
    ensures CallerAt(r, j) in r.states[b + 1].threads.slots &&
            r.states[b + 1].threads.slots[CallerAt(r, j)] == Filled(Ack(IdAt(r, j)))
  {
    hide Delivers, Step, Owned, Next, Enabled, IsValid;
    AcceptedThen(max, r, j, a);
    Follow(max, r, a, b, Activated(CallerAt(r, j), IdAt(r, j)));
    NextIsStep(max, r, a, b);
    RunOwned(max, r.states, r.actions);
    AckFillsSlot(r.states[b], r.actions[b], CallerAt(r, j), IdAt(r, j));
  }

  lemma NextIsStep(max: Limits, r: Trace, a: nat, b: nat)
    requires IsTrace(max, r) && Next(r, a, b)
    ensures b + 1 < |r.states| && Actor(r.actions[b]) == READER
    ensures Enabled(r.states[b], r.actions[b]) && r.states[b + 1] == Step(r.states[b], r.actions[b])
  {
    hide Step, Enabled;
  }

  lemma AckFillsSlot(s: State, a: Action, owner: Tid, id: Id)
    requires Enabled(s, a) && Owned(s) && Actor(a) == READER && owner in s.threads.slots
    requires PcOf(s.threads.tasks, READER) == Some(Activated(owner, id))
    ensures var slots := Step(s, a).threads.slots; owner in slots && slots[owner] == Filled(Ack(id))
  {
    hide PoolOf, WithPool;
    NewcomersAreNotReader(s);
  }

  // ---------------------------------------------------------------- both can happen

  /** A reader that does not answer anybody takes a step. */
  lemma ReaderSteps(max: Limits, s: State, m: Shared, pc: Pc, t: Tid, caller: Pc, slots: map<Tid, Slot>, orphans: set<Id>)
    returns (s': State)
    requires Reachable(max, s) && Pair(s, m, pc, t, caller, slots, Some(READER), orphans)
    requires pc.Closing? || pc.Control? || (pc.Term? && pc.stage == 0) || (pc.Activated? && pc.owner !in slots)
    requires var e := TaskStep(m, READER, pc, Failure, false); e.op.Keep? && e.next.Some? && !e.next.value.Idle? && !e.next.value.Taken?
    ensures Reachable(max, s')
    ensures var e := TaskStep(m, READER, pc, Failure, false); Pair(s', e.shared, e.next.value, t, caller, slots, Some(READER), orphans)
  {
    hide TaskStep, Reachable;
    ReplyDoesNotMatter(m, pc, ReplyOf(s.threads, READER));
    s' := Step(s, Advance(READER));
    assert s'.threads.tasks == map[READER := TaskStep(m, READER, pc, Failure, false).next.value, t := caller];
    StepIsReachable(max, s, Advance(READER));
  }

  lemma ReplyDoesNotMatter(m: Shared, pc: Pc, reply: Reply)
    requires pc.Closing? || pc.Control? || pc.Term? || pc.Activated?
    ensures TaskStep(m, READER, pc, reply, false) == TaskStep(m, READER, pc, Failure, false)
  {
  }

  lemma PairIsWedged(s: State, m: Shared, holding: Option<Kind>, t: Tid, caller: Pc, slots: map<Tid, Slot>, orphans: set<Id>)
    requires Pair(s, m, Term(1, holding), t, caller, slots, Some(READER), orphans)
    ensures Wedged(s)
  {
  }

  /** The client is stuck after an acknowledgement without id or fence. */
  lemma InvalidAckIsReachable(max: Limits) returns (s: State)
    requires max.sessions >= 1
    ensures Reachable(max, s) && Wedged(s)
  {
    hide Reachable, Wedged, PoolOf, WithPool, Resting;
    StartIsResting(max);
    var s0, m0 := CallGetsPermit(max, Init(max), Init(max).shared, 1, {}, Session);
    var s1, m1 := CallRegisters(max, s0, m0, 1, {}, Request(Session, 0, 0));
    var q := Request(Session, 1, 0);
    var s2, m2 := InvalidAckIsTaken(max, s1, m1, q);
    var s3 := ReaderSteps(max, s2, m2, Term(0, Some(Session)), 1, Calling(Registered, q), map[1 := Filled(Failure)], {});
    PairIsWedged(s3, s3.shared, Some(Session), 1, Calling(Registered, q), map[1 := Filled(Failure)], {});
    s := s3;
  }

  lemma InvalidAckIsTaken(max: Limits, s: State, m: Shared, q: Request) returns (s': State, m': Shared)
    requires Reachable(max, s) && Pair(s, m, Idle, 1, Calling(Registered, q), map[1 := Waiting], None, {}) && !m.closed
    requires 1 in Pend(m, Session) && Pend(m, Session)[1].owner == 1
    ensures Reachable(max, s') && !m'.closed
    ensures Pair(s', m', Term(0, Some(Session)), 1, Calling(Registered, q), map[1 := Filled(Failure)], Some(READER), {})
  {
    hide Reachable, PoolOf, WithPool, TakeUp;
    var a := SessionMessage(1, [], 0);
    var s1 := Step(s, a);
    m' := s1.shared;
    assert !m'.closed by {
      TakeUpKeepsClosed(m, 1, Failure);
    }
    assert s1.threads.tasks == map[READER := Taken(1, SessId([]), 0, false), 1 := Calling(Registered, q)];
    StepIsReachable(max, s, a);
    s' := InvalidAckIsAnswered(max, s1, m', q);
  }

  lemma TakeUpKeepsClosed(m: Shared, corr: nat, verdict: Reply)
    ensures TakeUp(m, Session, corr, verdict).closed == m.closed
  {
  }

  lemma InvalidAckIsAnswered(max: Limits, s: State, m: Shared, q: Request) returns (s': State)
    requires Reachable(max, s)
    requires Pair(s, m, Taken(1, SessId([]), 0, false), 1, Calling(Registered, q), map[1 := Waiting], Some(READER), {})
    ensures Reachable(max, s')
    ensures Pair(s', m, Term(0, Some(Session)), 1, Calling(Registered, q), map[1 := Filled(Failure)], Some(READER), {})
  {
    hide Reachable, PoolOf, WithPool;
    s' := Step(s, Advance(READER));
    assert s'.threads.tasks == map[READER := Term(0, Some(Session)), 1 := Calling(Registered, q)];
    assert s'.threads.slots == map[1 := Filled(Failure)];
    StepIsReachable(max, s, Advance(READER));
  }

  /** The client is stuck after a valid acknowledgement whose caller has just given up, when the
      queue refuses the message to the server. */
  lemma RefusedControlIsReachable(max: Limits, bytes: seq<Byte>) returns (s: State)
    requires max.sessions >= 1 && bytes != []
    ensures Reachable(max, s) && Wedged(s)
  {
    hide Reachable, Wedged, PoolOf, WithPool, Resting, Pair, TakeUp, Activate, TaskStep, CallerStep, Step;
    var id, q := SessId(bytes), Request(Session, 1, 0);
    var caller := Calling(Cancelling, q);
    StartIsResting(max);
    var s0, m0 := CallGetsPermit(max, Init(max), Init(max).shared, 1, {}, Session);
    var s1, m1 := CallRegisters(max, s0, m0, 1, {}, Request(Session, 0, 0));
    var s2, m2 := CallReceives(max, s1, m1, 1, {}, q);
    PoolsOnly(m1, m2, Session);
    var s3 := CallerGivesUp(max, s2, m2, q);
    var s4, m4 := AckIsTaken(max, s3, m2, 1, caller, map[], {}, q, id);
    var s5, m5 := AckIsAccepted(max, s4, m4, 1, caller, map[], {}, id);
    AckChanges(m2, q, id);
    s := RefusalWedges(max, s5, m5, caller, id);
  }

  lemma CallerGivesUp(max: Limits, s: State, m: Shared, q: Request) returns (s': State)
    requires Reachable(max, s) && Pair(s, m, Idle, 1, Calling(Receiving, q), map[1 := Waiting], None, {})
    ensures Reachable(max, s') && Pair(s', m, Idle, 1, Calling(Cancelling, q), map[], None, {})
  {
    hide Reachable;
    s' := Step(s, GiveUp(1));
    assert s'.threads.tasks == map[READER := Idle, 1 := Calling(Cancelling, q)];
    assert s'.threads.slots == map[];
    StepIsReachable(max, s, GiveUp(1));
  }

  lemma RefusalWedges(max: Limits, s: State, m: Shared, caller: Pc, id: Id) returns (s': State)
    requires Reachable(max, s) && Pair(s, m, Activated(1, id), 1, caller, map[], Some(READER), {})
    requires id in Active(m, KindOf(id)) && !m.closed && m.corr < U64_MAX
    ensures Reachable(max, s') && Wedged(s')
  {
    hide Reachable, Wedged, PoolOf, WithPool, Deactivate;
    var s1 := ReaderSteps(max, s, m, Activated(1, id), 1, caller, map[], {});
    var s2 := ReaderSteps(max, s1, m, Closing(id), 1, caller, map[], {});
    var m2 := Close(m, READER, id).shared;
    CloseKeeps(m, id);
    var s3 := ReaderSteps(max, s2, m2, Control(EndOf(id)), 1, caller, map[], {});
    var m3 := m2.(corr := m2.corr + 1);
    var s4 := ControlIsRefused(max, s3, m3, caller, EndOf(id));
    s' := ReaderSteps(max, s4, s4.shared, Term(0, None), 1, caller, map[], {});
    PairIsWedged(s', s'.shared, None, 1, caller, map[], {});
  }

  lemma CloseKeeps(m: Shared, id: Id)
    ensures Close(m, READER, id).shared.closed == m.closed && Close(m, READER, id).shared.corr == m.corr
  {
  }

  lemma ControlIsRefused(max: Limits, s: State, m: Shared, caller: Pc, notice: Notice)
    returns (s': State)
    requires Reachable(max, s) && Pair(s, m, ControlSend(notice), 1, caller, map[], Some(READER), {}) && !m.closed
    ensures Reachable(max, s') && !s'.shared.closed
    ensures Pair(s', s'.shared, Term(0, None), 1, caller, map[], Some(READER), {})
  {
    hide Reachable, PoolOf, WithPool;
    s' := Step(s, ControlOutcome(READER, false));
    assert s'.threads.tasks == map[READER := Term(0, None), 1 := caller];
    StepIsReachable(max, s, ControlOutcome(READER, false));
  }
}
