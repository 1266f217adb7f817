/** Being wedged is the only way to get stuck: otherwise every task can move or waits for a reader
    that can, and a closed client can finish its termination. */
module ClientProgress {
  import opened Words
  import opened ClientRuntime
  import opened ClientOwnership
  import opened ClientClose
  import opened ClientDeadlock
  import opened ClientHandling

  // ---------------------------------------------------------------- every task

  /** The reader holds the mutex only while it handles an acknowledgement. */
  predicate LockFits(h: Threads) {
    READER in h.tasks &&
    (h.tasks[READER].Idle? ==> h.lockHolder == None) &&
    (UnderLock(h) ==>
       var pc := h.tasks[READER];
       pc.Taken? || pc.Activated? || pc.Closing? || pc.Control? || pc.ControlSend? || (pc.Term? && pc.stage <= 3))
  }

  /** The task has a step of its own to take: an idle reader any envelope, a waiting caller its
      time-out, a control message its outcome, and all others their next step. */
  ghost predicate CanMove(s: State, t: Tid) {
    Enabled(s, Advance(t)) || Enabled(s, ControlOutcome(t, true)) || Enabled(s, GiveUp(t)) ||
    (t == READER && forall a: Action | FromServer(a) :: Enabled(s, a))
  }

  lemma ReaderCanMove(s: State)
    requires LockFits(s.threads) && !Wedged(s) && InPlace(READER, s.threads.tasks[READER])
    requires s.threads.lockHolder == None || s.threads.lockHolder == Some(READER)
    ensures CanMove(s, READER)
  {
  }

  lemma TaskCanMove(s: State, t: Tid)
    requires LockFits(s.threads) && t in s.threads.tasks && t != READER && InPlace(t, s.threads.tasks[t])
    requires s.threads.lockHolder == None || s.threads.lockHolder == Some(READER)
    ensures CanMove(s, t) || (NeedsLock(s.threads.tasks[t]) && UnderLock(s.threads))
  {
  }

  lemma LockStaysFit(s: State, a: Action)
    requires Enabled(s, a) && Owned(s) && LockFits(s.threads)
    ensures LockFits(Step(s, a).threads)
  {
    hide Owned, Step;
    if Actor(a) != READER {
      OthersKeepReader(s, a);
    } else if FromServer(a) {
      ServerKeepsLockFit(s, a);
    } else {
      if UnderLock(s.threads) {
        LastStageWaits(s, a);
      }
      ReaderGoes(s, a);
    }
  }

  lemma LastStageWaits(s: State, a: Action)
    requires Enabled(s, a) && Actor(a) == READER && !FromServer(a) && UnderLock(s.threads) && Owned(s)
    ensures READER in s.threads.tasks && !(s.threads.tasks[READER].Term? && s.threads.tasks[READER].stage == 3)
  {
    NewcomersAreNotReader(s);
  }

  lemma ServerKeepsLockFit(s: State, a: Action)
    requires Enabled(s, a) && FromServer(a) && LockFits(s.threads)
    ensures LockFits(Step(s, a).threads)
  {
    hide PoolOf, WithPool;
  }

  lemma RunLockFits(max: Limits, states: seq<State>, actions: seq<Action>)
    requires IsRun(max, states, actions)
    ensures forall i | 0 <= i < |states| :: LockFits(states[i].threads)
  {
    hide Owned, Step, LockFits;
    RunOwned(max, states, actions);
    StartFits(max);
    for i := 0 to |actions|
      invariant forall j | 0 <= j <= i :: LockFits(states[j].threads)
    {
      LockStaysFit(states[i], actions[i]);
    }
  }

  lemma StartFits(max: Limits)
    ensures LockFits(Init(max).threads)
  {
  }

  /** In every state of every run that is not wedged, the reader can move, and every other task can
      move or waits for the mutex that the reader holds. */
  lemma NobodyElseIsStuck(max: Limits, states: seq<State>, actions: seq<Action>, i: nat, t: Tid)
    requires IsRun(max, states, actions) && i < |states| && !Wedged(states[i]) && t in states[i].threads.tasks
    ensures CanMove(states[i], READER)
    ensures CanMove(states[i], t) || (NeedsLock(states[i].threads.tasks[t]) && UnderLock(states[i].threads))
  {
    hide Wedged, CanMove, LockFits;
    RunOwned(max, states, actions);
    RunLockFits(max, states, actions);
    TasksAreInPlace(states[i], t);
    ReaderCanMove(states[i]);
    if t != READER {
      TaskCanMove(states[i], t);
    }
  }

  lemma TasksAreInPlace(s: State, t: Tid)
    requires Owned(s) && t in s.threads.tasks
    ensures InPlace(t, s.threads.tasks[t]) && READER in s.threads.tasks && InPlace(READER, s.threads.tasks[READER])
    ensures s.threads.lockHolder == None || s.threads.lockHolder == Some(READER)
  {
    hide Numbers, AllBacked, Answers;
  }

  // ---------------------------------------------------------------- finishing a termination

  ghost predicate IsPath(states: seq<State>, actions: seq<Action>) {
    |states| == |actions| + 1 &&
    forall i | 0 <= i < |actions| :: Enabled(states[i], actions[i]) && states[i + 1] == Step(states[i], actions[i])
  }

  /** Some steps lead from `s` to `s'`. */
  ghost predicate Leads(s: State, s': State) {
    exists states: seq<State>, actions: seq<Action> ::
      IsPath(states, actions) && states[0] == s && states[|states| - 1] == s'
  }

  lemma LeadsNowhere(s: State)
    ensures Leads(s, s)
  {
    var states: seq<State>, actions: seq<Action> := [s], [];
    assert IsPath(states, actions);
  }

  lemma LeadsOn(s: State, s': State, a: Action)
    requires Leads(s, s') && Enabled(s', a)
    ensures Leads(s, Step(s', a))
  {
    hide Step, Enabled;
    var states: seq<State>, actions: seq<Action> :| IsPath(states, actions) && states[0] == s && states[|states| - 1] == s';
    assert IsPath(states + [Step(s', a)], actions + [a]);
  }

  /** A closed client that is not wedged. */
  ghost predicate Winding(s: State) {
    Owned(s) && Closable(s) && LockFits(s.threads) && !Wedged(s) && s.shared.closed
  }

  lemma StepWinds(s: State, a: Action)
    requires Winding(s) && Enabled(s, a)
    ensures Winding(Step(s, a))
  {
    hide Owned, Closable, LockFits, Step, Wedged;
    StepOwned(s, a);
    StepClosable(s, a);
    LockStaysFit(s, a);
    WedgedAfter(s, a);
    ClosedStays(s, a);
  }

  lemma ClosedStays(s: State, a: Action)
    requires Enabled(s, a) && Owned(s) && Closable(s) && s.shared.closed
    ensures Step(s, a).shared.closed
  {
    hide EffectOf, Live, Quieted, Numbers, AllBacked, Answers;
    StepProceeds(s, a);
  }

  /** How many steps the reader needs at most before it releases the mutex. */
  function Rank(pc: Pc): nat {
    if pc.Taken? then 6 else if pc.Activated? then 5 else if pc.Closing? then 4
    else if pc.Control? then 3 else if pc.ControlSend? then 2 else if pc.Term? then 1 else 0
  }

  /** On a closed client the reader's next step brings it closer to releasing the mutex. */
  lemma ReaderWindsDown(s: State) returns (a: Action)
    requires Winding(s) && UnderLock(s.threads)
    ensures Enabled(s, a)
    ensures var h' := Step(s, a).threads;
            h'.lockHolder == None || (UnderLock(h') && Rank(h'.tasks[READER]) < Rank(s.threads.tasks[READER]))
  {
    hide Owned, Closable, Step;
    a := if s.threads.tasks[READER].ControlSend? then ControlOutcome(READER, true) else Advance(READER);
    ReaderGoes(s, a);
  }

  lemma {:induction false} LockIsReleased(from: State, s: State) returns (s': State)
    requires Leads(from, s) && Winding(s)
    ensures Leads(from, s') && Winding(s') && s'.threads.lockHolder == None
    decreases if UnderLock(s.threads) then 1 + Rank(s.threads.tasks[READER]) else 0
  {
    hide Leads, Step, Closable, Wedged, Enabled;
    s' := s;
    if UnderLock(s.threads) {
      var a := ReaderWindsDown(s);
      StepWinds(s, a);
      LeadsOn(from, s, a);
      s' := LockIsReleased(from, Step(s, a));
    } else {
      WindingLock(s);
    }
  }

  lemma WindingLock(s: State)
    requires Winding(s) && !UnderLock(s.threads)
    ensures s.threads.lockHolder == None
  {
    hide Numbers, AllBacked, Answers, Closable;
  }

  /** With the mutex free the terminating task takes its next step. */
  lemma TerminatorAdvances(s: State)
    requires Winding(s) && s.threads.lockHolder == None && s.shared.log.progress < 6
    ensures Enabled(s, Advance(s.shared.log.terminator))
    ensures var s' := Step(s, Advance(s.shared.log.terminator));
            s'.shared.log.progress == s.shared.log.progress + 1 && s'.threads.lockHolder == None
  {
    hide EffectOf, Live, Quieted, Numbers, AllBacked, Answers, Wedged;
    var t := s.shared.log.terminator;
    assert Terminating(PcOf(s.threads.tasks, t));
    TermEnabled(s, t);
    StepProceeds(s, Advance(t));
    NoLockTaken(s, t);
  }

  lemma TermEnabled(s: State, t: Tid)
    requires t in s.threads.tasks && s.threads.tasks[t].Term? && s.threads.lockHolder == None
    ensures Enabled(s, Advance(t))
  {
  }

  lemma NoLockTaken(s: State, t: Tid)
    requires t in s.threads.tasks && s.threads.tasks[t].Term? && s.threads.lockHolder == None
    requires Enabled(s, Advance(t))
    ensures Step(s, Advance(t)).threads.lockHolder == None
  {
    hide PoolOf, WithPool, Unhold, Forget;
  }

  lemma {:induction false} TerminationFinishes(from: State, s: State) returns (s': State)
    requires Leads(from, s) && Winding(s) && s.threads.lockHolder == None
    ensures Leads(from, s') && s'.shared.log.progress >= 6
    decreases 6 - s.shared.log.progress
  {
    hide Leads, Step, Winding, Enabled;
    s' := s;
    if s.shared.log.progress < 6 {
      var a := Advance(s.shared.log.terminator);
      TerminatorAdvances(s);
      StepWinds(s, a);
      LeadsOn(from, s, a);
      s' := TerminationFinishes(from, Step(s, a));
    }
  }

  /** A wedged client never finishes. */
  lemma WedgedNeverFinishes(s: State, s': State)
    requires Owned(s) && Closable(s) && Wedged(s) && Leads(s, s')
    ensures s'.shared.log.progress <= 3
  {
    hide Owned, Closable, Wedged, Step, Enabled;
    var states: seq<State>, actions: seq<Action> :| IsPath(states, actions) && states[0] == s && states[|states| - 1] == s';
    for i := 0 to |actions|
      invariant Owned(states[i]) && Closable(states[i]) && Wedged(states[i])
    {
      StepOwned(states[i], actions[i]);
      StepClosable(states[i], actions[i]);
      WedgedAfter(states[i], actions[i]);
    }
    WedgedHere(s', READER);
  }

  /** In every run, a client that is being closed can still finish if and only if it is not wedged:
      some steps lead to a state in which every map has been drained. */
  lemma ClosingCanFinishExactly(max: Limits, states: seq<State>, actions: seq<Action>, i: nat)
    requires IsRun(max, states, actions) && i < |states| && states[i].shared.closed
    ensures !Wedged(states[i]) <==> exists s' :: Leads(states[i], s') && s'.shared.log.progress >= 6
  {
    hide Owned, Closable, Wedged, LockFits, Leads;
    RunOwned(max, states, actions);
    RunClosable(max, states, actions);
    RunLockFits(max, states, actions);
    var s := states[i];
    if !Wedged(s) {
      LeadsNowhere(s);
      var free := LockIsReleased(s, s);
      var done := TerminationFinishes(s, free);
    } else if s' :| Leads(s, s') && s'.shared.log.progress >= 6 {
      WedgedNeverFinishes(s, s');
    }
  }
}
