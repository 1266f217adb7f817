/** The reader holds the mutex of the pending sessions while it handles an acknowledgement, and a
    termination takes the same mutex. */
module ClientDeadlock {
  import opened Words
  import opened ClientRuntime
  import opened ClientOwnership
  import opened ClientClose

  predicate UnderLock(h: Threads) {
    h.lockHolder == Some(READER)
  }

  predicate ReaderTerminates(h: Threads, least: nat) {
    READER in h.tasks && h.tasks[READER].Term? && least <= h.tasks[READER].stage <= 3
  }

  /** The reader is terminating the runtime and holds the mutex that stage 3 waits for. */
  predicate Wedged(s: State) {
    UnderLock(s.threads) && ReaderTerminates(s.threads, 1)
  }

  /** The reader is the first to close the runtime, while it holds the mutex. */
  predicate ClosesUnderLock(s: State, a: Action) {
    a == Advance(READER) && UnderLock(s.threads) && !s.shared.closed &&
    READER in s.threads.tasks && s.threads.tasks[READER].Term? && s.threads.tasks[READER].stage == 0
  }

  lemma OthersKeepReader(s: State, a: Action)
    requires Enabled(s, a) && Owned(s) && Actor(a) != READER
    ensures var h, h' := s.threads, Step(s, a).threads;
            READER in h.tasks && READER in h'.tasks && h'.tasks[READER] == h.tasks[READER] && h'.lockHolder == h.lockHolder
  {
    hide EffectOf;
  }

  lemma ReaderMoves(s: State, a: Action)
    requires Enabled(s, a) && Owned(s) && Actor(a) == READER
    ensures Wedged(Step(s, a)) <==> Wedged(s) || ClosesUnderLock(s, a)
  {
    hide PoolOf, WithPool, Unhold, Forget;
    NewcomersAreNotReader(s);
  }

  lemma NewcomersAreNotReader(s: State)
    requires Owned(s)
    ensures s.threads.spawned != READER && READER in s.threads.tasks && !s.threads.tasks[READER].Calling?
  {
  }

  lemma WedgedAfter(s: State, a: Action)
    requires Enabled(s, a) && Owned(s)
    ensures Wedged(Step(s, a)) <==> Wedged(s) || ClosesUnderLock(s, a)
  {
    hide Owned, Step;
    if Actor(a) == READER {
      ReaderMoves(s, a);
    } else {
      OthersKeepReader(s, a);
    }
  }

  /** What a wedged runtime means: it counts as closed, the pending sessions are never drained, no
      envelope is handled any more, and a session caller that gives up never returns. */
  lemma WedgedIsStuck(max: Limits, states: seq<State>, actions: seq<Action>, i: nat, j: nat, t: Tid)
    requires IsRun(max, states, actions) && i <= j < |states| && Wedged(states[i])
    ensures Wedged(states[j]) && states[j].shared.closed && states[j].shared.log.progress <= 3
    ensures !ReaderIdle(states[j].threads)
    ensures At(states[j].threads, t, Cancelling) && states[j].threads.tasks[t].req.kind == Session ==>
              !Enabled(states[j], Advance(t))
  {
    hide Owned, Wedged, ClosesUnderLock, Step, Closable;
    RunOwned(max, states, actions);
    RunClosable(max, states, actions);
    for n := i to j
      invariant Wedged(states[n])
    {
      WedgedAfter(states[n], actions[n]);
    }
    WedgedHere(states[j], t);
  }

  lemma WedgedHere(s: State, t: Tid)
    requires Owned(s) && Closable(s) && Wedged(s)
    ensures s.shared.closed && s.shared.log.progress <= 3 && !ReaderIdle(s.threads)
    ensures At(s.threads, t, Cancelling) && s.threads.tasks[t].req.kind == Session ==> !Enabled(s, Advance(t))
  {
    hide Live, Quieted, Owned;
    assert Terminating(PcOf(s.threads.tasks, READER));
  }
}
