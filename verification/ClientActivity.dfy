/** What makes an entry active and what ends it, what closes the client, and what a closed client
    no longer does: each told by the steps of the run. */
module ClientActivity {
  import opened Words
  import opened ClientRuntime
  import opened ClientOwnership
  import opened ClientClose
  import opened ClientProgress
  import opened ClientFences

  // ---------------------------------------------------------------- active entries

  /** The step ends `id`: the server says the session is lost, a task closes it, or termination
      reaches the entries of its kind. */
  predicate Ends(s: State, a: Action, id: Id) {
    (a.SessionLost? && SessId(a.sessId) == id) ||
    (a.Advance? && a.t in s.threads.tasks &&
     var pc := s.threads.tasks[a.t];
     pc == Closing(id) || (pc.Term? && if id.SubId? then pc.stage == 4 else pc.stage >= 5))
  }

  /** Whether the first `n` steps leave `id` active: it went active and was not ended since. */
  ghost predicate ToldActive(states: seq<State>, actions: seq<Action>, n: nat, id: Id)
    requires n <= |actions| && |states| == |actions| + 1
  {
    n > 0 &&
    (GoesActive(states[n - 1], actions[n - 1], id) ||
     (!Ends(states[n - 1], actions[n - 1], id) && ToldActive(states, actions, n - 1, id)))
  }

  /** A step activates, ends or keeps. */
  ghost predicate Keeps(m: Shared, m': Shared, id: Id, on: bool, off: bool) {
    id in Active(m', KindOf(id)) <==> on || (!off && id in Active(m, KindOf(id)))
  }

  lemma TerminateKeeps(m: Shared, t: Tid, stage: nat, holding: Option<Kind>, id: Id)
    ensures Keeps(m, Terminate(m, t, stage, holding).shared, id, false, if id.SubId? then stage == 4 else stage >= 5)
  {
    hide Unhold, Forget, Pend;
    var k := KindOf(id);
    UnholdKeeps(m, holding, k);
    UnholdKeeps(Forget(m, 5), holding, k);
    ForgetKeeps(m, 4, k);
    ForgetKeeps(m, 5, k);
  }

  lemma TaskKeeps(m: Shared, t: Tid, pc: Pc, reply: Reply, alive: bool, id: Id)
    requires !pc.ControlSend? && !pc.Idle?
    ensures Keeps(m, TaskStep(m, t, pc, reply, alive).shared, id,
                  pc.Taken? && pc.valid && pc.ack == id,
                  pc == Closing(id) || (pc.Term? && if id.SubId? then pc.stage == 4 else pc.stage >= 5))
  {
    hide CallerStep, Terminate;
    if pc.Calling? {
      CallerActivates(m, t, pc.phase, pc.req, reply, KindOf(id));
    } else if pc.Term? {
      TerminateKeeps(m, t, pc.stage, pc.holding, id);
    }
  }

  lemma ServerKeeps(m: Shared, a: Action, id: Id)
    requires FromServer(a)
    ensures Keeps(m, FromServerEffect(m, a).shared, id, false, a.SessionLost? && SessId(a.sessId) == id)
  {
  }

  lemma StepKeeps(s: State, a: Action, id: Id)
    requires Enabled(s, a) && Owned(s)
    ensures Keeps(s.shared, Step(s, a).shared, id, GoesActive(s, a, id), Ends(s, a, id))
  {
    hide TaskStep, FromServerEffect, Numbers, AllBacked, Answers;
    if FromServer(a) {
      ServerKeeps(s.shared, a, id);
    } else if a.Advance? {
      var pc := s.threads.tasks[a.t];
      TaskKeeps(s.shared, a.t, pc, ReplyOf(s.threads, a.t), Alive(s.threads, pc), id);
      assert pc.Taken? ==> a.t == READER by { TakerReads(s, a.t); }
    } else {
      LocalKeepsPools(s, a);
    }
  }

  lemma TakerReads(s: State, t: Tid)
    requires Shape(s.threads) && t in s.threads.tasks
    ensures s.threads.tasks[t].Taken? ==> t == READER
  {
  }

  lemma NothingIsActive(max: Limits, id: Id)
    ensures id !in Active(Init(max).shared, KindOf(id))
  {
  }

  /** In every run, a subscription or session is active if and only if a valid acknowledgement of it
      was accepted and since then it was neither closed, nor lost, nor swept by termination. */
  lemma ActiveExactly(max: Limits, states: seq<State>, actions: seq<Action>, n: nat, id: Id)
    requires IsRun(max, states, actions) && n < |states|
    ensures id in Active(states[n].shared, KindOf(id)) <==> ToldActive(states, actions, n, id)
  {
    hide Owned, Step, Active, GoesActive, Ends;
    RunOwned(max, states, actions);
    NothingIsActive(max, id);
    for k := 0 to n
      invariant id in Active(states[k].shared, KindOf(id)) <==> ToldActive(states, actions, k, id)
    {
      StepKeeps(states[k], actions[k], id);
    }
  }

  // ---------------------------------------------------------------- closing an entry

  /** Task `t` was started to close `id`. */
  predicate StartsClosing(a: Action, t: Tid, id: Id) {
    a == DropHandle(t, id) || (id.SubId? && a == UseCloser(t, id.number))
  }

  lemma StarterIsAt(s: State, a: Action, t: Tid, id: Id)
    requires Enabled(s, a) && StartsClosing(a, t, id)
    ensures PcOf(Step(s, a).threads.tasks, t) == Some(Closing(id))
  {
  }

  lemma OthersStayPut(s: State, a: Action, t: Tid)
    requires Enabled(s, a) && Actor(a) != t
    ensures PcOf(Step(s, a).threads.tasks, t) == PcOf(s.threads.tasks, t)
  {
    hide EffectOf;
  }

  lemma CloserActs(s: State, a: Action, t: Tid, id: Id)
    requires Enabled(s, a) && Owned(s) && Actor(a) == t && t != READER && PcOf(s.threads.tasks, t) == Some(Closing(id))
    ensures Ends(s, a, id) && !GoesActive(s, a, id)
  {
    hide Numbers, AllBacked, Answers;
  }

  /** In every run, dropping a handle or using a closer ends the entry: from then on either the task
      has not got to it yet, or there was a moment at which the entry was not active. */
  lemma CloserCloses(max: Limits, states: seq<State>, actions: seq<Action>, i: nat, j: nat, t: Tid, id: Id)
    requires IsRun(max, states, actions) && i < j < |states| && StartsClosing(actions[i], t, id)
    ensures PcOf(states[j].threads.tasks, t) == Some(Closing(id)) ||
            exists k | i < k <= j :: id !in Active(states[k].shared, KindOf(id))
  {
    hide Owned, Step, Active, GoesActive, Ends, Enabled;
    RunOwned(max, states, actions);
    assert Enabled(states[i], actions[i]) && states[i + 1] == Step(states[i], actions[i]);
    StarterIsAt(states[i], actions[i], t, id);
    NewcomerIsNotReader(states[i], actions[i], t, id);
    for n := i + 1 to j
      invariant PcOf(states[n].threads.tasks, t) == Some(Closing(id)) ||
                exists k | i < k <= n :: id !in Active(states[k].shared, KindOf(id))
    {
      assert Enabled(states[n], actions[n]) && states[n + 1] == Step(states[n], actions[n]);
      if PcOf(states[n].threads.tasks, t) == Some(Closing(id)) {
        if Actor(actions[n]) == t {
          CloserActs(states[n], actions[n], t, id);
          StepKeeps(states[n], actions[n], id);
          assert id !in Active(states[n + 1].shared, KindOf(id));
        } else {
          OthersStayPut(states[n], actions[n], t);
        }
      }
    }
  }

  lemma NewcomerIsNotReader(s: State, a: Action, t: Tid, id: Id)
    requires Enabled(s, a) && Owned(s) && StartsClosing(a, t, id)
    ensures t != READER
  {
    hide Numbers, AllBacked, Answers;
  }

  // ---------------------------------------------------------------- closing the client

  /** What closes a client: its owner; a fatal condition; a control message that the queue of an open
      client refuses or for which no correlation id is left; or an invalid acknowledgement. */
  predicate Cause(s: State, a: Action) {
    a.CloseClient? || a.Fatal? ||
    (a.ControlOutcome? && !a.accepted && !s.shared.closed) ||
    (a.Advance? && a.t in s.threads.tasks &&
     ((s.threads.tasks[a.t].Control? && s.shared.corr >= U64_MAX) ||
      (s.threads.tasks[a.t].Taken? && !s.threads.tasks[a.t].valid)))
  }

  predicate Terminates(pc: Pc) {
    pc.Term? && pc.stage == 0
  }

  /** The client is closed, or a task is about to close it. */
  ghost predicate Ending(s: State) {
    s.shared.closed || exists t | t in s.threads.tasks :: Terminates(s.threads.tasks[t])
  }

  lemma TaskEnds(m: Shared, t: Tid, pc: Pc, reply: Reply, alive: bool)
    requires !pc.ControlSend? && !pc.Idle?
    ensures var e := TaskStep(m, t, pc, reply, alive);
            (e.shared.closed <==> m.closed || Terminates(pc)) &&
            (e.next.Some? && Terminates(e.next.value) <==>
               (pc.Control? && m.corr >= U64_MAX) || (pc.Taken? && !pc.valid))
  {
    hide PoolOf, Pend, Active, CallerStep, Terminate;
    if pc.Calling? {
      CallerEndsNothing(m, t, pc.phase, pc.req, reply);
    } else if pc.Term? {
      TerminateCloses(m, t, pc.stage, pc.holding);
    }
  }

  lemma CallerEndsNothing(m: Shared, t: Tid, phase: Phase, q: Request, reply: Reply)
    ensures var e := CallerStep(m, t, phase, q, reply);
            e.shared.closed == m.closed && !(e.next.Some? && Terminates(e.next.value))
  {
    hide PoolOf, Pend, Active;
  }

  lemma TerminateCloses(m: Shared, t: Tid, stage: nat, holding: Option<Kind>)
    ensures var e := Terminate(m, t, stage, holding);
            (e.shared.closed <==> m.closed || stage == 0) && !(e.next.Some? && Terminates(e.next.value))
  {
    hide PoolOf, Pend, Active;
  }

  lemma EffectEnds(s: State, a: Action)
    requires Enabled(s, a) && Owned(s)
    ensures var e, pc := EffectOf(s, a), PcOf(s.threads.tasks, Actor(a));
            (e.shared.closed <==> s.shared.closed || (pc.Some? && Terminates(pc.value))) &&
            (e.next.Some? && Terminates(e.next.value) <==> Cause(s, a))
  {
    hide PoolOf, Pend, Active, TaskStep, Numbers, AllBacked, Answers;
    if a.Advance? {
      var pc := s.threads.tasks[a.t];
      TaskEnds(s.shared, a.t, pc, ReplyOf(s.threads, a.t), Alive(s.threads, pc));
    }
  }

  lemma StepEnds(s: State, a: Action)
    requires Enabled(s, a) && Owned(s)
    ensures Ending(Step(s, a)) <==> Ending(s) || Cause(s, a)
  {
    hide EffectOf, Owned, Cause, Enabled;
    var s', e := Step(s, a), EffectOf(s, a);
    EffectEnds(s, a);
    forall t ensures PcOf(s'.threads.tasks, t) == if t == Actor(a) then e.next else PcOf(s.threads.tasks, t) {
    }
    if t :| t in s.threads.tasks && Terminates(s.threads.tasks[t]) {
      assert t == Actor(a) || (t in s'.threads.tasks && s'.threads.tasks[t] == s.threads.tasks[t]);
    }
    if t :| t in s'.threads.tasks && Terminates(s'.threads.tasks[t]) {
      assert t == Actor(a) || (t in s.threads.tasks && s'.threads.tasks[t] == s.threads.tasks[t]);
    }
    if Cause(s, a) {
      assert Actor(a) in s'.threads.tasks && Terminates(s'.threads.tasks[Actor(a)]);
    }
  }

  ghost predicate CausedBefore(states: seq<State>, actions: seq<Action>, n: nat)
    requires n <= |actions| && |states| == |actions| + 1
  {
    exists i | 0 <= i < n :: Cause(states[i], actions[i])
  }

  /** In every run, the client is closed or about to be if and only if one of these causes occurred. */
  lemma EndsExactly(max: Limits, states: seq<State>, actions: seq<Action>, n: nat)
    requires IsRun(max, states, actions) && n < |states|
    ensures Ending(states[n]) <==> CausedBefore(states, actions, n)
  {
    hide Owned, Step, Cause, Ending;
    RunOwned(max, states, actions);
    OpenAtFirst(max);
    for k := 0 to n
      invariant Ending(states[k]) <==> CausedBefore(states, actions, k)
    {
      StepEnds(states[k], actions[k]);
      assert CausedBefore(states, actions, k + 1) <==> CausedBefore(states, actions, k) || Cause(states[k], actions[k]);
    }
  }

  lemma OpenAtFirst(max: Limits)
    ensures !Ending(Init(max))
  {
  }

  /** In every run, a closed client starts no call and no heartbeat any more. */
  lemma NothingStartsAfterClose(max: Limits, states: seq<State>, actions: seq<Action>, i: nat, j: nat)
    requires IsRun(max, states, actions) && i <= j < |actions| && states[i].shared.closed
    ensures states[j].shared.closed && !actions[j].Begin? && !actions[j].Heartbeat?
  {
    hide Owned, Closable, Step;
    RunOwned(max, states, actions);
    RunClosable(max, states, actions);
    for n := i to j
      invariant states[n].shared.closed
    {
      ClosedStays(states[n], actions[n]);
    }
    assert Enabled(states[j], actions[j]);
  }
}
