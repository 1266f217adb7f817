/** The fence of an active session, told by the messages of the server. */
module ClientFences {
  import opened Words
  import opened ClientRuntime
  import opened ClientOwnership

  // ---------------------------------------------------------------- what the messages say

  /** The reader takes up the session message of action `i` as a renewal of `id`. */
  predicate Renews(s: State, a: Action, id: Id) {
    a.SessionMessage? && SessId(a.sessId) == id && a.corr !in Pend(s.shared, Session)
  }

  /** The reader activates `id` with the valid acknowledgement that it holds. */
  predicate GoesActive(s: State, a: Action, id: Id) {
    a == Advance(READER) && READER in s.threads.tasks &&
    s.threads.tasks[READER].Taken? && s.threads.tasks[READER].valid && s.threads.tasks[READER].ack == id
  }

  /** The fence of the last session message among the first `n` actions. */
  ghost function LastFence(actions: seq<Action>, n: nat): nat
    requires n <= |actions|
  {
    if n == 0 then 0
    else if actions[n - 1].SessionMessage? then actions[n - 1].fence
    else LastFence(actions, n - 1)
  }

  /** The fence that the first `n` actions give to `id`: that of the acknowledgement which last
      activated it, raised by every later renewal with a larger one. */
  ghost function FenceTold(states: seq<State>, actions: seq<Action>, n: nat, id: Id): nat
    requires n <= |actions| && |states| == |actions| + 1
  {
    if n == 0 then 0
    else if GoesActive(states[n - 1], actions[n - 1], id) then LastFence(actions, n - 1)
    else if Renews(states[n - 1], actions[n - 1], id) then
      Max(FenceTold(states, actions, n - 1, id), actions[n - 1].fence)
    else FenceTold(states, actions, n - 1, id)
  }

  // ---------------------------------------------------------------- one step

  /** What a step may do to the fence of `id`: an activation sets it, a renewal raises it, and any
      other step leaves it or drops the session. */
  ghost predicate FenceMoves(m: Shared, pc: Option<Pc>, renewed: Option<nat>, m': Shared, id: Id) {
    id in Active(m', Session) ==>
      if pc.Some? && pc.value.Taken? && pc.value.valid && pc.value.ack == id then
        Active(m', Session)[id] == pc.value.fence
      else
        id in Active(m, Session) &&
        Active(m', Session)[id] ==
          if renewed.Some? then Max(Active(m, Session)[id], renewed.value) else Active(m, Session)[id]
  }

  lemma TaskMovesFence(m: Shared, t: Tid, pc: Pc, reply: Reply, alive: bool, id: Id)
    requires !pc.ControlSend? && !pc.Idle? && id.SessId?
    ensures FenceMoves(m, Some(pc), None, TaskStep(m, t, pc, reply, alive).shared, id)
  {
    hide CallerStep, Terminate;
    if pc.Calling? {
      CallerActivates(m, t, pc.phase, pc.req, reply, Session);
    } else if pc.Term? {
      TerminateKeepsFence(m, t, pc.stage, pc.holding, id);
    }
  }

  lemma TerminateKeepsFence(m: Shared, t: Tid, stage: nat, holding: Option<Kind>, id: Id)
    ensures FenceMoves(m, Some(Term(stage, holding)), None, Terminate(m, t, stage, holding).shared, id)
  {
    hide Unhold, Forget, Pend;
    UnholdKeeps(m, holding, Session);
    UnholdKeeps(Forget(m, 5), holding, Session);
    ForgetKeeps(m, 4, Session);
    ForgetKeeps(m, 5, Session);
  }

  lemma ServerMovesFence(m: Shared, a: Action, id: Id)
    requires FromServer(a) && id.SessId?
    ensures FenceMoves(m, Some(Idle),
                       if a.SessionMessage? && SessId(a.sessId) == id && a.corr !in Pend(m, Session) then Some(a.fence) else None,
                       FromServerEffect(m, a).shared, id)
  {
  }

  lemma StepMovesFence(s: State, a: Action, id: Id)
    requires Enabled(s, a) && Shape(s.threads) && id.SessId?
    ensures FenceMoves(s.shared, if GoesActive(s, a, id) then Some(s.threads.tasks[READER]) else None,
                       if Renews(s, a, id) then Some(a.fence) else None, Step(s, a).shared, id)
  {
    hide TaskStep, FromServerEffect;
    if FromServer(a) {
      ServerMovesFence(s.shared, a, id);
    } else if a.Advance? {
      var pc := s.threads.tasks[a.t];
      TaskMovesFence(s.shared, a.t, pc, ReplyOf(s.threads, a.t), Alive(s.threads, pc), id);
    }
  }

  /** The acknowledgement that the reader holds carries the fence of the last session message. */
  ghost predicate CarriesLast(s: State, actions: seq<Action>, n: nat)
    requires n <= |actions|
  {
    READER in s.threads.tasks && s.threads.tasks[READER].Taken? && s.threads.tasks[READER].ack.SessId? ==>
      s.threads.tasks[READER].fence == LastFence(actions, n)
  }

  lemma StepCarries(s: State, actions: seq<Action>, n: nat)
    requires n < |actions| && Enabled(s, actions[n]) && Owned(s) && CarriesLast(s, actions, n)
    ensures CarriesLast(Step(s, actions[n]), actions, n + 1)
  {
    hide PoolOf, WithPool, Numbers, AllBacked, Answers, CallerStep, Unhold, Forget;
    var a := actions[n];
    if Actor(a) != READER {
      assert Step(s, a).threads.tasks[READER] == s.threads.tasks[READER];
    }
  }

  /** In every run, the fence of an active session is that of the acknowledgement which activated it,
      or the largest that a later heartbeat answer brought, if that is larger. */
  lemma FenceIsExact(max: Limits, states: seq<State>, actions: seq<Action>, n: nat, id: Id)
    requires IsRun(max, states, actions) && n < |states| && id.SessId? && id in Active(states[n].shared, Session)
    ensures Active(states[n].shared, Session)[id] == FenceTold(states, actions, n, id)
  {
    hide Owned, Step, Active;
    RunOwned(max, states, actions);
    NothingActive(max, id);
    for k := 0 to n
      invariant CarriesLast(states[k], actions, k)
      invariant id in Active(states[k].shared, Session) ==>
                  Active(states[k].shared, Session)[id] == FenceTold(states, actions, k, id)
    {
      StepCarries(states[k], actions, k);
      FenceStep(states, actions, k, id);
    }
  }

  lemma NothingActive(max: Limits, id: Id)
    ensures id !in Active(Init(max).shared, Session) && Init(max).threads.tasks == map[READER := Idle]
  {
  }

  lemma FenceStep(states: seq<State>, actions: seq<Action>, k: nat, id: Id)
    requires |states| == |actions| + 1 && k < |actions| && id.SessId?
    requires Owned(states[k]) && Enabled(states[k], actions[k]) && states[k + 1] == Step(states[k], actions[k])
    requires CarriesLast(states[k], actions, k)
    requires id in Active(states[k].shared, Session) ==>
               Active(states[k].shared, Session)[id] == FenceTold(states, actions, k, id)
    ensures id in Active(states[k + 1].shared, Session) ==>
              Active(states[k + 1].shared, Session)[id] == FenceTold(states, actions, k + 1, id)
  {
    hide Active, EffectOf, Numbers, AllBacked, Answers;
    StepMovesFence(states[k], actions[k], id);
  }
}
