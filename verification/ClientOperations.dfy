/** The runtime's operations as they run when nothing interferes: an object whose fields they
    update in place. Each ends in the state that its steps lead to one after the other. */
module ClientOperations {
  import opened Words
  import opened ClientRuntime
  import opened ClientPermits

  ghost function Owners(pend: map<nat, Pending>): set<Tid> {
    set c | c in pend :: pend[c].owner
  }

  /** Termination as five steps in a row. */
  function Terminated(m: Shared, t: Tid): Shared {
    var m0 := m.(closed := true, log := m.log.(progress := 1, terminator := t));
    var m1 := Drain(m0, 1, None).shared;
    var m2 := Drain(m1, 2, None).shared;
    var m3 := Drain(m2, 3, None).shared;
    Forget(Forget(m3, 4), 5)
  }

  lemma DrainedPool(m: Shared, stage: nat, k: Kind)
    ensures PoolOf(Drain(m, stage, None).shared, k) == if k == DrainedKind(stage) then TakeAll(PoolOf(m, k)) else PoolOf(m, k)
    ensures PoolOf(Forget(m, stage), k) == if k == DrainedKind(stage) then DeactivateAll(PoolOf(m, k)) else PoolOf(m, k)
  {
  }

  /** An undisturbed termination leaves nothing pending and nothing active, and gives every permit
      back that was with an entry. */
  lemma TerminationFreesAll(m: Shared, t: Tid, k: Kind)
    requires Active(m, Invocation) == map[]
    ensures var m' := Terminated(m, t);
            m'.closed && m'.log.progress == 6 && Pend(m', k) == map[] && Active(m', k) == map[] &&
            PoolOf(m', k).available == Stock(PoolOf(m, k))
  {
    hide PoolOf;
    var m0 := m.(closed := true, log := m.log.(progress := 1, terminator := t));
    var m1 := Drain(m0, 1, None).shared;
    var m2 := Drain(m1, 2, None).shared;
    var m3 := Drain(m2, 3, None).shared;
    SamePools(m, m0, k);
    DrainedPool(m0, 1, k);
    DrainedPool(m1, 2, k);
    DrainedPool(m2, 3, k);
    DrainedPool(m3, 4, k);
    DrainedPool(Forget(m3, 4), 5, k);
  }

  lemma AnswerKeepsStock(m: Shared, corr: nat, ok: bool)
    requires corr in Pend(m, Invocation)
    ensures var owner := Pend(m, Invocation)[corr].owner;
            Stock(PoolOf(CountAnswer(GotResponse(m, corr, ok).shared, owner, ok).shared, Invocation)) == Stock(PoolOf(m, Invocation))
  {
    hide Stock;
    ServerBalanced(m, Response(corr, ok), Invocation);
    ReaderBalanced(GotResponse(m, corr, ok).shared, Answering(Pend(m, Invocation)[corr].owner, ok), true, Invocation);
  }

  /** Goes through the drained entries one by one. */
  method TellAll(drained: map<nat, Pending>) returns (told: set<Tid>)
    ensures told == Owners(drained)
  {
    hide Owners;
    var rest := drained;
    told := {};
    NoOwners();
    while rest != map[]
      invariant told + Owners(rest) == Owners(drained)
      decreases |rest|
    {
      var c :| c in rest;
      OwnersWithout(rest, c);
      told := told + {rest[c].owner};
      rest := rest - {c};
    }
  }

  /** Goes through the active subscriptions one by one. */
  method TellSubscriptions(active: map<Id, nat>) returns (told: set<Id>)
    ensures told == active.Keys
  {
    var rest := active.Keys;
    told := {};
    while rest != {}
      invariant told + rest == active.Keys
      decreases |rest|
    {
      var id :| id in rest;
      told := told + {id};
      rest := rest - {id};
    }
  }

  lemma NoOwners()
    ensures Owners(map[]) == {}
  {
  }

  class Runtime {
    var closed: bool
    var correlation: nat
    var subscriptionIds: nat
    var pools: map<Kind, Pool>
    var handles: multiset<Id>
    var metrics: Metrics
    var log: Log
    var handshake: Option<Tid>

    function Value(): Shared
      reads this
    {
      Shared(closed, correlation, subscriptionIds, pools, handles, metrics, log)
    }

    constructor (max: Limits)
      ensures Value() == Init(max).shared && handshake == None
    {
      closed, correlation, subscriptionIds := false, 0, 0;
      pools := map[Invocation := FullPool(max.invocations), Subscription := FullPool(max.subscriptions),
                   Session := FullPool(max.sessions)];
      handles := multiset{};
      metrics := Metrics(0, 0, 0, 0, 0);
      log := Log(Notes(map[], 0, multiset{}, {}, {}), 0, 0, READER);
      handshake := None;
    }

    /** Ids start at one and never wrap. */
    method NextCorrelation() returns (id: Option<nat>)
      modifies this`correlation
      ensures id.Some? <==> old(correlation) < U64_MAX
      ensures correlation == if id.Some? then old(correlation) + 1 else old(correlation)
      ensures id.Some? ==> id.value == correlation > old(correlation)
    {
      if correlation >= U64_MAX {
        return None;
      }
      correlation := correlation + 1;
      return Some(correlation);
    }

    /** A response finds its caller, releases the permit and says whom to wake; a late one only
        counts. */
    method AcceptInvocation(corr: nat, ok: bool) returns (woken: Option<Tid>)
      modifies this
      ensures woken.Some? <==> corr in Pend(old(Value()), Invocation)
      ensures woken.Some? ==>
                woken.value == Pend(old(Value()), Invocation)[corr].owner &&
                Value() == CountAnswer(GotResponse(old(Value()), corr, ok).shared, woken.value, ok).shared &&
                Stock(PoolOf(Value(), Invocation)) == Stock(PoolOf(old(Value()), Invocation))
      ensures woken.None? ==> Value() == old(Value()).(metrics := metrics) && metrics.late == old(metrics).late + 1
    {
      hide Stock;
      ghost var before := Value();
      var pool := PoolOf(Value(), Invocation);
      if corr !in pool.pending {
        metrics := metrics.(late := metrics.late + 1);
        return None;
      }
      woken := Some(pool.pending[corr].owner);
      pools := pools[Invocation := Take(pool, corr)];
      log := log.(notes := Heard(log.notes, corr, if ok then Answer else Failure));
      if ok {
        metrics := metrics.(completed := metrics.completed + 1);
      } else {
        metrics := metrics.(failed := metrics.failed + 1);
      }
      pools := pools[Invocation := Release(PoolOf(Value(), Invocation), 1)];
      AnswerKeepsStock(before, corr, ok);
    }

    /** A withdrawn request leaves its map and gives its permit back; a control message is due
        unless it was a session. */
    method CancelPending(q: Request) returns (control: bool)
      modifies this`pools, this`metrics
      ensures Value() == Withdraw(old(Value()), READER, q).shared
      ensures control <==> q.corr in Pend(old(Value()), q.kind) && q.kind != Session
      ensures q.corr !in Pend(Value(), q.kind)
      ensures Stock(PoolOf(Value(), q.kind)) == Stock(PoolOf(old(Value()), q.kind))
    {
      WithdrawBalanced(Value(), READER, q, q.kind);
      var pool := PoolOf(Value(), q.kind);
      if q.corr !in pool.pending {
        return false;
      }
      pools := pools[q.kind := TakeBack(pool, q.corr)];
      metrics := metrics.(cancelled := metrics.cancelled + 1);
      return q.kind != Session;
    }

    /** Drains the pending requests of one kind and reports every owner to be failed. */
    method FailPending(stage: nat) returns (failed: set<Tid>)
      requires 1 <= stage <= 3
      modifies this`pools, this`log
      ensures Value() == Drain(old(Value()), stage, None).shared
      ensures failed == Owners(Pend(old(Value()), DrainedKind(stage)))
    {
      var k := DrainedKind(stage);
      var drained := PoolOf(Value(), k).pending;
      pools := pools[k := TakeAll(PoolOf(Value(), k))];
      log := log.(progress := stage + 1);
      failed := TellAll(drained);
    }

    /** Drops the active subscriptions and reports each one whose queue is offered the end. */
    method EndSubscriptions() returns (ended: set<Id>)
      modifies this`pools, this`log
      ensures Value() == Forget(old(Value()), 4) && ended == Active(old(Value()), Subscription).Keys
    {
      var rest := PoolOf(Value(), Subscription).active;
      pools := pools[Subscription := DeactivateAll(PoolOf(Value(), Subscription))];
      log := log.(progress := 5);
      ended := TellSubscriptions(rest);
    }

    /** Closing is idempotent. The first close fails the pending handshake and every retained owner,
        and tells every active subscription. */
    method Terminate(t: Tid) returns (greeter: Option<Tid>, failed: set<Tid>, ended: set<Id>)
      modifies this`closed, this`pools, this`log, this`handshake
      ensures old(closed) ==> Value() == old(Value()) && handshake == old(handshake) && (greeter, failed, ended) == (None, {}, {})
      ensures !old(closed) ==> Value() == Terminated(old(Value()), t) && handshake == None && greeter == old(handshake)
      ensures !old(closed) ==>
                failed == Owners(Pend(old(Value()), Invocation)) + Owners(Pend(old(Value()), Subscription)) +
                          Owners(Pend(old(Value()), Session))
      ensures !old(closed) ==> ended == Active(old(Value()), Subscription).Keys
    {
      if closed {
        return None, {}, {};
      }
      ghost var m := Value();
      closed := true;
      log := log.(progress := 1, terminator := t);
      greeter := handshake;
      handshake := None;
      ghost var m0 := Value();
      var invocations := FailPending(1);
      ghost var m1 := Value();
      var subscriptions := FailPending(2);
      ghost var m2 := Value();
      var sessions := FailPending(3);
      ghost var m3 := Value();
      KeptEntries(m, m0, m1, m2, m3);
      failed := invocations + subscriptions + sessions;
      ended := EndSubscriptions();
      pools := pools[Session := DeactivateAll(PoolOf(Value(), Session))];
      log := log.(progress := 6);
    }
  }

  lemma OwnersWithout(pend: map<nat, Pending>, c: nat)
    requires c in pend
    ensures Owners(pend) == Owners(pend - {c}) + {pend[c].owner} && |pend - {c}| < |pend|
  {
    forall o | o in Owners(pend)
      ensures o in Owners(pend - {c}) + {pend[c].owner}
    {
      var d :| d in pend && pend[d].owner == o;
      assert d == c || d in pend - {c};
    }
    assert (pend - {c}).Keys == pend.Keys - {c};
    assert |pend - {c}| == |(pend - {c}).Keys|;
  }

  lemma KeptEntries(m: Shared, m0: Shared, m1: Shared, m2: Shared, m3: Shared)
    requires m0.pools == m.pools && m1 == Drain(m0, 1, None).shared && m2 == Drain(m1, 2, None).shared
    requires m3 == Drain(m2, 3, None).shared
    ensures Pend(m0, Invocation) == Pend(m, Invocation)
    ensures Pend(m1, Subscription) == Pend(m, Subscription) && Pend(m2, Session) == Pend(m, Session)
    ensures Active(m3, Subscription) == Active(m, Subscription)
  {
    SamePools(m, m0, Invocation);
    SamePools(m, m0, Subscription);
    DrainedPool(m0, 1, Subscription);
    DrainedPool(m0, 1, Session);
    DrainedPool(m1, 2, Session);
    DrainedPool(m1, 2, Subscription);
    DrainedPool(m2, 3, Subscription);
  }
}
