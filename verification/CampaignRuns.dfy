/** Safety over whole campaigns: one dispatch per stage, run ids that stay, an ordered chain, and
    ends that are final. */
module CampaignRuns {
  import opened Words
  import opened Campaign
  import opened CampaignSafety
  import opened CampaignDriver

  // ---------------------------------------------------------------- file and memory

  predicate Ended(s: Stage) {
    s.status == Completed || s.status == Rejected
  }

  /** How a stage may differ between an older and a newer copy of the state. */
  predicate Succeeds(older: Stage, newer: Stage) {
    newer == older ||
    (!Ended(older) && (older.run.Some? ==> newer.run == older.run) && (older.status != Pending ==> newer.status != Pending))
  }

  ghost predicate Follows(older: Campaign, newer: Campaign) {
    forall j :: Succeeds(StageAt(older, j), StageAt(newer, j))
  }

  ghost predicate NoneRejected(c: Campaign) {
    forall j :: StageAt(c, j).status != Rejected
  }

  // ---------------------------------------------------------------- the controller

  predicate HasSpec(pc: Pc) {
    !pc.Opened? && !pc.Deciding? && !pc.Finishing? && !pc.Finished?
  }

  predicate HasRun(pc: Pc) {
    pc.Found? || pc.Known? || pc.Viewed? || pc.Watching?
  }

  predicate IsMarked(pc: Pc) {
    pc.Marked? || pc.Saved? || pc.Started? || pc.Recovering?
  }

  /** The stage at work is due, and it is as far as the controller is. */
  ghost predicate AtWork(p: Process) {
    (HasSpec(p.pc) && !p.pc.Judged? ==> Due(p.mem, p.pc.spec)) &&
    (IsMarked(p.pc) ==> StageAt(p.mem, p.pc.spec.stage).status == Dispatching) &&
    (HasRun(p.pc) ==> StageAt(p.mem, p.pc.spec.stage).run.Some? && !Ended(StageAt(p.mem, p.pc.spec.stage))) &&
    (p.goal == CloseDown ==> p.pc.Opened?) &&
    (p.pc.Deciding? ==> p.goal == RunChain)
  }

  /** A rejection stops the campaign in the same save. */
  ghost predicate PhaseFits(c: Campaign) {
    Runnable(c.phase) || c.phase == Complete ==> NoneRejected(c)
  }

  ghost predicate Phases(disk: Campaign, p: Process) {
    PhaseFits(p.mem) &&
    if p.goal == CloseDown then p.mem.stages == disk.stages && p.mem.phase == Closed
    else
      Runnable(disk.phase) &&
      (p.pc.Judged? ==> IsDone(p.mem, p.pc.spec.stage) ==> Runnable(p.mem.phase)) &&
      (p.pc.Judged? || p.pc.Finished? || Runnable(p.mem.phase))
  }

  /** A stage is dispatched once, after its mark has been written. */
  ghost predicate DispatchedOnce(sys: System) {
    (forall j :: Dispatches(sys, j) <= 1) &&
    (forall j | Dispatches(sys, j) == 1 :: StageAt(sys.disk, j).status != Pending) &&
    (sys.proc.Some? ==>
       var pc := sys.proc.value.pc;
       (pc.Marked? || pc.Saved? ==> Dispatches(sys, pc.spec.stage) == 0) &&
       (pc.Saved? ==> StageAt(sys.disk, pc.spec.stage).status == Dispatching))
  }

  ghost predicate SafeProcess(disk: Campaign, p: Process) {
    Sound(p.mem) && Follows(disk, p.mem) && AtWork(p) && Phases(disk, p)
  }

  ghost predicate Safe(sys: System) {
    Sound(sys.disk) && PhaseFits(sys.disk) && DispatchedOnce(sys) &&
    (sys.proc.Some? ==> SafeProcess(sys.disk, sys.proc.value))
  }

  // ---------------------------------------------------------------- steps in memory

  /** A change of the stage at work, in memory. */
  lemma FollowsUpdate(disk: Campaign, mem: Campaign, i: nat, s: Stage)
    requires Follows(disk, mem) && Succeeds(StageAt(mem, i), s) && !Ended(StageAt(mem, i))
    ensures Follows(disk, WithStage(mem, i, s))
  {
    forall j
      ensures Succeeds(StageAt(disk, j), StageAt(WithStage(mem, i, s), j))
    {
      assert Succeeds(StageAt(disk, j), StageAt(mem, j));
    }
  }

  lemma FollowsSame(disk: Campaign, mem: Campaign, mem': Campaign)
    requires Follows(disk, mem) && mem'.stages == mem.stages
    ensures Follows(disk, mem')
  {
    forall j
      ensures Succeeds(StageAt(disk, j), StageAt(mem', j))
    {
      assert Succeeds(StageAt(disk, j), StageAt(mem, j));
    }
  }

  lemma JudgeFollows(disk: Campaign, mem: Campaign, spec: Spec, verdict: Verdict)
    requires Follows(disk, mem) && !Ended(StageAt(mem, spec.stage)) && StageAt(mem, spec.stage).run.Some?
    ensures Follows(disk, JudgeRun(mem, spec, verdict))
  {
    hide Follows, Acceptable;
    var i, s := spec.stage, StageAt(mem, spec.stage);
    var mem' := JudgeRun(mem, spec, verdict);
    var s' := StageAt(mem', i);
    assert mem'.stages == WithStage(mem, i, s').stages;
    FollowsUpdate(disk, mem, i, s');
    FollowsSame(disk, WithStage(mem, i, s'), mem');
  }

  lemma UpdateFits(mem: Campaign, i: nat, s: Stage)
    requires NoneRejected(mem) && s.status != Rejected
    ensures NoneRejected(WithStage(mem, i, s))
  {
    forall j
      ensures StageAt(WithStage(mem, i, s), j).status != Rejected
    {
      assert StageAt(mem, j).status != Rejected;
    }
  }

  lemma SameStagesFit(mem: Campaign, mem': Campaign)
    requires NoneRejected(mem) && mem'.stages == mem.stages
    ensures NoneRejected(mem')
  {
    forall j
      ensures StageAt(mem', j).status != Rejected
    {
      assert StageAt(mem, j).status != Rejected;
    }
  }

  lemma JudgeFits(mem: Campaign, spec: Spec, verdict: Verdict)
    requires NoneRejected(mem) && Runnable(mem.phase)
    ensures var mem' := JudgeRun(mem, spec, verdict);
            PhaseFits(mem') && (IsDone(mem', spec.stage) ==> Runnable(mem'.phase))
  {
    hide Acceptable, NoneRejected;
    var mem' := JudgeRun(mem, spec, verdict);
    var s' := StageAt(mem', spec.stage);
    if s'.status != Rejected {
      UpdateFits(mem, spec.stage, s');
      assert mem'.stages == WithStage(mem, spec.stage, s').stages;
      SameStagesFit(WithStage(mem, spec.stage, s'), mem');
    }
  }

  lemma DueAfterUpdate(c: Campaign, spec: Spec, s: Stage)
    requires Due(c, spec)
    ensures Due(WithStage(c, spec.stage, s), spec)
  {
    forall k | 0 <= k < spec.stage
      ensures spec == FROZEN_SPEC || IsDone(WithStage(c, spec.stage, s), k)
    {
      assert spec == FROZEN_SPEC || IsDone(c, k);
    }
  }

  // ---------------------------------------------------------------- one step

  lemma StartIsSafe(disk: Campaign, goal: Goal)
    requires Sound(disk) && PhaseFits(disk) && (goal == CloseDown || Runnable(disk.phase))
    ensures SafeProcess(disk, Opening(goal, disk))
  {
    hide Sound, NoneRejected;
    var mem := Opening(goal, disk).mem;
    PhaseIsSound(disk, mem.phase);
    assert Follows(disk, disk);
    FollowsSame(disk, disk, mem);
    if goal != CloseDown {
      SameStagesFit(disk, mem);
    }
  }

  lemma SaveIsSafe(disk: Campaign, p: Process)
    requires SafeProcess(disk, p) && Unsaved(p.pc)
    ensures AfterSave(p).Some? ==> SafeProcess(p.mem, AfterSave(p).value)
  {
    hide Sound, NoneRejected;
    assert Follows(p.mem, p.mem);
  }

  lemma DecideIsSafe(disk: Campaign, p: Process)
    requires SafeProcess(disk, p) && p.pc.Deciding?
    ensures DecideNext(p).Some? && SafeProcess(disk, DecideNext(p).value)
    ensures !DecideNext(p).value.pc.Deciding?
  {
    hide Sound, NoneRejected, Follows, Specs, FirstPending, Due;
    var n := DoneIsPrefix(p.mem);
    NextIsDue(p.mem, n);
  }

  lemma CheckIsSafe(disk: Campaign, p: Process, matches: nat, run: nat)
    requires SafeProcess(disk, p) && p.pc.Checking? && run >= 1
    ensures var p' := CheckStage(p, p.pc.spec, matches, run); p'.Some? ==> SafeProcess(disk, p'.value)
    ensures var p' := CheckStage(p, p.pc.spec, matches, run);
            p'.Some? && p'.value.pc.Marked? ==> StageAt(p.mem, p.pc.spec.stage).status == Pending
  {
    hide Serialized, Linked, NoneRejected, Follows, Due;
    var spec, s := p.pc.spec, StageAt(p.mem, p.pc.spec.stage);
    assert StageIsSound(s);
    if !Ended(s) && s.run.None? {
      if s.status == Dispatching {
        FoundIsSafe(disk, p, spec, run);
      } else {
        ChangeIsSafe(disk, p, spec, s.(status := Dispatching));
        StatusIsSound(p.mem, spec, Dispatching);
      }
    }
  }

  lemma ChangeIsSafe(disk: Campaign, p: Process, spec: Spec, s: Stage)
    requires Follows(disk, p.mem) && Phases(disk, p) && Due(p.mem, spec) && p.goal != CloseDown && Runnable(p.mem.phase)
    requires !Ended(StageAt(p.mem, spec.stage)) && Succeeds(StageAt(p.mem, spec.stage), s) && !Ended(s)
    ensures var mem' := WithStage(p.mem, spec.stage, s);
            Follows(disk, mem') && NoneRejected(mem') && PhaseFits(mem') && Due(mem', spec) && Runnable(mem'.phase)
  {
    hide Follows, NoneRejected, Due;
    FollowsUpdate(disk, p.mem, spec.stage, s);
    UpdateFits(p.mem, spec.stage, s);
    DueAfterUpdate(p.mem, spec, s);
  }

  lemma FoundIsSafe(disk: Campaign, p: Process, spec: Spec, run: nat)
    requires SafeProcess(disk, p) && HasSpec(p.pc) && !p.pc.Judged? && spec == p.pc.spec && run >= 1
    requires StageAt(p.mem, spec.stage).status == Dispatching && StageAt(p.mem, spec.stage).run.None?
    ensures SafeProcess(disk, p.(pc := Found(spec), mem := WithRun(p.mem, spec.stage, run)))
  {
    hide Sound, Follows, NoneRejected, Due;
    ChangeIsSafe(disk, p, spec, StageAt(p.mem, spec.stage).(run := Some(run), status := Queued));
    RunIsSound(p.mem, spec, run);
  }

  lemma ViewIsSafe(disk: Campaign, p: Process)
    requires SafeProcess(disk, p) && p.pc.Known?
    ensures SafeProcess(disk, p.(pc := Viewed(p.pc.spec), mem := WithStatus(p.mem, p.pc.spec.stage, Running)))
  {
    hide Sound, Follows, NoneRejected, Due;
    var spec := p.pc.spec;
    ChangeIsSafe(disk, p, spec, StageAt(p.mem, spec.stage).(status := Running));
    StatusIsSound(p.mem, spec, Running);
  }

  lemma JudgeIsSafe(disk: Campaign, p: Process, verdict: Verdict)
    requires SafeProcess(disk, p) && p.pc.Watching?
    ensures SafeProcess(disk, p.(pc := Judged(p.pc.spec), mem := JudgeRun(p.mem, p.pc.spec, verdict)))
  {
    hide Sound, Follows, NoneRejected, Due, JudgeRun;
    var spec := p.pc.spec;
    JudgeIsSound(p.mem, spec, verdict);
    JudgeFollows(disk, p.mem, spec, verdict);
    JudgeFits(p.mem, spec, verdict);
  }

  lemma FinishIsSafe(disk: Campaign, p: Process)
    requires SafeProcess(disk, p) && p.pc.Finishing?
    ensures SafeProcess(disk, p.(pc := Finished, mem := p.mem.(phase := Complete)))
  {
    hide Sound, Follows, NoneRejected;
    var mem' := p.mem.(phase := Complete);
    PhaseIsSound(p.mem, Complete);
    FollowsSame(disk, p.mem, mem');
    SameStagesFit(p.mem, mem');
  }

  lemma StepSafeProcess(sys: System, a: Action)
    requires Safe(sys) && Enabled(sys, a)
    ensures var sys' := Step(sys, a); sys'.proc.Some? ==> SafeProcess(sys'.disk, sys'.proc.value)
  {
    hide Sound, PhaseFits, DispatchedOnce, SafeProcess, AfterSave, DecideNext, CheckStage, JudgeRun, WithStatus, WithRun;
    match a
    case Start(goal) => StartIsSafe(sys.disk, goal);
    case Stop =>
    case Save => SaveIsSafe(sys.disk, sys.proc.value);
    case Decide => DecideIsSafe(sys.disk, sys.proc.value);
    case Check(matches, run) => CheckIsSafe(sys.disk, sys.proc.value, matches, run);
    case Dispatch(_) => DispatchIsSafe(sys.disk, sys.proc.value);
    case Discover(run) => DiscoverIsSafe(sys.disk, sys.proc.value, run);
    case View => ViewIsSafe(sys.disk, sys.proc.value);
    case Judge(verdict) => JudgeIsSafe(sys.disk, sys.proc.value, verdict);
    case Finish => FinishIsSafe(sys.disk, sys.proc.value);
  }

  lemma DispatchIsSafe(disk: Campaign, p: Process)
    requires SafeProcess(disk, p) && p.pc.Saved?
    ensures SafeProcess(disk, p.(pc := Started(p.pc.spec)))
  {
    hide Sound, Follows, NoneRejected, Due;
  }

  lemma DiscoverIsSafe(disk: Campaign, p: Process, run: nat)
    requires SafeProcess(disk, p) && (p.pc.Started? || p.pc.Recovering?) && run >= 1
    ensures SafeProcess(disk, p.(pc := Found(p.pc.spec), mem := WithRun(p.mem, p.pc.spec.stage, run)))
  {
    hide Serialized, Linked, Follows, NoneRejected, Due;
    assert StageIsSound(StageAt(p.mem, p.pc.spec.stage));
    FoundIsSafe(disk, p, p.pc.spec, run);
  }

  lemma StepDispatches(sys: System, a: Action)
    requires Safe(sys) && Enabled(sys, a)
    ensures DispatchedOnce(Step(sys, a))
  {
    hide Sound, Phases, Due, DecideNext, JudgeRun, PhaseFits;
    var sys' := Step(sys, a);
    if a.Save? {
      var p := sys.proc.value;
      forall j | Dispatches(sys', j) == 1
        ensures StageAt(p.mem, j).status != Pending
      {
        assert Dispatches(sys, j) == 1 && Succeeds(StageAt(sys.disk, j), StageAt(p.mem, j));
      }
    } else if a.Check? {
      var p := sys.proc.value;
      CheckIsSafe(sys.disk, p, a.matches, a.run);
      assert Succeeds(StageAt(sys.disk, p.pc.spec.stage), StageAt(p.mem, p.pc.spec.stage));
    } else if a.Decide? {
      DecideIsSafe(sys.disk, sys.proc.value);
      DecideChecks(sys.proc.value);
    }
    forall j
      ensures Dispatches(sys', j) <= 1
      ensures Dispatches(sys', j) == 1 ==> StageAt(sys'.disk, j).status != Pending
    {
      assert Dispatches(sys, j) <= 1;
    }
  }

  lemma DecideChecks(p: Process)
    ensures DecideNext(p).Some? ==> var pc := DecideNext(p).value.pc; pc.Checking? || pc.Finishing? || pc == p.pc
  {
  }

  lemma StepSafe(sys: System, a: Action)
    requires Safe(sys) && Enabled(sys, a)
    ensures Safe(Step(sys, a))
  {
    hide Sound, Follows, AtWork, NoneRejected, DispatchedOnce, NextProcess;
    StepSafeProcess(sys, a);
    StepDispatches(sys, a);
  }

  lemma InitialIsSafe()
    ensures Safe(INITIAL)
  {
    assert forall j :: StageAt(INITIAL.disk, j) == NEW_STAGE;
  }

  lemma RunIsSafe(states: seq<System>, actions: seq<Action>)
    requires IsRun(states, actions)
    ensures forall i | 0 <= i < |states| :: Safe(states[i])
  {
    hide Safe, Step;
    InitialIsSafe();
    for i := 0 to |actions|
      invariant forall j | 0 <= j <= i :: Safe(states[j])
    {
      StepSafe(states[i], actions[i]);
    }
  }

  // ---------------------------------------------------------------- every campaign

  /** Whatever crashes and restarts happen, no stage's workflow is dispatched twice, and none before
      the mark of its dispatch is in the file. */
  lemma DispatchedAtMostOnce(states: seq<System>, actions: seq<Action>, i: nat, j: nat)
    requires IsRun(states, actions) && i < |states|
    ensures Dispatches(states[i], j) <= 1
    ensures Dispatches(states[i], j) == 1 ==> StageAt(states[i].disk, j).status != Pending
    ensures i < |actions| && actions[i].Dispatch? ==>
              var k := states[i].proc.value.pc.spec.stage;
              Dispatches(states[i], k) == 0 && StageAt(states[i].disk, k).status == Dispatching
  {
    hide Sound, SafeProcess, PhaseFits;
    RunIsSafe(states, actions);
    assert Safe(states[i]);
  }

  lemma DiskFollows(sys: System, a: Action)
    requires Safe(sys) && Enabled(sys, a)
    ensures Follows(sys.disk, Step(sys, a).disk)
  {
    hide Sound, AtWork, Phases, NextProcess;
    assert Follows(sys.disk, sys.disk);
  }

  lemma SucceedsTwice(a: Stage, b: Stage, c: Stage)
    requires Succeeds(a, b) && Succeeds(b, c)
    ensures Succeeds(a, c)
  {
  }

  /** A run id in the file never changes, and a completed or rejected stage stays as it is. */
  lemma RunIdsStay(states: seq<System>, actions: seq<Action>, i: nat, k: nat, j: nat)
    requires IsRun(states, actions) && i <= k < |states|
    ensures var before, after := StageAt(states[i].disk, j), StageAt(states[k].disk, j);
            (before.run.Some? ==> after.run == before.run) && (Ended(before) ==> after == before)
  {
    hide Safe, Step, Follows;
    RunIsSafe(states, actions);
    for n := i to k
      invariant Succeeds(StageAt(states[i].disk, j), StageAt(states[n].disk, j))
    {
      DiskFollows(states[n], actions[n]);
      FollowsAt(states[n].disk, states[n + 1].disk, j);
      SucceedsTwice(StageAt(states[i].disk, j), StageAt(states[n].disk, j), StageAt(states[n + 1].disk, j));
    }
  }

  lemma FollowsAt(older: Campaign, newer: Campaign, j: nat)
    requires Follows(older, newer)
    ensures Succeeds(StageAt(older, j), StageAt(newer, j))
  {
  }

  /** In the file, the completed stages are a prefix of the chain with nothing begun beyond the
      next; accepted receipts name their own runs and one runner; the admission lists both
      full-dress runs; and each sample names the admission and its predecessor. */
  lemma ChainIsOrdered(states: seq<System>, actions: seq<Action>, i: nat) returns (n: nat)
    requires IsRun(states, actions) && i < |states|
    ensures DoneUpTo(states[i].disk, n)
    ensures forall k | n < k < CHAIN :: StageAt(states[i].disk, k).status == Pending
    ensures Linked(states[i].disk)
    ensures forall k | 0 <= k < n :: StageIsSound(StageAt(states[i].disk, k))
  {
    hide SafeProcess, PhaseFits, DispatchedOnce;
    RunIsSafe(states, actions);
    assert Safe(states[i]);
    n := DoneIsPrefix(states[i].disk);
  }

  /** The two full-dress runs behind an admission are different runs. */
  lemma DressRunsDiffer(c: Campaign)
    requires Admitted(c) && IsDone(c, SECOND_DRESS)
    ensures StageAt(c, FIRST_DRESS).run != StageAt(c, SECOND_DRESS).run
  {
    var first, second := StageAt(c, FIRST_DRESS), StageAt(c, SECOND_DRESS);
    TableSize(second.admission.value.members);
    TwoKeys(first.run.value, first.receipt.value.digest, second.run.value, second.receipt.value.digest);
  }

  lemma TwoKeys(a: nat, x: nat, b: nat, y: nat)
    ensures |map[a := x][b := y]| == 2 <==> a != b
  {
    assert map[a := x][b := y].Keys == {a, b};
    assert |map[a := x][b := y]| == |map[a := x][b := y].Keys|;
  }

  lemma {:induction false} TableSize(members: seq<(nat, nat)>)
    requires MemberTable(members).Some?
    ensures |MemberTable(members).value| == |members|
  {
    if members != [] {
      var rest := members[..|members| - 1];
      TableSize(rest);
      var (run, digest) := members[|members| - 1];
      var table := MemberTable(rest).value;
      assert table[run := digest].Keys == table.Keys + {run};
      assert |table[run := digest]| == |table[run := digest].Keys|;
    }
  }

  /** In every campaign the driver loop makes its way: it goes to the next stage or, with all of
      them completed, to the end. */
  lemma DriverMovesOn(states: seq<System>, actions: seq<Action>, i: nat)
    requires IsRun(states, actions) && i < |states|
    requires states[i].proc.Some? && states[i].proc.value.pc.Deciding?
    ensures Enabled(states[i], Decide)
    ensures var p' := Step(states[i], Decide).proc;
            p'.Some? && (p'.value.pc.Checking? || (p'.value.pc.Finishing? && IsDone(states[i].proc.value.mem, CHAIN - 1)))
  {
    hide Sound, PhaseFits, DispatchedOnce, SafeProcess;
    RunIsSafe(states, actions);
    var p := states[i].proc.value;
    assert Safe(states[i]);
    DecideIsSafe(states[i].disk, p);
  }

  /** At most one stage of the chain is under way, and a restarted controller goes back to it. */
  lemma ResumesWhereItStopped(states: seq<System>, actions: seq<Action>, i: nat, j: nat)
    requires IsRun(states, actions) && i < |states| && j < CHAIN
    requires var s := StageAt(states[i].disk, j).status; s != Pending && s != Completed
    ensures var c := states[i].disk;
            Specs(c).Some? &&
            var next := FirstPending(c, Specs(c).value); next.Some? && next.value.stage == j && Due(c, next.value)
    ensures forall k | 0 <= k < CHAIN && k != j ::
              StageAt(states[i].disk, k).status == if k < j then Completed else Pending
  {
    hide SafeProcess, PhaseFits, DispatchedOnce, Specs, FirstPending, Due;
    RunIsSafe(states, actions);
    var c := states[i].disk;
    assert Safe(states[i]);
    var n := DoneIsPrefix(c);
    assert IsDone(c, j) <==> j < n;
    NextIsDue(c, n);
    forall k | 0 <= k < CHAIN && k != j
      ensures StageAt(c, k).status == if k < j then Completed else Pending
    {
      assert IsDone(c, k) <==> k < n;
    }
  }

  // ---------------------------------------------------------------- ends

  lemma EndedStep(sys: System, a: Action)
    requires Safe(sys) && Enabled(sys, a) && !Runnable(sys.disk.phase)
    ensures var sys' := Step(sys, a);
            !Runnable(sys'.disk.phase) && sys'.disk.stages == sys.disk.stages && sys'.dispatched == sys.dispatched
  {
    hide Sound, Follows, NoneRejected, DispatchedOnce, NextProcess;
  }

  /** A stopped, completed or closed campaign stays so: no stage changes any more and nothing more is
      dispatched. */
  lemma EndIsFinal(states: seq<System>, actions: seq<Action>, i: nat, k: nat)
    requires IsRun(states, actions) && i <= k < |states| && !Runnable(states[i].disk.phase)
    ensures !Runnable(states[k].disk.phase)
    ensures states[k].disk.stages == states[i].disk.stages && states[k].dispatched == states[i].dispatched
  {
    hide Safe, Step;
    RunIsSafe(states, actions);
    for n := i to k
      invariant !Runnable(states[n].disk.phase)
      invariant states[n].disk.stages == states[i].disk.stages && states[n].dispatched == states[i].dispatched
    {
      EndedStep(states[n], actions[n]);
    }
  }

  /** A saved rejection is such an end. */
  lemma RejectionIsFinal(states: seq<System>, actions: seq<Action>, i: nat, k: nat, j: nat)
    requires IsRun(states, actions) && i <= k < |states| && StageAt(states[i].disk, j).status == Rejected
    ensures states[k].disk.phase == Stopped || states[k].disk.phase == Closed
    ensures states[k].disk.stages == states[i].disk.stages && states[k].dispatched == states[i].dispatched
  {
    hide Sound, SafeProcess, DispatchedOnce, Step;
    RunIsSafe(states, actions);
    assert Safe(states[i]);
    EndIsFinal(states, actions, i, k);
    assert Safe(states[k]);
    assert StageAt(states[k].disk, j).status == Rejected;
  }

  // ---------------------------------------------------------------- executing steps

  /** The state that a sequence of actions leads to, if each of them is possible. */
  function Execute(sys: System, actions: seq<Action>): Option<System> {
    if actions == [] then Some(sys) else
      match Execute(sys, actions[..|actions| - 1])
      case None => None
      case Some(before) =>
        var a := actions[|actions| - 1];
        if Enabled(before, a) then Some(Step(before, a)) else None
  }

  lemma ExecuteOne(start: System, actions: seq<Action>, sys: System, a: Action)
    requires Execute(start, actions) == Some(sys) && Enabled(sys, a)
    ensures Execute(start, actions + [a]) == Some(Step(sys, a))
  {
    assert (actions + [a])[..|actions|] == actions;
  }

  lemma {:induction false} ExecuteKeepsSafe(start: System, actions: seq<Action>)
    requires Safe(start) && Execute(start, actions).Some?
    ensures Safe(Execute(start, actions).value)
  {
    hide Safe, Step;
    if actions != [] {
      var front := actions[..|actions| - 1];
      ExecuteKeepsSafe(start, front);
      StepSafe(Execute(start, front).value, actions[|actions| - 1]);
    }
  }

  lemma NothingExecuted(start: System)
    ensures Execute(start, []) == Some(start)
  {
  }
}
