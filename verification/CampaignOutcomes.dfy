/** How a stage turns out, exactly, and what it is dispatched with. */
module CampaignOutcomes {
  import opened Words
  import opened Campaign
  import opened CampaignSafety
  import opened CampaignDriver
  import opened CampaignRuns

  // ---------------------------------------------------------------- what evidence must say

  /** The two runs are listed once each, in either order, each with its receipt. */
  ghost predicate ListsBoth(members: seq<(nat, nat)>, first: (nat, nat), second: (nat, nat)) {
    (members == [first, second] || members == [second, first]) &&
    first.0 != second.0 && first.0 > 0 && second.0 > 0
  }

  /** An admission agrees with both full-dress receipts on runner and contracts, and lists both. */
  ghost predicate Admits(a: Admission, firstRun: nat, first: Receipt, secondRun: nat, second: Receipt) {
    a.fingerprint == first.fingerprint && a.fingerprint == second.fingerprint &&
    a.contracts == first.contracts && a.contracts == second.contracts &&
    ListsBoth(a.members, (firstRun, first.digest), (secondRun, second.digest))
  }

  /** A sample carries its number, the admission and its contracts, and the run and the receipt of
      the sample before, if there is one. */
  ghost predicate Continues(c: Campaign, i: nat, r: Receipt)
    requires i >= FIRST_SAMPLE
  {
    var dress, before := StageAt(c, SECOND_DRESS), StageAt(c, i - 1);
    r.sample == i - 2 &&
    dress.admission.Some? && r.admission == dress.admission.value.digest && r.contracts == dress.admission.value.contracts &&
    if i == FIRST_SAMPLE then r.predecessor == None && r.predecessorDigest == None
    else r.predecessor == before.run && before.receipt.Some? && r.predecessorDigest == Some(before.receipt.value.digest)
  }

  /** What the evidence of stage `i` must say: it is about the stage's own run on the campaign's
      runner, only the second full-dress run brings an admission, and samples form a chain. */
  ghost predicate Passes(c: Campaign, i: nat, found: Artifacts) {
    var s, first, r := StageAt(c, i), StageAt(c, FIRST_DRESS), found.receipt;
    s.run == Some(r.run) && (c.fingerprint == None || c.fingerprint == Some(r.fingerprint)) &&
    (i == FIRST_DRESS ==> found.admission == None) &&
    (i == SECOND_DRESS ==>
       found.admission.Some? && first.run.Some? && first.receipt.Some? &&
       Admits(found.admission.value, first.run.value, first.receipt.value, r.run, r)) &&
    (FIRST_SAMPLE <= i < CHAIN ==> Continues(c, i, r))
  }

  lemma TableOfTwo(members: seq<(nat, nat)>)
    requires |members| == 2
    ensures var a, b := members[0], members[1];
            MemberTable(members) == if a.0 == 0 || b.0 == 0 || a.0 == b.0 then None else Some(map[a.0 := a.1, b.0 := b.1])
  {
    var front := members[..1];
    assert front[..0] == [];
    assert MemberTable(front[..0]) == Some(map[]);
    assert MemberTable(front) == if members[0].0 == 0 then None else Some(map[members[0].0 := members[0].1]);
  }

  lemma TableListsBoth(members: seq<(nat, nat)>, first: (nat, nat), second: (nat, nat))
    ensures |members| == 2 && MemberTable(members) == Some(map[first.0 := first.1][second.0 := second.1]) <==>
            ListsBoth(members, first, second)
  {
    if |members| == 2 {
      TableOfTwo(members);
      var a, b := members[0], members[1];
      var listed, wanted := map[a.0 := a.1, b.0 := b.1], map[first.0 := first.1][second.0 := second.1];
      if a.0 != b.0 && listed == wanted {
        assert a.0 in wanted && b.0 in wanted;
        assert first.0 in listed && second.0 in listed;
        assert wanted[second.0] == second.1;
        assert members == [a, b];
      }
      if ListsBoth(members, first, second) {
        assert listed == wanted;
      }
    }
  }

  /** The checks as coded, with a spec that names the right runs, are those of `Passes`. */
  lemma ChecksAreExact(c: Campaign, spec: Spec, found: Artifacts)
    requires NamesRuns(c, spec) && StageAt(c, spec.stage).run.Some?
    ensures CommonReceipt(c, StageAt(c, spec.stage).run.value, found.receipt) &&
            Acceptable(c, spec, StageAt(c, spec.stage).run.value, found) <==>
            Passes(c, spec.stage, found)
  {
    hide MemberTable;
    var first, r, run := StageAt(c, FIRST_DRESS), found.receipt, StageAt(c, spec.stage).run.value;
    if spec.stage == SECOND_DRESS && found.admission.Some? && first.run.Some? && first.receipt.Some? {
      TableListsBoth(found.admission.value.members, (first.run.value, first.receipt.value.digest), (run, r.digest));
    }
  }

  // ---------------------------------------------------------------- how a stage turns out

  /** The run succeeded, its evidence could be read and is intact and passes. */
  ghost predicate Accepted(c: Campaign, i: nat, verdict: Verdict) {
    verdict.Retrieved? && verdict.readable && verdict.intact && Passes(c, i, verdict.found)
  }

  /** A receipt of the stage's own run fixes the runner, whatever else is wrong with the evidence. */
  ghost predicate FixesRunner(c: Campaign, i: nat, verdict: Verdict) {
    verdict.Retrieved? && verdict.readable && StageAt(c, i).run == Some(verdict.found.receipt.run) &&
    (c.fingerprint == None || c.fingerprint == Some(verdict.found.receipt.fingerprint))
  }

  /** What judging stage `i` makes of a campaign: the stage is completed with its evidence if that is
      accepted, waits if the evidence of a successful run could not be fetched, and is rejected
      otherwise; the run id stays, and so do the other stages. */
  ghost predicate TurnsOut(c: Campaign, i: nat, verdict: Verdict, c': Campaign) {
    var s, s' := StageAt(c, i), StageAt(c', i);
    s'.run == s.run &&
    (forall j | j != i :: StageAt(c', j) == StageAt(c, j)) &&
    if Accepted(c, i, verdict) then
      s'.status == Completed && s'.receipt == Some(verdict.found.receipt) && s'.admission == verdict.found.admission &&
      c'.fingerprint == Some(verdict.found.receipt.fingerprint) && c'.phase == c.phase
    else
      s'.receipt == s.receipt && s'.admission == s.admission &&
      c'.fingerprint == (if FixesRunner(c, i, verdict) then Some(verdict.found.receipt.fingerprint) else c.fingerprint) &&
      if verdict == NoArtifacts then s'.status == Awaiting && c'.phase == AwaitingArtifacts
      else s'.status == Rejected && c'.phase == Stopped
  }

  lemma JudgeTurnsOut(c: Campaign, spec: Spec, verdict: Verdict)
    requires NamesRuns(c, spec) && StageAt(c, spec.stage).run.Some?
    ensures TurnsOut(c, spec.stage, verdict, JudgeRun(c, spec, verdict))
  {
    hide NamesRuns, Passes, Acceptable, MemberTable;
    if verdict.Retrieved? {
      ChecksAreExact(c, spec, verdict.found);
    }
  }

  /** In every campaign a judged stage turns out exactly so, and once that is saved it is in the file
      and the controller goes on only if the stage was completed. */
  lemma JudgedExactly(states: seq<System>, actions: seq<Action>, i: nat)
    requires IsRun(states, actions) && i < |actions| && actions[i].Judge?
    ensures states[i].proc.Some? && states[i].proc.value.pc.Watching? && states[i + 1].proc.Some?
    ensures TurnsOut(states[i].proc.value.mem, states[i].proc.value.pc.spec.stage, actions[i].verdict,
                     states[i + 1].proc.value.mem)
    ensures i + 1 < |actions| ==> actions[i + 1] == Save || actions[i + 1] == Stop
    ensures i + 1 < |actions| && actions[i + 1] == Save ==>
              var p, k := states[i + 1].proc.value, states[i].proc.value.pc.spec.stage;
              states[i + 2].disk == p.mem && (states[i + 2].proc.Some? <==> IsDone(p.mem, k))
  {
    hide Sound, PhaseFits, DispatchedOnce, TurnsOut, JudgeRun, Follows, Phases;
    RunIsSafe(states, actions);
    assert Safe(states[i]);
    assert Enabled(states[i], actions[i]) && states[i + 1] == Step(states[i], actions[i]);
    var p := states[i].proc.value;
    JudgeTurnsOut(p.mem, p.pc.spec, actions[i].verdict);
    if i + 1 < |actions| {
      assert Enabled(states[i + 1], actions[i + 1]) && states[i + 2] == Step(states[i + 1], actions[i + 1]);
    }
  }

  // ---------------------------------------------------------------- what a stage is dispatched with

  /** Outside the states named after a change, the file holds what the controller has in memory. */
  ghost predicate InSync(sys: System) {
    sys.proc.Some? && !Unsaved(sys.proc.value.pc) ==> sys.disk == sys.proc.value.mem
  }

  lemma StepInSync(sys: System, a: Action)
    requires InSync(sys) && Enabled(sys, a)
    ensures InSync(Step(sys, a))
  {
    hide Specs, FirstPending, JudgeRun;
  }

  lemma RunInSync(states: seq<System>, actions: seq<Action>, i: nat)
    requires IsRun(states, actions) && i < |states|
    ensures InSync(states[i])
  {
    hide Step;
    for k := 0 to i
      invariant InSync(states[k])
    {
      StepInSync(states[k], actions[k]);
    }
  }

  /** In every campaign, a dispatched stage is the next of the chain or the frozen candidate; the
      second full-dress run is dispatched with the run of the first, and a sample with the run that
      published the admission and the run of the sample before it, all as they are in the file. */
  lemma DispatchNamesRuns(states: seq<System>, actions: seq<Action>, i: nat)
    requires IsRun(states, actions) && i < |actions| && actions[i].Dispatch?
    ensures states[i].proc.Some? && states[i].proc.value.pc.Saved?
    ensures var spec, c := states[i].proc.value.pc.spec, states[i].disk;
            spec == FROZEN_SPEC ||
            (spec.stage < CHAIN && (forall k | 0 <= k < spec.stage :: IsDone(c, k)) &&
             (spec.stage == SECOND_DRESS ==> spec.predecessor.Some? && spec.predecessor == StageAt(c, FIRST_DRESS).run) &&
             (spec.stage > FIRST_SAMPLE ==> spec.predecessor.Some? && spec.predecessor == StageAt(c, spec.stage - 1).run) &&
             (spec.stage >= FIRST_SAMPLE ==> spec.admissionRun.Some? && spec.admissionRun == StageAt(c, SECOND_DRESS).run))
  {
    hide Serialized, Linked, PhaseFits, DispatchedOnce, Follows, Phases, Step;
    RunIsSafe(states, actions);
    RunInSync(states, actions, i);
    assert Safe(states[i]) && Enabled(states[i], actions[i]);
    var spec, c := states[i].proc.value.pc.spec, states[i].disk;
    assert Due(c, spec) && (spec == FROZEN_SPEC || NamesRuns(c, spec));
    if spec != FROZEN_SPEC && spec.stage >= SECOND_DRESS {
      assert IsDone(c, spec.stage - 1) && StageIsSound(StageAt(c, spec.stage - 1));
      assert spec.stage >= FIRST_SAMPLE ==> IsDone(c, SECOND_DRESS) && StageIsSound(StageAt(c, SECOND_DRESS));
    }
  }

  // ---------------------------------------------------------------- what completion means

  ghost predicate ChainDone(c: Campaign) {
    forall k | 0 <= k < CHAIN :: IsDone(c, k)
  }

  /** What a controller was started for is completed. */
  ghost predicate GoalDone(goal: Goal, c: Campaign) {
    if goal == RunFrozen then IsDone(c, FROZEN) else ChainDone(c)
  }

  /** The frozen candidate is the only stage of its controller, and a controller finishes only with
      its goal completed. */
  ghost predicate FinishesDone(p: Process) {
    (p.goal == RunFrozen && HasSpec(p.pc) ==> p.pc.spec == FROZEN_SPEC) &&
    (p.pc.Finishing? || p.pc.Finished? ==> GoalDone(p.goal, p.mem)) &&
    (p.mem.phase == Complete ==> p.pc.Finished?)
  }

  ghost predicate CompleteIsDone(sys: System) {
    (sys.disk.phase == Complete ==> ChainDone(sys.disk) || IsDone(sys.disk, FROZEN)) &&
    (sys.proc.Some? ==> FinishesDone(sys.proc.value))
  }

  lemma DecideFinishesDone(p: Process)
    requires Sound(p.mem) && FinishesDone(p) && p.pc.Deciding? && p.goal == RunChain
    ensures DecideNext(p).Some? ==> FinishesDone(DecideNext(p).value)
  {
    hide Sound, Specs, FirstPending, Due;
    var n := DoneIsPrefix(p.mem);
    NextIsDue(p.mem, n);
  }

  lemma JudgeKeepsPhase(c: Campaign, spec: Spec, verdict: Verdict)
    requires c.phase != Complete
    ensures JudgeRun(c, spec, verdict).phase != Complete
  {
    hide Acceptable;
  }

  lemma StepFinishesDone(sys: System, a: Action)
    requires Safe(sys) && Enabled(sys, a) && CompleteIsDone(sys)
    ensures CompleteIsDone(Step(sys, a))
  {
    hide Sound, Follows, NoneRejected, DispatchedOnce, Specs, FirstPending, JudgeRun, ChainDone, Due;
    if a.Decide? {
      DecideFinishesDone(sys.proc.value);
    } else if a.Judge? {
      JudgeKeepsPhase(sys.proc.value.mem, sys.proc.value.pc.spec, a.verdict);
    } else if a.Finish? {
      SameDone(sys.proc.value.mem, Complete);
    }
  }

  lemma SameDone(c: Campaign, phase: Phase)
    ensures ChainDone(c) ==> ChainDone(c.(phase := phase))
  {
    forall k | 0 <= k < CHAIN ensures IsDone(c, k) ==> IsDone(c.(phase := phase), k) {
    }
  }

  /** In every campaign, a file that says complete has all eight stages of the chain completed, or the
      frozen candidate. */
  lemma CompleteMeansDone(states: seq<System>, actions: seq<Action>, i: nat)
    requires IsRun(states, actions) && i < |states| && states[i].disk.phase == Complete
    ensures (forall k | 0 <= k < CHAIN :: IsDone(states[i].disk, k)) || IsDone(states[i].disk, FROZEN)
  {
    hide Safe, Step, FinishesDone;
    RunIsSafe(states, actions);
    for n := 0 to i
      invariant CompleteIsDone(states[n])
    {
      StepFinishesDone(states[n], actions[n]);
    }
  }

  // ---------------------------------------------------------------- resuming

  /** The stage under way is the one that is picked. */
  lemma PicksUp(c: Campaign, j: nat)
    requires Sound(c) && j < CHAIN && StageAt(c, j).run.Some? && !Ended(StageAt(c, j))
    ensures Specs(c).Some?
    ensures var next := FirstPending(c, Specs(c).value); next.Some? && next.value.stage == j
  {
    hide Serialized, Linked, Specs, FirstPending, Due;
    assert StageIsSound(StageAt(c, j));
    var n := DoneIsPrefix(c);
    assert IsDone(c, j) <==> j < n;
    NextIsDue(c, n);
  }

  /** Whatever stage was under way when the controller stopped, once its run is known a restart goes
      back to watching that run, whatever other runs exist, and dispatches nothing. In particular a
      stage that waits for its artifacts is judged again on the same run. */
  lemma ResumesRun(states: seq<System>, actions: seq<Action>, i: nat, j: nat, matches: nat, run: nat)
    returns (sys: System)
    requires IsRun(states, actions) && i < |states| && j < CHAIN && run >= 1
    requires states[i].proc.None? && Runnable(states[i].disk.phase)
    requires var s := StageAt(states[i].disk, j); s.run.Some? && !Ended(s)
    ensures Execute(states[i], [Start(RunChain), Save, Decide, Check(matches, run), View, Save]) == Some(sys)
    ensures sys.dispatched == states[i].dispatched && sys.proc.Some?
    ensures var p := sys.proc.value;
            p.pc.Watching? && p.pc.spec.stage == j && StageAt(p.mem, j).run == StageAt(states[i].disk, j).run
    ensures forall verdict :: Enabled(sys, Judge(verdict))
  {
    hide Execute, Specs, FirstPending, Sound;
    var start := states[i];
    assert Sound(start.disk) by {
      RunIsSafe(states, actions);
      assert Safe(states[i]);
    }
    var c := start.disk.(phase := InProgress);
    PhaseIsSound(start.disk, InProgress);
    PicksUp(c, j);
    var spec := FirstPending(c, Specs(c).value).value;
    NothingExecuted(start);
    var trace: seq<Action>;
    trace, sys := Take(start, [], start, Start(RunChain));
    trace, sys := Take(start, trace, sys, Save);
    trace, sys := Take(start, trace, sys, Decide);
    assert sys == System(c, Some(Process(RunChain, Checking(spec), c)), start.dispatched);
    trace, sys := Take(start, trace, sys, Check(matches, run));
    trace, sys := Take(start, trace, sys, View);
    trace, sys := Take(start, trace, sys, Save);
    assert trace == [Start(RunChain), Save, Decide, Check(matches, run), View, Save];
  }

  lemma Take(start: System, past: seq<Action>, sys: System, a: Action) returns (trace: seq<Action>, next: System)
    requires Execute(start, past) == Some(sys) && Enabled(sys, a)
    ensures trace == past + [a] && next == Step(sys, a) && Execute(start, trace) == Some(next)
  {
    ExecuteOne(start, past, sys, a);
    trace, next := past + [a], Step(sys, a);
  }
}
