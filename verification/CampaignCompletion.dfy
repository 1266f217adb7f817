/** When a campaign can be completed: what the outside must answer, and from which files it can. */
module CampaignCompletion {
  import opened Words
  import opened Campaign
  import opened CampaignSafety
  import opened CampaignDriver
  import opened CampaignRuns
  import opened CampaignOutcomes

  type RunId = n: nat | n >= 1 witness 1

  /** What the outside answers during one pass over a stage: whether the checks before a dispatch
      pass, how many runs carry the stage's title and which, whether the dispatch is accepted, the run
      found after it, whether that run is the expected one, and how it turns out. */
  datatype Outside = Outside(
    cleared: bool,
    matches: nat,
    match_: RunId,
    accepted: bool,
    found: Option<RunId>,
    identified: bool,
    verdict: Verdict)

  // ---------------------------------------------------------------- one pass

  /** The run that a pass over a stage works on: the known one; or, if the checks pass, for a stage
      marked as dispatched the only one of its title, or one that turns up later, and for any other
      stage one that turns up after an accepted dispatch, if there was none before. */
  ghost function RunOf(s: Stage, out: Outside): Option<nat> {
    if s.run.Some? then s.run
    else if !out.cleared then None
    else if s.status == Dispatching && out.matches == 1 then Some(out.match_)
    else if out.matches == 0 && out.found.Some? && (s.status == Dispatching || out.accepted) then Some(out.found.value)
    else None
  }

  /** The campaign with a stage's run known. */
  ghost function Knowing(c: Campaign, i: nat, run: nat): Campaign {
    WithStage(c, i, StageAt(c, i).(run := Some(run)))
  }

  /** Whether a pass completes a stage that is not completed yet. */
  ghost predicate PassSucceeds(c: Campaign, i: nat, out: Outside) {
    var s := StageAt(c, i);
    s.status != Rejected && RunOf(s, out).Some? && out.identified &&
    Accepted(Knowing(c, i, RunOf(s, out).value), i, out.verdict)
  }

  /** What such a pass makes of the campaign. */
  ghost function Advanced(c: Campaign, i: nat, out: Outside): Campaign
    requires PassSucceeds(c, i, out)
  {
    var found := out.verdict.found;
    WithStage(c, i, Stage(Completed, RunOf(StageAt(c, i), out), Some(found.receipt), found.admission))
      .(fingerprint := Some(found.receipt.fingerprint))
  }

  /** Judging a stage under way is accepting or not what a pass succeeds with. */
  lemma JudgeAdvances(c: Campaign, spec: Spec, out: Outside, now: Campaign)
    requires NamesRuns(c, spec) && RunOf(StageAt(c, spec.stage), out).Some? && out.identified
    requires StageAt(c, spec.stage).status != Rejected
    requires exists status ::
               now == WithStage(c, spec.stage, StageAt(c, spec.stage).(run := RunOf(StageAt(c, spec.stage), out), status := status))
    ensures IsDone(JudgeRun(now, spec, out.verdict), spec.stage) <==> PassSucceeds(c, spec.stage, out)
    ensures PassSucceeds(c, spec.stage, out) ==> JudgeRun(now, spec, out.verdict) == Advanced(c, spec.stage, out)
  {
    hide Passes, Acceptable, CommonReceipt, JudgeRun;
    var i := spec.stage;
    var run := RunOf(StageAt(c, i), out).value;
    var knowing := Knowing(c, i, run);
    assert forall j | j != i :: StageAt(now, j) == StageAt(c, j) && StageAt(knowing, j) == StageAt(c, j);
    NamesStay(c, now, spec);
    JudgeTurnsOut(now, spec, out.verdict);
    if out.verdict.Retrieved? {
      SamePasses(now, knowing, i, out.verdict.found);
    }
    var after := JudgeRun(now, spec, out.verdict);
    if PassSucceeds(c, i, out) {
      JudgeUpdates(now, spec, out.verdict);
      assert StageAt(after, i) == StageAt(Advanced(c, i, out), i);
      assert after.stages == Advanced(c, i, out).stages;
    }
  }

  lemma JudgeUpdates(c: Campaign, spec: Spec, verdict: Verdict)
    ensures var after := JudgeRun(c, spec, verdict);
            spec.stage in after.stages && after.stages == c.stages[spec.stage := StageAt(after, spec.stage)]
  {
    hide Acceptable;
  }

  lemma NamesStay(c: Campaign, c': Campaign, spec: Spec)
    requires NamesRuns(c, spec) && forall j | j != spec.stage :: StageAt(c', j) == StageAt(c, j)
    ensures NamesRuns(c', spec)
  {
  }

  lemma SamePasses(a: Campaign, b: Campaign, i: nat, found: Artifacts)
    requires a.fingerprint == b.fingerprint && StageAt(a, i).run == StageAt(b, i).run
    requires forall j | j != i :: StageAt(a, j) == StageAt(b, j)
    ensures Passes(a, i, found) <==> Passes(b, i, found)
  {
    hide Admits;
  }

  // ---------------------------------------------------------------- the whole chain

  /** Every spec names the runs of the stages that it depends on, whatever the file holds. */
  lemma SpecsNameRuns(c: Campaign, spec: Spec)
    requires Specs(c).Some? && spec in Specs(c).value
    ensures NamesRuns(c, spec)
  {
    if IsDone(c, SECOND_DRESS) && spec in SampleSpecs(c, FIRST_SAMPLE, DoneRun(c, SECOND_DRESS).value).value {
      SamplesNameRuns(c, FIRST_SAMPLE, DoneRun(c, SECOND_DRESS).value, spec);
    }
  }

  lemma {:induction false} SamplesNameRuns(c: Campaign, i: nat, run: nat, spec: Spec)
    requires i >= FIRST_SAMPLE && DoneRun(c, SECOND_DRESS) == Some(run)
    requires SampleSpecs(c, i, run).Some? && spec in SampleSpecs(c, i, run).value
    ensures NamesRuns(c, spec)
    decreases CHAIN - i
  {
    var first := SampleSpec(c, i, run).value;
    if spec != first {
      SamplesNameRuns(c, i + 1, run, spec);
    }
  }

  lemma PendingNamesRuns(c: Campaign)
    requires Specs(c).Some?
    ensures var next := FirstPending(c, Specs(c).value); next.Some? ==> NamesRuns(c, next.value)
  {
    hide Specs, FirstPending;
    PendingIsListed(c, Specs(c).value);
    var next := FirstPending(c, Specs(c).value);
    if next.Some? {
      SpecsNameRuns(c, next.value);
    }
  }

  lemma AdvanceLeavesFewer(c: Campaign, i: nat, out: Outside)
    requires i < CHAIN && !IsDone(c, i) && PassSucceeds(c, i, out)
    ensures Open(Advanced(c, i, out)) < Open(c)
  {
    hide PassSucceeds;
    FewerOpen(c, Advanced(c, i, out), i);
  }

  /** Whether the answers `outside(pass)`, `outside(pass + 1)`, ... complete the chain: every stage in
      turn is picked and its pass succeeds. */
  ghost predicate Finishes(c: Campaign, outside: nat -> Outside, pass: nat)
    decreases Open(c)
  {
    Specs(c).Some? &&
    match FirstPending(c, Specs(c).value)
    case None => true
    case Some(spec) =>
      NeverSpins(c);
      PassSucceeds(c, spec.stage, outside(pass)) && (
        AdvanceLeavesFewer(c, spec.stage, outside(pass));
        Finishes(Advanced(c, spec.stage, outside(pass)), outside, pass + 1))
  }

  // ---------------------------------------------------------------- from which files it can be done

  /** The second full-dress run is not under way on the run of the first. */
  predicate DressRunsMayDiffer(c: Campaign) {
    var first, second := StageAt(c, FIRST_DRESS), StageAt(c, SECOND_DRESS);
    second.run.Some? ==> second.run != first.run
  }

  /** Evidence that passes. */
  ghost function GoodArtifacts(c: Campaign, i: nat, run: nat): Artifacts {
    var first, dress, before := StageAt(c, FIRST_DRESS), StageAt(c, SECOND_DRESS), StageAt(c, if i > 0 then i - 1 else 0);
    var runner := if c.fingerprint.Some? then c.fingerprint.value else 0;
    var contracts := if i == SECOND_DRESS && first.receipt.Some? then first.receipt.value.contracts
                     else if i > SECOND_DRESS && dress.admission.Some? then dress.admission.value.contracts else 0;
    var chained := FIRST_SAMPLE < i < CHAIN && before.receipt.Some?;
    Artifacts(
      Receipt(0, run, runner, contracts, if i >= 2 then i - 2 else 0,
              if dress.admission.Some? then dress.admission.value.digest else 0,
              if chained then before.run else None,
              if chained then Some(before.receipt.value.digest) else None),
      if i == SECOND_DRESS && first.run.Some? && first.receipt.Some?
      then Some(Admission(0, runner, contracts, [(first.run.value, first.receipt.value.digest), (run, 0)]))
      else None)
  }

  lemma GoodPasses(c: Campaign, i: nat, run: nat)
    requires Sound(c) && i < CHAIN && !IsDone(c, i) && (forall k | 0 <= k < i :: IsDone(c, k)) && run >= 1
    requires i == SECOND_DRESS ==> StageAt(c, FIRST_DRESS).run != Some(run)
    ensures Passes(Knowing(c, i, run), i, GoodArtifacts(c, i, run))
  {
    hide Serialized;
    var c' := Knowing(c, i, run);
    assert forall j | j != i :: StageAt(c', j) == StageAt(c, j);
    if i == SECOND_DRESS {
      assert IsDone(c, FIRST_DRESS) && StageIsSound(StageAt(c, FIRST_DRESS)) && OneRunner(c, FIRST_DRESS);
    } else if i >= FIRST_SAMPLE {
      assert IsDone(c, SECOND_DRESS);
      if i > FIRST_SAMPLE {
        assert IsDone(c, i - 1) && StageIsSound(StageAt(c, i - 1));
      }
    }
  }

  /** Answers with which a pass over the next stage succeeds. */
  lemma CanAdvance(c: Campaign, i: nat) returns (out: Outside)
    requires Sound(c) && NoneRejected(c) && DressRunsMayDiffer(c)
    requires i < CHAIN && !IsDone(c, i) && forall k | 0 <= k < i :: IsDone(c, k)
    ensures PassSucceeds(c, i, out)
  {
    hide Serialized, Linked, Passes, GoodArtifacts;
    var s, first := StageAt(c, i), StageAt(c, FIRST_DRESS);
    assert StageIsSound(s) && StageIsSound(first) && s.status != Rejected;
    var run: RunId := if s.run.Some? then s.run.value else if first.run.Some? then first.run.value + 1 else 1;
    var found := GoodArtifacts(c, i, run);
    GoodPasses(c, i, run);
    out := Outside(true, 0, 1, true, Some(run), true, Retrieved(found, true, true));
  }

  /** A pass that succeeds leaves a file from which the campaign can still be completed. */
  lemma AdvanceKeeps(c: Campaign, spec: Spec, out: Outside)
    requires Sound(c) && NoneRejected(c) && DressRunsMayDiffer(c)
    requires Due(c, spec) && spec.stage < CHAIN && !IsDone(c, spec.stage) && PassSucceeds(c, spec.stage, out)
    ensures var c' := Advanced(c, spec.stage, out); Sound(c') && NoneRejected(c') && DressRunsMayDiffer(c')
  {
    hide Serialized, Linked, Accepted, JudgeRun, AdmissionChain;
    var i := spec.stage;
    var run := RunOf(StageAt(c, i), out).value;
    assert StageIsSound(StageAt(c, i));
    var s := StageAt(c, i).(run := Some(run), status := Running);
    var now := WithStage(c, i, s);
    UpdateIsSound(c, spec, s);
    DueAfterUpdate(c, spec, s);
    JudgeAdvances(c, spec, out, now);
    JudgeIsSound(now, spec, out.verdict);
    var c' := Advanced(c, i, out);
    UpdateFits(c, i, StageAt(c', i));
    SameStagesFit(WithStage(c, i, StageAt(c', i)), c');
    if IsDone(c', SECOND_DRESS) {
      SoundIsAdmitted(c');
      DressRunsDiffer(c');
    } else {
      assert StageIsSound(StageAt(c', SECOND_DRESS));
      assert StageAt(c', SECOND_DRESS) == StageAt(c, SECOND_DRESS);
      if i == FIRST_DRESS {
        LaterIsPending(c, FIRST_DRESS, SECOND_DRESS);
      }
    }
  }

  lemma SoundIsAdmitted(c: Campaign)
    requires Sound(c)
    ensures Admitted(c)
  {
  }

  lemma {:induction false} SameAnswers(c: Campaign, a: nat -> Outside, b: nat -> Outside, pass: nat)
    requires Finishes(c, a, pass) && forall k: nat | k >= pass :: a(k) == b(k)
    ensures Finishes(c, b, pass)
    decreases Open(c)
  {
    hide Specs, FirstPending, PassSucceeds;
    var next := FirstPending(c, Specs(c).value);
    if next.Some? {
      NeverSpins(c);
      AdvanceLeavesFewer(c, next.value.stage, a(pass));
      SameAnswers(Advanced(c, next.value.stage, a(pass)), a, b, pass + 1);
    }
  }

  lemma {:induction false} CanFinish(c: Campaign, pass: nat) returns (outside: nat -> Outside)
    requires Sound(c) && NoneRejected(c) && DressRunsMayDiffer(c)
    ensures Finishes(c, outside, pass)
    decreases Open(c)
  {
    hide Sound, Specs, FirstPending, PassSucceeds, NoneRejected, DressRunsMayDiffer, Due;
    var n := DoneIsPrefix(c);
    NextIsDue(c, n);
    if n == CHAIN {
      outside := (_) => Outside(false, 0, 1, false, None, false, Failed);
    } else {
      var spec := FirstPending(c, Specs(c).value).value;
      var out := CanAdvance(c, n);
      AdvanceKeeps(c, spec, out);
      AdvanceLeavesFewer(c, n, out);
      var c' := Advanced(c, n, out);
      var rest := CanFinish(c', pass + 1);
      outside := (k: nat) => if k == pass then out else rest(k);
      SameAnswers(c', rest, outside, pass + 1);
    }
  }

  lemma CannotFinish(c: Campaign, outside: nat -> Outside, pass: nat)
    requires Sound(c) && !DressRunsMayDiffer(c)
    ensures !Finishes(c, outside, pass)
  {
    hide Specs, FirstPending, Due;
    var first, second := StageAt(c, FIRST_DRESS), StageAt(c, SECOND_DRESS);
    assert StageIsSound(first) && StageIsSound(second);
    if IsDone(c, SECOND_DRESS) {
      DressRunsDiffer(c);
    }
    PicksSecond(c);
    var i := SECOND_DRESS;
    assert StageAt(Knowing(c, i, second.run.value), FIRST_DRESS) == first;
    assert !PassSucceeds(c, i, outside(pass));
  }

  lemma PicksSecond(c: Campaign)
    requires Sound(c) && StageAt(c, SECOND_DRESS).run.Some? && !IsDone(c, SECOND_DRESS)
    ensures Specs(c).Some?
    ensures var next := FirstPending(c, Specs(c).value); next.Some? && next.value.stage == SECOND_DRESS
  {
    hide Linked, Specs, FirstPending, Due;
    assert StageIsSound(StageAt(c, SECOND_DRESS));
    var n := DoneIsPrefix(c);
    assert IsDone(c, SECOND_DRESS) <==> SECOND_DRESS < n;
    NextIsDue(c, n);
  }

  /** From a sound file without a rejection, some answers of the outside complete the campaign if and
      only if the second full-dress run is not under way on the run of the first. */
  lemma CompletionExactly(c: Campaign)
    requires Sound(c) && NoneRejected(c)
    ensures (exists outside: nat -> Outside :: Finishes(c, outside, 0)) <==> DressRunsMayDiffer(c)
  {
    hide Sound, NoneRejected, Finishes;
    if DressRunsMayDiffer(c) {
      var outside := CanFinish(c, 0);
    } else {
      forall outside: nat -> Outside ensures !Finishes(c, outside, 0) {
        CannotFinish(c, outside, 0);
      }
    }
  }

  /** In every campaign that has not ended, with no controller at work, a restart can be led to
      completion exactly under that condition. */
  lemma RestartCanComplete(states: seq<System>, actions: seq<Action>, i: nat)
    requires IsRun(states, actions) && i < |states| && states[i].proc.None? && Runnable(states[i].disk.phase)
    ensures (exists outside: nat -> Outside :: Finishes(states[i].disk.(phase := InProgress), outside, 0)) <==>
            DressRunsMayDiffer(states[i].disk)
  {
    hide Sound, NoneRejected, Finishes, DispatchedOnce;
    var c := states[i].disk;
    RunIsSafe(states, actions);
    assert Safe(states[i]);
    PhaseIsSound(c, InProgress);
    SameStagesFit(c, c.(phase := InProgress));
    CompletionExactly(c.(phase := InProgress));
  }

  /** A sound file from which no answers complete the campaign: the second full-dress run is queued
      on the run of the first. */
  lemma SharedDressRun() returns (c: Campaign)
    ensures Sound(c) && NoneRejected(c) && Runnable(c.phase)
    ensures forall outside: nat -> Outside :: !Finishes(c, outside, 0)
  {
    hide Finishes;
    var first, second := Receipt(0, 1, 0, 0, 0, 0, None, None), Receipt(0, 2, 0, 0, 0, 0, None, None);
    c := Campaign(InProgress,
                  map[0 := Stage(Completed, Some(1), Some(first), None),
                      FIRST_DRESS := Stage(Completed, Some(2), Some(second), None),
                      SECOND_DRESS := Stage(Queued, Some(2), None, None)],
                  Some(0));
    assert forall j | j >= FIRST_SAMPLE :: StageAt(c, j) == NEW_STAGE;
    forall outside: nat -> Outside ensures !Finishes(c, outside, 0) {
      CannotFinish(c, outside, 0);
    }
  }
}
