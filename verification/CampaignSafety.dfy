/** What holds in every state of every campaign, whatever crashes and restarts it goes through. */
module CampaignSafety {
  import opened Words
  import opened Campaign

  // ---------------------------------------------------------------- sound campaigns

  /** A stage has a run id exactly from its correlation on, and a receipt when completed. */
  predicate StageIsSound(s: Stage) {
    (s.run.Some? <==> s.status != Pending && s.status != Dispatching) &&
    (s.run.Some? ==> s.run.value >= 1) &&
    (s.status == Completed ==> s.receipt.Some? && s.receipt.value.run == s.run.value)
  }

  /** No stage of the chain is begun before the one before it is completed. */
  ghost predicate Serialized(c: Campaign) {
    forall j | 0 < j < CHAIN :: StageAt(c, j).status != Pending ==> IsDone(c, j - 1)
  }

  /** Accepted receipts come from one runner. */
  predicate OneRunner(c: Campaign, j: nat) {
    IsDone(c, j) ==>
      StageAt(c, j).receipt.Some? && c.fingerprint == Some(StageAt(c, j).receipt.value.fingerprint)
  }

  predicate Admitted(c: Campaign) {
    var first, second := StageAt(c, FIRST_DRESS), StageAt(c, SECOND_DRESS);
    IsDone(c, SECOND_DRESS) ==>
      second.run.Some? && second.receipt.Some? && second.admission.Some? &&
      AdmissionChain(first, second.run.value, second.receipt.value, second.admission.value)
  }

  /** A completed sample names its index, the admission, and the run and receipt before it. */
  predicate SampleLinked(c: Campaign, j: nat)
    requires j >= FIRST_SAMPLE
  {
    var s, dress := StageAt(c, j), StageAt(c, SECOND_DRESS);
    IsDone(c, j) ==>
      s.receipt.Some? && dress.admission.Some? &&
      s.receipt.value.sample == j - FIRST_SAMPLE + 1 &&
      s.receipt.value.admission == dress.admission.value.digest &&
      s.receipt.value.contracts == dress.admission.value.contracts &&
      if j == FIRST_SAMPLE then s.receipt.value.predecessor == None && s.receipt.value.predecessorDigest == None
      else
        var before := StageAt(c, j - 1);
        before.run.Some? && s.receipt.value.predecessor == before.run &&
        before.receipt.Some? && s.receipt.value.predecessorDigest == Some(before.receipt.value.digest)
  }

  ghost predicate Linked(c: Campaign) {
    (forall j :: OneRunner(c, j)) && Admitted(c) &&
    (forall j | FIRST_SAMPLE <= j < CHAIN :: SampleLinked(c, j))
  }

  ghost predicate Sound(c: Campaign) {
    (forall j :: StageIsSound(StageAt(c, j))) && Serialized(c) && Linked(c)
  }

  /** The second full-dress run and every sample but the first name the run before them, and every
      sample the run that published the admission. */
  ghost predicate NamesRuns(c: Campaign, spec: Spec) {
    spec.predecessor ==
      (if spec.stage == SECOND_DRESS || FIRST_SAMPLE < spec.stage < CHAIN then StageAt(c, spec.stage - 1).run else None) &&
    spec.admissionRun == (if FIRST_SAMPLE <= spec.stage < CHAIN then StageAt(c, SECOND_DRESS).run else None)
  }

  /** The stage is the next one of the chain, or the frozen candidate. */
  ghost predicate Due(c: Campaign, spec: Spec) {
    spec == FROZEN_SPEC ||
    (spec.stage < CHAIN && (forall k | 0 <= k < spec.stage :: IsDone(c, k)) && NamesRuns(c, spec))
  }

  /** While a stage is not completed, nothing after it has begun. */
  lemma LaterIsPending(c: Campaign, i: nat, j: nat)
    requires Serialized(c) && !IsDone(c, i) && i < j < CHAIN
    ensures StageAt(c, j).status == Pending
  {
    for k := i + 1 to j
      invariant StageAt(c, k).status == Pending
    {
    }
  }

  // ---------------------------------------------------------------- changing one stage

  /** Updating the stage at work, short of completing it, keeps a campaign sound. */
  lemma UpdateIsSound(c: Campaign, spec: Spec, s: Stage)
    requires Sound(c) && Due(c, spec) && !IsDone(c, spec.stage)
    requires StageIsSound(s) && s.status != Completed
    ensures Sound(WithStage(c, spec.stage, s))
  {
    var i, c' := spec.stage, WithStage(c, spec.stage, s);
    forall j | 0 < j < CHAIN
      ensures StageAt(c', j).status != Pending ==> IsDone(c', j - 1)
    {
      if i < j {
        LaterIsPending(c, i, j);
      } else {
        assert i == j || StageAt(c', j) == StageAt(c, j);
        assert StageAt(c', j).status != Pending ==> IsDone(c, j - 1);
      }
    }
    forall j
      ensures OneRunner(c', j)
    {
      assert OneRunner(c, j);
    }
    LinksSurvive(c, c', i);
  }

  /** Links between completed stages do not depend on a stage that was not completed. */
  lemma LinksSurvive(c: Campaign, c': Campaign, i: nat)
    requires Sound(c) && !IsDone(c, i) && Serialized(c)
    requires forall j | j != i :: StageAt(c', j) == StageAt(c, j)
    ensures i != SECOND_DRESS ==> Admitted(c')
    ensures forall j | FIRST_SAMPLE <= j < CHAIN && j != i :: SampleLinked(c', j)
  {
    if i < SECOND_DRESS {
      LaterIsPending(c, i, SECOND_DRESS);
    }
    forall j | FIRST_SAMPLE <= j < CHAIN && j != i
      ensures SampleLinked(c', j)
    {
      assert SampleLinked(c, j);
      if i < j {
        LaterIsPending(c, i, j);
      }
    }
  }

  /** Fixing the runner, consistently with a known one, keeps a campaign sound. */
  lemma FingerprintIsSound(c: Campaign, fingerprint: nat)
    requires Sound(c) && (c.fingerprint.Some? ==> c.fingerprint.value == fingerprint)
    ensures Sound(c.(fingerprint := Some(fingerprint)))
  {
    var c' := c.(fingerprint := Some(fingerprint));
    assert forall j :: StageAt(c', j) == StageAt(c, j);
    forall j
      ensures OneRunner(c', j)
    {
      assert OneRunner(c, j);
    }
    forall j | FIRST_SAMPLE <= j < CHAIN
      ensures SampleLinked(c', j)
    {
      assert SampleLinked(c, j);
    }
  }

  lemma PhaseIsSound(c: Campaign, phase: Phase)
    requires Sound(c)
    ensures Sound(c.(phase := phase))
  {
    var c' := c.(phase := phase);
    assert forall j :: StageAt(c', j) == StageAt(c, j);
    forall j
      ensures OneRunner(c', j)
    {
      assert OneRunner(c, j);
    }
    forall j | FIRST_SAMPLE <= j < CHAIN
      ensures SampleLinked(c', j)
    {
      assert SampleLinked(c, j);
    }
  }

  /** Accepting the stage at work extends the chain. */
  lemma AcceptIsSound(c: Campaign, spec: Spec, found: Artifacts)
    requires Sound(c) && Due(c, spec) && !IsDone(c, spec.stage) && StageAt(c, spec.stage).run.Some?
    requires c.fingerprint == Some(found.receipt.fingerprint) && found.receipt.run == StageAt(c, spec.stage).run.value
    requires Acceptable(c, spec, StageAt(c, spec.stage).run.value, found)
    ensures Sound(Accepting(c, spec.stage, found))
  {
    var i, c' := spec.stage, Accepting(c, spec.stage, found);
    forall j | 0 < j < CHAIN
      ensures StageAt(c', j).status != Pending ==> IsDone(c', j - 1)
    {
      if i < j {
        LaterIsPending(c, i, j);
      } else {
        assert i == j || StageAt(c', j) == StageAt(c, j);
        assert StageAt(c', j).status != Pending ==> IsDone(c, j - 1);
      }
    }
    forall j
      ensures OneRunner(c', j)
    {
      assert OneRunner(c, j);
    }
    LinksSurvive(c, c', i);
    if FIRST_SAMPLE <= i < CHAIN {
      SampleIsLinked(c, spec, found);
    }
  }

  lemma SampleIsLinked(c: Campaign, spec: Spec, found: Artifacts)
    requires Sound(c) && Due(c, spec) && FIRST_SAMPLE <= spec.stage < CHAIN
    requires SampleChain(c, spec, found.receipt)
    ensures SampleLinked(Accepting(c, spec.stage, found), spec.stage)
  {
    hide Serialized, Linked;
    if spec.stage > FIRST_SAMPLE {
      assert IsDone(c, spec.stage - 1) && StageIsSound(StageAt(c, spec.stage - 1));
    }
  }

  lemma JudgeIsSound(c: Campaign, spec: Spec, verdict: Verdict)
    requires Sound(c) && Due(c, spec) && !IsDone(c, spec.stage) && StageAt(c, spec.stage).run.Some?
    ensures Sound(JudgeRun(c, spec, verdict))
  {
    hide Sound, Acceptable;
    var i := spec.stage;
    StatusIsSound(c, spec, Rejected);
    StatusIsSound(c, spec, Awaiting);
    PhaseIsSound(WithStatus(c, i, Rejected), Stopped);
    PhaseIsSound(WithStatus(c, i, Awaiting), AwaitingArtifacts);
    if verdict.Retrieved? && CommonReceipt(c, StageAt(c, i).run.value, verdict.found.receipt) {
      var c' := c.(fingerprint := Some(verdict.found.receipt.fingerprint));
      FingerprintIsSound(c, verdict.found.receipt.fingerprint);
      assert forall j :: StageAt(c', j) == StageAt(c, j);
      assert forall j :: IsDone(c', j) == IsDone(c, j);
      StatusIsSound(c', spec, Rejected);
      PhaseIsSound(WithStatus(c', i, Rejected), Stopped);
      if Acceptable(c, spec, StageAt(c, i).run.value, verdict.found) {
        AcceptableAnyway(c, c', spec, StageAt(c, i).run.value, verdict.found);
        AcceptIsSound(c', spec, verdict.found);
      }
    }
  }

  lemma AcceptableAnyway(c: Campaign, c': Campaign, spec: Spec, run: nat, found: Artifacts)
    requires Acceptable(c, spec, run, found) && c'.stages == c.stages
    ensures Acceptable(c', spec, run, found)
  {
    assert forall j :: StageAt(c', j) == StageAt(c, j);
  }

  lemma StatusIsSound(c: Campaign, spec: Spec, status: Status)
    requires Sound(c) && Due(c, spec) && !IsDone(c, spec.stage)
    requires status != Completed && (StageAt(c, spec.stage).run.Some? <==> status != Pending && status != Dispatching)
    ensures Sound(WithStatus(c, spec.stage, status))
  {
    assert StageIsSound(StageAt(c, spec.stage));
    UpdateIsSound(c, spec, StageAt(c, spec.stage).(status := status));
  }

  lemma RunIsSound(c: Campaign, spec: Spec, run: nat)
    requires Sound(c) && Due(c, spec) && !IsDone(c, spec.stage) && run >= 1
    ensures Sound(WithRun(c, spec.stage, run))
  {
    UpdateIsSound(c, spec, StageAt(c, spec.stage).(run := Some(run), status := Queued));
  }
}
