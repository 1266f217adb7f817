/** The driver loop always finds the one stage that is due. */
module CampaignDriver {
  import opened Words
  import opened Campaign
  import opened CampaignSafety

  /** Exactly the first `n` stages of the chain are completed. */
  ghost predicate DoneUpTo(c: Campaign, n: nat) {
    n <= CHAIN && forall k | 0 <= k < CHAIN :: IsDone(c, k) <==> k < n
  }

  /** The completed stages are a prefix of the chain, and nothing after the next stage has begun. */
  lemma DoneIsPrefix(c: Campaign) returns (n: nat)
    requires Sound(c)
    ensures DoneUpTo(c, n)
    ensures forall k | n < k < CHAIN :: StageAt(c, k).status == Pending
  {
    n := 0;
    while n < CHAIN && IsDone(c, n)
      invariant n <= CHAIN && forall k | 0 <= k < n :: IsDone(c, k)
    {
      n := n + 1;
    }
    forall k | n < k < CHAIN
      ensures StageAt(c, k).status == Pending
    {
      LaterIsPending(c, n, k);
    }
  }

  lemma PendingAfterDone(c: Campaign, spec: Spec, rest: seq<Spec>)
    requires IsDone(c, spec.stage)
    ensures FirstPending(c, [spec] + rest) == FirstPending(c, rest)
  {
    assert ([spec] + rest)[1..] == rest;
  }

  lemma {:induction false} PendingSample(c: Campaign, i: nat, run: nat, n: nat)
    requires Sound(c) && DoneUpTo(c, n) && FIRST_SAMPLE <= i <= n
    ensures SampleSpecs(c, i, run).Some?
    ensures FirstPending(c, SampleSpecs(c, i, run).value) == if n < CHAIN then SampleSpec(c, n, run) else None
    ensures n < CHAIN ==> SampleSpec(c, n, run).Some?
    decreases CHAIN - i
  {
    hide Sound;
    if i < CHAIN {
      SampleHasSpec(c, i, run);
      if i < n {
        PendingSample(c, i + 1, run, n);
        PendingAfterDone(c, SampleSpec(c, i, run).value, SampleSpecs(c, i + 1, run).value);
      }
    }
  }

  lemma SampleHasSpec(c: Campaign, i: nat, run: nat)
    requires Sound(c) && FIRST_SAMPLE <= i < CHAIN && (i > FIRST_SAMPLE ==> IsDone(c, i - 1))
    ensures SampleSpec(c, i, run).Some? && SampleSpec(c, i, run).value.stage == i
  {
    hide Serialized, Linked;
    if i > FIRST_SAMPLE {
      assert StageIsSound(StageAt(c, i - 1));
    }
  }

  lemma EarlyIsDue(c: Campaign, n: nat)
    requires Sound(c) && DoneUpTo(c, n) && n < FIRST_SAMPLE
    ensures Specs(c).Some?
    ensures var next := FirstPending(c, Specs(c).value); next.Some? && next.value.stage == n && Due(c, next.value)
  {
    hide Serialized, Linked;
    assert StageIsSound(StageAt(c, FIRST_DRESS));
    var s0, s1, s2 := Spec(0, None, None), Spec(FIRST_DRESS, None, None), Spec(SECOND_DRESS, DoneRun(c, FIRST_DRESS), None);
    assert IsDone(c, 0) <==> 0 < n;
    assert IsDone(c, 1) <==> 1 < n;
    assert IsDone(c, 2) <==> 2 < n;
    if n == 0 {
      assert Specs(c).value == [s0];
    } else if n == 1 {
      assert Specs(c).value == [s0] + [s1];
      PendingAfterDone(c, s0, [s1]);
    } else {
      assert Specs(c).value == [s0] + ([s1] + [s2]);
      PendingAfterDone(c, s0, [s1] + [s2]);
      PendingAfterDone(c, s1, [s2]);
    }
  }

  lemma LateIsDue(c: Campaign, n: nat)
    requires Sound(c) && DoneUpTo(c, n) && n >= FIRST_SAMPLE
    ensures Specs(c).Some?
    ensures FirstPending(c, Specs(c).value).None? <==> n == CHAIN
    ensures n < CHAIN ==>
              var next := FirstPending(c, Specs(c).value); next.Some? && next.value.stage == n && Due(c, next.value)
  {
    hide Serialized, Linked, SampleSpecs, FirstPending;
    assert StageIsSound(StageAt(c, FIRST_DRESS)) && StageIsSound(StageAt(c, SECOND_DRESS));
    assert IsDone(c, 0) && IsDone(c, 1) && IsDone(c, 2);
    var run := StageAt(c, SECOND_DRESS).run.value;
    var s0, s1, s2 := Spec(0, None, None), Spec(FIRST_DRESS, None, None), Spec(SECOND_DRESS, DoneRun(c, FIRST_DRESS), None);
    PendingSample(c, FIRST_SAMPLE, run, n);
    var samples := SampleSpecs(c, FIRST_SAMPLE, run).value;
    assert Specs(c).value == [s0] + ([s1] + ([s2] + samples));
    PendingAfterDone(c, s0, [s1] + ([s2] + samples));
    PendingAfterDone(c, s1, [s2] + samples);
    PendingAfterDone(c, s2, samples);
  }

  /** The driver loop never spins: while the chain is unfinished there is a pending spec, and it is
      that of the next stage. */
  lemma NextIsDue(c: Campaign, n: nat)
    requires Sound(c) && DoneUpTo(c, n)
    ensures Specs(c).Some?
    ensures FirstPending(c, Specs(c).value).None? <==> n == CHAIN
    ensures n < CHAIN ==>
              var next := FirstPending(c, Specs(c).value); next.Some? && next.value.stage == n && Due(c, next.value)
  {
    hide Sound, Specs, FirstPending;
    if n < FIRST_SAMPLE {
      EarlyIsDue(c, n);
    } else {
      LateIsDue(c, n);
    }
  }

  // ---------------------------------------------------------------- any file

  lemma {:induction false} PendingIsListed(c: Campaign, specs: seq<Spec>)
    ensures var next := FirstPending(c, specs);
            if next.Some? then next.value in specs && !IsDone(c, next.value.stage)
            else forall spec | spec in specs :: IsDone(c, spec.stage)
  {
    if specs != [] && IsDone(c, specs[0].stage) {
      PendingIsListed(c, specs[1..]);
      assert specs == [specs[0]] + specs[1..];
    }
  }

  /** The sample specs start at `i`, lie in the chain, and leave no completed run of samples before
      they end. */
  lemma {:induction false} SampleSpecsReach(c: Campaign, i: nat, run: nat)
    requires FIRST_SAMPLE <= i && SampleSpecs(c, i, run).Some?
    ensures var specs := SampleSpecs(c, i, run).value;
            (forall spec | spec in specs :: i <= spec.stage < CHAIN) &&
            ((forall spec | spec in specs :: IsDone(c, spec.stage)) ==> forall k | i <= k < CHAIN :: IsDone(c, k))
    decreases CHAIN - i
  {
    if i < CHAIN && IsDone(c, i) {
      SampleSpecsReach(c, i + 1, run);
      var specs, rest := SampleSpecs(c, i, run).value, SampleSpecs(c, i + 1, run).value;
      assert specs == [SampleSpec(c, i, run).value] + rest;
      assert forall spec | spec in rest :: spec in specs;
    } else if i < CHAIN {
      assert SampleSpecs(c, i, run).value == [SampleSpec(c, i, run).value];
      assert SampleSpec(c, i, run).value in SampleSpecs(c, i, run).value;
    }
  }

  /** Whatever the file holds, the driver loop does not spin: if there are specs, one of them is
      pending or all stages are completed. */
  lemma NeverSpins(c: Campaign)
    requires Specs(c).Some?
    ensures var next := FirstPending(c, Specs(c).value);
            if next.Some? then next.value.stage < CHAIN && !IsDone(c, next.value.stage)
            else forall k | 0 <= k < CHAIN :: IsDone(c, k)
  {
    var specs := Specs(c).value;
    PendingIsListed(c, specs);
    var s0, s1, s2 := Spec(0, None, None), Spec(FIRST_DRESS, None, None), Spec(SECOND_DRESS, DoneRun(c, FIRST_DRESS), None);
    assert s0 in specs;
    assert IsDone(c, 0) ==> s1 in specs;
    assert IsDone(c, FIRST_DRESS) ==> s2 in specs;
    if IsDone(c, SECOND_DRESS) {
      var run := DoneRun(c, SECOND_DRESS).value;
      SampleSpecsReach(c, FIRST_SAMPLE, run);
      assert forall spec | spec in SampleSpecs(c, FIRST_SAMPLE, run).value :: spec in specs;
    }
  }

  /** How many stages of the chain are not completed. */
  ghost function Open(c: Campaign): nat {
    |set k | 0 <= k < CHAIN && !IsDone(c, k)|
  }

  /** Completing a stage and undoing none leaves fewer open. */
  lemma FewerOpen(c: Campaign, c': Campaign, i: nat)
    requires i < CHAIN && !IsDone(c, i) && IsDone(c', i)
    requires forall k | 0 <= k < CHAIN && k != i :: StageAt(c', k) == StageAt(c, k)
    ensures Open(c') < Open(c)
  {
    var a, b := set k | 0 <= k < CHAIN && !IsDone(c, k), set k | 0 <= k < CHAIN && !IsDone(c', k);
    assert b == a - {i};
  }

  // ---------------------------------------------------------------- building the list

  /** Builds the specs of the samples one by one, stopping at the first that is not completed. */
  method BuildSampleSpecs(c: Campaign, admissionRun: nat) returns (specs: Option<seq<Spec>>)
    ensures specs == SampleSpecs(c, FIRST_SAMPLE, admissionRun)
  {
    var built: seq<Spec> := [];
    PrependNothing(built, SampleSpecs(c, FIRST_SAMPLE, admissionRun));
    for i := FIRST_SAMPLE to CHAIN
      invariant Prepend(built, SampleSpecs(c, i, admissionRun)) == SampleSpecs(c, FIRST_SAMPLE, admissionRun)
    {
      match SampleSpec(c, i, admissionRun) {
        case None =>
          return None;
        case Some(spec) =>
          PrependStep(built, spec, SampleSpecs(c, i + 1, admissionRun));
          built := built + [spec];
          if !IsDone(c, i) {
            return Some(built);
          }
      }
    }
    PrependNothing(built, SampleSpecs(c, CHAIN, admissionRun));
    return Some(built);
  }

  /** The list of stages that may run or have run, built as the controller builds it. */
  method StageSpecs(c: Campaign) returns (specs: Option<seq<Spec>>)
    ensures specs == Specs(c)
  {
    var built := [Spec(0, None, None)];
    ghost var head := built + OptionalSpec(IsDone(c, 0), Spec(FIRST_DRESS, None, None));
    if IsDone(c, 0) {
      built := built + [Spec(FIRST_DRESS, None, None)];
    }
    assert built == head;
    assert head + [] == head;
    if IsDone(c, FIRST_DRESS) {
      if DoneRun(c, FIRST_DRESS).None? {
        return None;
      }
      built := built + [Spec(SECOND_DRESS, DoneRun(c, FIRST_DRESS), None)];
    }
    if !IsDone(c, SECOND_DRESS) {
      return Some(built);
    }
    if DoneRun(c, SECOND_DRESS).None? {
      return None;
    }
    var samples := BuildSampleSpecs(c, DoneRun(c, SECOND_DRESS).value);
    if samples.None? {
      return None;
    }
    return Some(built + samples.value);
  }

  function Prepend(built: seq<Spec>, rest: Option<seq<Spec>>): Option<seq<Spec>> {
    match rest
    case None => None
    case Some(r) => Some(built + r)
  }

  lemma PrependStep(built: seq<Spec>, spec: Spec, rest: Option<seq<Spec>>)
    ensures rest.Some? ==> built + ([spec] + rest.value) == (built + [spec]) + rest.value
  {
  }

  lemma PrependNothing(built: seq<Spec>, rest: Option<seq<Spec>>)
    ensures built == [] ==> Prepend(built, rest) == rest
    ensures rest == Some([]) ==> Prepend(built, rest) == Some(built)
  {
    assert rest.Some? ==> [] + rest.value == rest.value;
    assert built + [] == built;
  }
}
