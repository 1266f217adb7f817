/** The controller as a program that updates its state in place and saves it. What the outside
    answers is given; an error ends the program. Everything it does is a sequence of steps of the
    campaign system, so what holds of every campaign holds of it; and its driver loop terminates. */
module CampaignController {
  import opened Words
  import opened Campaign
  import opened CampaignSafety
  import opened CampaignDriver
  import opened CampaignRuns
  import opened CampaignOutcomes
  import opened CampaignCompletion

  // ---------------------------------------------------------------- whole passes

  /** Starting the chain and saving its new phase. */
  lemma Opens(start: System, state: Campaign) returns (trace: seq<Action>)
    requires start.proc.None? && Runnable(start.disk.phase) && state == start.disk.(phase := InProgress)
    ensures Execute(start, trace) == Some(System(state, Some(Process(RunChain, Deciding, state)), start.dispatched))
  {
    hide Execute;
    NothingExecuted(start);
    ExecuteOne(start, [], start, Start(RunChain));
    var begun := Step(start, Start(RunChain));
    ExecuteOne(start, [] + [Start(RunChain)], begun, Save);
    trace := [] + [Start(RunChain)] + [Save];
  }

  /** Marking the campaign complete and saving that. */
  lemma Completes(start: System, past: seq<Action>, file: Campaign, state: Campaign, dispatched: map<nat, nat>)
    returns (trace: seq<Action>)
    requires exists mem: Campaign ::
               Execute(start, past) == Some(System(file, Some(Process(RunChain, Finishing, mem)), dispatched)) &&
               state == mem.(phase := Complete)
    ensures Execute(start, trace) == Some(System(state, None, dispatched))
  {
    hide Execute;
    var mem: Campaign :| Execute(start, past) == Some(System(file, Some(Process(RunChain, Finishing, mem)), dispatched)) &&
                         state == mem.(phase := Complete);
    var sys := System(file, Some(Process(RunChain, Finishing, mem)), dispatched);
    ExecuteOne(start, past, sys, Finish);
    ExecuteOne(start, past + [Finish], Step(sys, Finish), Save);
    trace := past + [Finish] + [Save];
  }

  lemma SafeIsKept(start: System, trace: seq<Action>)
    requires Execute(start, trace).Some?
    ensures Safe(start) ==> Safe(Execute(start, trace).value)
  {
    if Safe(start) {
      ExecuteKeepsSafe(start, trace);
    }
  }

  /** Without specs the program ends with the error of a prerequisite. */
  lemma GivesUp(start: System, past: seq<Action>, sys: System)
    requires Execute(start, past) == Some(sys) && sys.proc.Some? && sys.proc.value.pc.Deciding?
    requires Specs(sys.proc.value.mem).None?
    ensures Execute(start, past + [Decide]) == Some(sys.(proc := None))
  {
    hide Execute, Specs;
    ExecuteOne(start, past, sys, Decide);
  }

  lemma DecideExecuted(start: System, past: seq<Action>, sys: System)
    requires Execute(start, past) == Some(sys) && sys.proc.Some? && sys.proc.value.pc.Deciding?
    requires Specs(sys.proc.value.mem).Some?
    requires var mem := sys.proc.value.mem; FirstPending(mem, Specs(mem).value).None? ==> IsDone(mem, CHAIN - 1)
    ensures var p := sys.proc.value;
            var next := FirstPending(p.mem, Specs(p.mem).value);
            Execute(start, past + [Decide]) ==
              Some(sys.(proc := Some(p.(pc := if next.Some? then Checking(next.value) else Finishing))))
  {
    hide Execute, Specs, FirstPending;
    ExecuteOne(start, past, sys, Decide);
  }

  lemma StopLeaves(sys: System)
    requires Enabled(sys, Stop)
    ensures Step(sys, Stop) == sys.(proc := None)
  {
  }

  lemma JudgeTouchesOne(c: Campaign, spec: Spec, verdict: Verdict)
    ensures forall j | j != spec.stage :: StageAt(JudgeRun(c, spec, verdict), j) == StageAt(c, j)
  {
    hide Acceptable;
  }

  // ---------------------------------------------------------------- the program

  class Controller {
    const goal: Goal
    var file: Campaign
    var state: Campaign
    var dispatched: map<nat, nat>

    constructor (goal: Goal, file: Campaign, dispatched: map<nat, nat>)
      ensures this.goal == goal && this.file == file && this.state == file && this.dispatched == dispatched
    {
      this.goal, this.file, this.state, this.dispatched := goal, file, file, dispatched;
    }

    /** The system with the program at `pc`. */
    function At(pc: Pc): System
      reads this
    {
      System(file, Some(Process(goal, pc, state)), dispatched)
    }

    /** The system once the program has ended. */
    function Gone(): System
      reads this
    {
      System(file, None, dispatched)
    }

    method SaveState()
      modifies this`file
      ensures file == state
    {
      file := state;
    }

    /** Marks a stage, saves the mark, and dispatches the stage's workflow. */
    method Launch(spec: Spec, out: Outside, ghost start: System, ghost past: seq<Action>)
      returns (ok: bool, ghost trace: seq<Action>)
      requires Execute(start, past) == Some(At(Checking(spec)))
      requires var s := StageAt(state, spec.stage); !Ended(s) && s.run.None? && s.status != Dispatching
      modifies this
      ensures ok <==> out.matches == 0 && out.accepted
      ensures Execute(start, trace) == Some(if ok then At(Started(spec)) else Gone())
      ensures out.matches == 0 ==> state == WithStatus(old(state), spec.stage, Dispatching)
      ensures out.matches > 0 ==> state == old(state)
    {
      hide Execute;
      ghost var sys := At(Checking(spec));
      ExecuteOne(start, past, sys, Check(out.matches, out.match_));
      trace := past + [Check(out.matches, out.match_)];
      if out.matches > 0 {
        return false, trace;
      }
      var i := spec.stage;
      state := WithStatus(state, i, Dispatching);
      sys := At(Marked(spec));
      ExecuteOne(start, trace, sys, Save);
      trace := trace + [Save];
      SaveState();
      sys := At(Saved(spec));
      ExecuteOne(start, trace, sys, Dispatch(out.accepted));
      trace := trace + [Dispatch(out.accepted)];
      dispatched := dispatched[i := (if i in dispatched then dispatched[i] else 0) + 1];
      return out.accepted, trace;
    }

    /** Takes the run that turned up for a dispatched stage, if one did, and saves it. */
    method Adopt(spec: Spec, found: Option<RunId>, ghost start: System, ghost past: seq<Action>)
      returns (ok: bool, ghost trace: seq<Action>)
      requires Execute(start, past) == Some(At(Started(spec))) || Execute(start, past) == Some(At(Recovering(spec)))
      modifies this
      ensures ok <==> found.Some?
      ensures Execute(start, trace) == Some(if ok then At(Known(spec)) else Gone())
      ensures state == if ok then WithRun(old(state), spec.stage, found.value) else old(state)
    {
      hide Execute;
      ghost var sys := Execute(start, past).value;
      if found.None? {
        ExecuteOne(start, past, sys, Stop);
        return false, past + [Stop];
      }
      ExecuteOne(start, past, sys, Discover(found.value));
      trace := past + [Discover(found.value)];
      state := WithRun(state, spec.stage, found.value);
      sys := At(Found(spec));
      ExecuteOne(start, trace, sys, Save);
      trace := trace + [Save];
      SaveState();
      return true, trace;
    }

    /** Looks for the run of a stage that is marked as dispatched. */
    method Recover(spec: Spec, out: Outside, ghost start: System, ghost past: seq<Action>)
      returns (ok: bool, ghost trace: seq<Action>)
      requires Execute(start, past) == Some(At(Checking(spec)))
      requires var s := StageAt(state, spec.stage); s.run.None? && s.status == Dispatching
      modifies this
      ensures ok <==> out.matches == 1 || (out.matches == 0 && out.found.Some?)
      ensures Execute(start, trace) == Some(if ok then At(Known(spec)) else Gone())
      ensures ok ==> state == WithRun(old(state), spec.stage, if out.matches == 1 then out.match_ else out.found.value)
      ensures !ok ==> state == old(state)
    {
      hide Execute;
      ghost var sys := At(Checking(spec));
      ExecuteOne(start, past, sys, Check(out.matches, out.match_));
      trace := past + [Check(out.matches, out.match_)];
      if out.matches > 1 {
        return false, trace;
      }
      if out.matches == 0 {
        ok, trace := Adopt(spec, out.found, start, trace);
        return;
      }
      state := WithRun(state, spec.stage, out.match_);
      sys := At(Found(spec));
      ExecuteOne(start, trace, sys, Save);
      trace := trace + [Save];
      SaveState();
      return true, trace;
    }

    /** Finds or starts the run of a stage that has no run id yet. */
    method Correlate(spec: Spec, out: Outside, ghost start: System, ghost past: seq<Action>)
      returns (ok: bool, ghost trace: seq<Action>)
      requires Execute(start, past) == Some(At(Checking(spec)))
      requires var s := StageAt(state, spec.stage); !Ended(s) && s.run.None?
      modifies this
      ensures ok <==> RunOf(old(StageAt(state, spec.stage)), out).Some?
      ensures Execute(start, trace) == Some(if ok then At(Known(spec)) else Gone())
      ensures ok ==> state == WithRun(old(state), spec.stage, RunOf(old(StageAt(state, spec.stage)), out).value)
      ensures forall j | j != spec.stage :: StageAt(state, j) == old(StageAt(state, j))
    {
      hide Execute;
      if !out.cleared {
        ghost var sys := At(Checking(spec));
        ExecuteOne(start, past, sys, Stop);
        return false, past + [Stop];
      }
      if StageAt(state, spec.stage).status == Dispatching {
        ok, trace := Recover(spec, out, start, past);
      } else {
        ok, trace := Launch(spec, out, start, past);
        if ok {
          ok, trace := Adopt(spec, out.found, start, trace);
          assert ok ==> state.stages == old(state).stages[spec.stage := StageAt(state, spec.stage)];
        }
      }
    }

    /** Follows a known run to its end and judges it. */
    method Follow(spec: Spec, out: Outside, ghost start: System, ghost past: seq<Action>)
      returns (ok: bool, ghost trace: seq<Action>)
      requires Execute(start, past) == Some(At(Known(spec)))
      requires goal != CloseDown
      modifies this
      ensures Execute(start, trace) == Some(if ok then At(if goal == RunChain then Deciding else Finishing) else Gone())
      ensures var judged := JudgeRun(WithStatus(old(state), spec.stage, Running), spec, out.verdict);
              (ok <==> out.identified && IsDone(judged, spec.stage)) &&
              if out.identified then state == judged && file == judged else state == old(state)
      ensures forall j | j != spec.stage :: StageAt(state, j) == old(StageAt(state, j))
    {
      hide Execute, JudgeRun;
      ghost var sys := At(Known(spec));
      if !out.identified {
        ExecuteOne(start, past, sys, Stop);
        return false, past + [Stop];
      }
      ExecuteOne(start, past, sys, View);
      trace := past + [View];
      state := WithStatus(state, spec.stage, Running);
      sys := At(Viewed(spec));
      ExecuteOne(start, trace, sys, Save);
      trace := trace + [Save];
      SaveState();
      sys := At(Watching(spec));
      ExecuteOne(start, trace, sys, Judge(out.verdict));
      trace := trace + [Judge(out.verdict)];
      JudgeTouchesOne(state, spec, out.verdict);
      state := JudgeRun(state, spec, out.verdict);
      sys := At(Judged(spec));
      ExecuteOne(start, trace, sys, Save);
      trace := trace + [Save];
      SaveState();
      return IsDone(state, spec.stage), trace;
    }

    /** One pass over a stage: it is completed, or the program ends with an error, exactly as the
        answers of the outside say. */
    method ExecuteStage(spec: Spec, out: Outside, ghost start: System, ghost past: seq<Action>)
      returns (ok: bool, ghost trace: seq<Action>)
      requires Execute(start, past) == Some(At(Checking(spec)))
      requires goal != CloseDown
      modifies this
      ensures Execute(start, trace) == Some(if ok then At(if goal == RunChain then Deciding else Finishing) else Gone())
      ensures old(IsDone(state, spec.stage)) ==> ok && state == old(state)
      ensures NamesRuns(old(state), spec) && !old(IsDone(state, spec.stage)) ==>
                (ok <==> PassSucceeds(old(state), spec.stage, out)) &&
                (ok ==> state == Advanced(old(state), spec.stage, out))
      ensures forall j | j != spec.stage :: StageAt(state, j) == old(StageAt(state, j))
    {
      hide Execute, JudgeRun, Accepted;
      ghost var before := state;
      var stage := StageAt(state, spec.stage);
      ghost var sys := At(Checking(spec));
      if Ended(stage) || stage.run.Some? {
        ExecuteOne(start, past, sys, Check(out.matches, out.match_));
        trace := past + [Check(out.matches, out.match_)];
        if Ended(stage) {
          return stage.status == Completed, trace;
        }
      } else {
        ok, trace := Correlate(spec, out, start, past);
        if !ok {
          return false, trace;
        }
      }
      ghost var now := WithStatus(state, spec.stage, Running);
      ok, trace := Follow(spec, out, start, trace);
      if NamesRuns(before, spec) && out.identified {
        var run := RunOf(stage, out);
        assert now.stages == before.stages[spec.stage := stage.(run := run, status := Running)];
        assert now == WithStage(before, spec.stage, stage.(run := run, status := Running));
        JudgeAdvances(before, spec, out, now);
      }
    }

    /** Runs the chain from the file to its end, whatever the file holds. It gets there exactly if the
        checks before it pass, every stage in turn is picked and its pass succeeds, and the checks and
        the summary after it succeed. The loop needs no bound of its own: every pass
        completes one more stage. A safe file stays safe. */
    method RunCampaign(ready: bool, outside: nat -> Outside, sealed: bool) returns (complete: bool, ghost trace: seq<Action>)
      requires goal == RunChain
      modifies this
      ensures Execute(old(Gone()), trace) == Some(Gone())
      ensures Safe(old(Gone())) ==> Safe(Gone())
      ensures complete <==>
                ready && sealed && old(Runnable(file.phase)) && Finishes(old(file).(phase := InProgress), outside, 0)
      ensures complete ==> file.phase == Complete && forall k | 0 <= k < CHAIN :: IsDone(file, k)
    {
      hide Execute, Safe, Specs, FirstPending, Step, PassSucceeds, NamesRuns;
      ghost var start := Gone();
      trace := [];
      NothingExecuted(start);
      if !Runnable(file.phase) || !ready {
        return false, trace;
      }
      state := file.(phase := InProgress);
      trace := Opens(start, this.state);
      SaveState();
      var pass := 0;
      while true
        invariant goal == RunChain && Execute(start, trace) == Some(At(Deciding))
        invariant Finishes(state, outside, pass) <==> Finishes(old(file).(phase := InProgress), outside, 0)
        decreases Open(state)
      {
        var specs := StageSpecs(state);
        if specs.None? {
          GivesUp(start, trace, At(Deciding));
          trace := trace + [Decide];
          SafeIsKept(start, trace);
          return false, trace;
        }
        NeverSpins(state);
        var pending := FirstPending(state, specs.value);
        DecideExecuted(start, trace, At(Deciding));
        trace := trace + [Decide];
        if pending.None? {
          break;
        }
        ghost var before := state;
        PendingNamesRuns(before);
        var ok;
        ok, trace := ExecuteStage(pending.value, outside(pass), start, trace);
        if !ok {
          SafeIsKept(start, trace);
          return false, trace;
        }
        FewerOpen(before, state, pending.value.stage);
        pass := pass + 1;
      }
      if !sealed {
        ghost var sys := At(Finishing);
        ExecuteOne(start, trace, sys, Stop);
        trace := trace + [Stop];
        StopLeaves(sys);
        SafeIsKept(start, trace);
        return false, trace;
      }
      ghost var all := state;
      state := state.(phase := Complete);
      assert forall k | 0 <= k < CHAIN :: IsDone(all, k) && StageAt(state, k) == StageAt(all, k);
      trace := Completes(start, trace, file, state, dispatched);
      SaveState();
      SafeIsKept(start, trace);
      return true, trace;
    }
  }
}
