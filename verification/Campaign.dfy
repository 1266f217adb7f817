/** The reference campaign controller: a chain of workflow runs whose state is kept in one file.
    The controller can stop at any point, by a crash or by an error, and be started again. One
    step changes the state in memory, writes it to the file, or talks to the outside; what the
    outside answers is part of the action. */
module Campaign {
  import opened Words

  // ---------------------------------------------------------------- campaign state

  /** Stage 0 is the qualification, 1 and 2 are the full-dress runs, 3 to 7 the bootstrap samples;
      the frozen candidate is run on its own. */
  const CHAIN: nat := 8
  const FIRST_DRESS: nat := 1
  const SECOND_DRESS: nat := 2
  const FIRST_SAMPLE: nat := 3
  const FROZEN: nat := 8

  datatype Status = Pending | Dispatching | Queued | Running | Awaiting | Rejected | Completed

  /** What is checked about an accepted receipt, and the digest of its bytes. */
  datatype Receipt = Receipt(
    digest: nat,
    run: nat,
    fingerprint: nat,
    contracts: nat,
    sample: nat,
    admission: nat,
    predecessor: Option<nat>,
    predecessorDigest: Option<nat>)

  /** The admission that the second full-dress run publishes: which run has which receipt. */
  datatype Admission = Admission(digest: nat, fingerprint: nat, contracts: nat, members: seq<(nat, nat)>)

  datatype Stage = Stage(status: Status, run: Option<nat>, receipt: Option<Receipt>, admission: Option<Admission>)

  datatype Phase = Ready | InProgress | AwaitingArtifacts | Stopped | Complete | Closed

  datatype Campaign = Campaign(phase: Phase, stages: map<nat, Stage>, fingerprint: Option<nat>)

  const NEW_STAGE := Stage(Pending, None, None, None)

  function StageAt(c: Campaign, i: nat): Stage {
    if i in c.stages then c.stages[i] else NEW_STAGE
  }

  function WithStage(c: Campaign, i: nat, s: Stage): Campaign {
    c.(stages := c.stages[i := s])
  }

  predicate IsDone(c: Campaign, i: nat) {
    StageAt(c, i).status == Completed
  }

  // ---------------------------------------------------------------- which stage is next

  /** An absent run id stands for the empty field of a first run. */
  datatype Spec = Spec(stage: nat, predecessor: Option<nat>, admissionRun: Option<nat>)

  /** The run id of a completed prerequisite; without one the controller stops. */
  function DoneRun(c: Campaign, i: nat): Option<nat> {
    var s := StageAt(c, i);
    if s.status == Completed && s.run.Some? && s.run.value >= 1 then s.run else None
  }

  function SampleSpec(c: Campaign, i: nat, admissionRun: nat): Option<Spec> {
    if i <= FIRST_SAMPLE then Some(Spec(i, None, Some(admissionRun)))
    else match DoneRun(c, i - 1)
      case Some(run) => Some(Spec(i, Some(run), Some(admissionRun)))
      case None => None
  }

  /** The specs of the samples from `i` on, up to the first that is not completed. */
  function SampleSpecs(c: Campaign, i: nat, admissionRun: nat): Option<seq<Spec>>
    decreases CHAIN - i
  {
    if i >= CHAIN then Some([]) else
      match SampleSpec(c, i, admissionRun)
      case None => None
      case Some(spec) =>
        if !IsDone(c, i) then Some([spec]) else
          match SampleSpecs(c, i + 1, admissionRun)
          case None => None
          case Some(rest) => Some([spec] + rest)
  }

  function OptionalSpec(present: bool, spec: Spec): seq<Spec> {
    if present then [spec] else []
  }

  /** The stages that may run now or have run; none at all if a completed prerequisite has no
      valid run id. */
  function Specs(c: Campaign): Option<seq<Spec>> {
    var head := [Spec(0, None, None)] + OptionalSpec(IsDone(c, 0), Spec(FIRST_DRESS, None, None));
    if IsDone(c, FIRST_DRESS) && DoneRun(c, FIRST_DRESS).None? then None else
      var dressed := head + OptionalSpec(IsDone(c, FIRST_DRESS), Spec(SECOND_DRESS, DoneRun(c, FIRST_DRESS), None));
      if !IsDone(c, SECOND_DRESS) then Some(dressed) else
        match DoneRun(c, SECOND_DRESS)
        case None => None
        case Some(run) =>
          match SampleSpecs(c, FIRST_SAMPLE, run)
          case None => None
          case Some(samples) => Some(dressed + samples)
  }

  /** The first spec whose stage is not completed. */
  function FirstPending(c: Campaign, specs: seq<Spec>): Option<Spec> {
    if specs == [] then None
    else if !IsDone(c, specs[0].stage) then Some(specs[0])
    else FirstPending(c, specs[1..])
  }

  // ---------------------------------------------------------------- accepting a run

  /** What a finished run left behind. */
  datatype Artifacts = Artifacts(receipt: Receipt, admission: Option<Admission>)

  /** Receipts name their own run and come from one runner. */
  predicate CommonReceipt(c: Campaign, run: nat, r: Receipt) {
    r.run == run && (c.fingerprint.Some? ==> c.fingerprint.value == r.fingerprint)
  }

  /** The members of an admission as a table, if no run is listed twice. */
  function MemberTable(members: seq<(nat, nat)>): Option<map<nat, nat>> {
    if members == [] then Some(map[]) else
      var (run, digest) := members[|members| - 1];
      match MemberTable(members[..|members| - 1])
      case None => None
      case Some(table) => if run in table || run == 0 then None else Some(table[run := digest])
  }

  /** The admission lists exactly the two full-dress runs with their receipts and agrees with both
      on the contracts. */
  predicate AdmissionChain(first: Stage, run: nat, second: Receipt, a: Admission) {
    first.run.Some? && first.receipt.Some? &&
    a.fingerprint == second.fingerprint == first.receipt.value.fingerprint &&
    a.contracts == second.contracts == first.receipt.value.contracts &&
    |a.members| == 2 &&
    MemberTable(a.members) == Some(map[first.run.value := first.receipt.value.digest][run := second.digest])
  }

  /** A sample continues the chain: it carries its index, the admission, the contracts, and the run
      and the receipt of the sample before. */
  predicate SampleChain(c: Campaign, spec: Spec, r: Receipt) {
    var dress := StageAt(c, SECOND_DRESS);
    r.sample == spec.stage - FIRST_SAMPLE + 1 &&
    dress.admission.Some? &&
    r.admission == dress.admission.value.digest &&
    r.contracts == dress.admission.value.contracts &&
    r.predecessor == spec.predecessor &&
    if spec.stage == FIRST_SAMPLE then r.predecessorDigest == None
    else
      var before := StageAt(c, spec.stage - 1);
      before.receipt.Some? && r.predecessorDigest == Some(before.receipt.value.digest)
  }

  predicate Acceptable(c: Campaign, spec: Spec, run: nat, found: Artifacts) {
    (spec.stage == FIRST_DRESS ==> found.admission == None) &&
    (spec.stage == SECOND_DRESS ==>
       found.admission.Some? && AdmissionChain(StageAt(c, FIRST_DRESS), run, found.receipt, found.admission.value)) &&
    (FIRST_SAMPLE <= spec.stage < CHAIN ==> SampleChain(c, spec, found.receipt))
  }

  // ---------------------------------------------------------------- the controller

  /** Where the controller is in its work on a stage. In the states named after a change the
      change is in memory only; the next step is the save. */
  datatype Pc =
    | Opened
    | Deciding
    | Checking(spec: Spec)
    | Marked(spec: Spec)
    | Saved(spec: Spec)
    | Started(spec: Spec)
    | Recovering(spec: Spec)
    | Found(spec: Spec)
    | Known(spec: Spec)
    | Viewed(spec: Spec)
    | Watching(spec: Spec)
    | Judged(spec: Spec)
    | Finishing
    | Finished

  /** A controller runs the chain, the frozen candidate, or a close. */
  datatype Goal = RunChain | RunFrozen | CloseDown

  datatype Process = Process(goal: Goal, pc: Pc, mem: Campaign)

  /** The file, the running controller if there is one, and how often each stage's workflow was
      dispatched. */
  datatype System = System(disk: Campaign, proc: Option<Process>, dispatched: map<nat, nat>)

  function Dispatches(sys: System, i: nat): nat {
    if i in sys.dispatched then sys.dispatched[i] else 0
  }

  /** How a finished run turns out. Retrieved artifacts may not be readable as receipts, and may
      not be intact in ways that the model leaves open. */
  datatype Verdict = Failed | NoArtifacts | Retrieved(found: Artifacts, readable: bool, intact: bool)

  datatype Action =
    | Start(goal: Goal)
    | Stop
    | Save
    | Decide
    | Check(matches: nat, run: nat)
    | Dispatch(accepted: bool)
    | Discover(run: nat)
    | View
    | Judge(verdict: Verdict)
    | Finish

  predicate Runnable(phase: Phase) {
    phase == Ready || phase == InProgress || phase == AwaitingArtifacts
  }

  const FROZEN_SPEC := Spec(FROZEN, None, None)

  function At(p: Process, pc: Pc): Option<Process> {
    Some(p.(pc := pc))
  }

  function Changed(p: Process, pc: Pc, mem: Campaign): Option<Process> {
    Some(p.(pc := pc, mem := mem))
  }

  /** After a stage: the chain looks for the next one, the frozen run is done. */
  function AfterStage(p: Process): Pc {
    if p.goal == RunChain then Deciding else Finishing
  }

  /** Where the controller is once its change is on disk; a stage that was not completed ends it
      with an error. */
  function AfterSave(p: Process): Option<Process> {
    match p.pc
    case Opened =>
      if p.goal == RunChain then At(p, Deciding)
      else if p.goal == RunFrozen then At(p, Checking(FROZEN_SPEC))
      else None
    case Marked(spec) => At(p, Saved(spec))
    case Found(spec) => At(p, Known(spec))
    case Viewed(spec) => At(p, Watching(spec))
    case Judged(spec) => if IsDone(p.mem, spec.stage) then At(p, AfterStage(p)) else None
    case _ => None
  }

  predicate Unsaved(pc: Pc) {
    pc.Opened? || pc.Marked? || pc.Found? || pc.Viewed? || pc.Judged? || pc.Finished?
  }

  function Opening(goal: Goal, disk: Campaign): Process {
    Process(goal, Opened, disk.(phase := if goal == CloseDown then Closed else InProgress))
  }

  /** The driver loop. With nothing pending and the last sample missing it would go round again. */
  function DecideNext(p: Process): Option<Process> {
    match Specs(p.mem)
    case None => None
    case Some(specs) =>
      match FirstPending(p.mem, specs)
      case Some(spec) => At(p, Checking(spec))
      case None => if IsDone(p.mem, CHAIN - 1) then At(p, Finishing) else Some(p)
  }

  function WithRun(c: Campaign, i: nat, run: nat): Campaign {
    WithStage(c, i, StageAt(c, i).(run := Some(run), status := Queued))
  }

  function WithStatus(c: Campaign, i: nat, status: Status): Campaign {
    WithStage(c, i, StageAt(c, i).(status := status))
  }

  /** A stage that was ever marked is not dispatched again: its run is looked up. Otherwise no run
      may exist yet, and the mark is made. */
  function CheckStage(p: Process, spec: Spec, matches: nat, run: nat): Option<Process> {
    var s := StageAt(p.mem, spec.stage);
    if s.status == Completed then At(p, AfterStage(p))
    else if s.status == Rejected then None
    else if s.run.Some? then At(p, Known(spec))
    else if s.status == Dispatching then
      if matches > 1 then None
      else if matches == 1 then Changed(p, Found(spec), WithRun(p.mem, spec.stage, run))
      else At(p, Recovering(spec))
    else if matches > 0 then None
    else Changed(p, Marked(spec), WithStatus(p.mem, spec.stage, Dispatching))
  }

  function Rejecting(c: Campaign, i: nat): Campaign {
    WithStatus(c, i, Rejected).(phase := Stopped)
  }

  function Accepting(c: Campaign, i: nat, found: Artifacts): Campaign {
    WithStage(c, i, StageAt(c, i).(status := Completed, receipt := Some(found.receipt), admission := found.admission))
  }

  /** A receipt that passes the common checks fixes the campaign's runner, even when a later check
      rejects the stage. */
  function JudgeRun(c: Campaign, spec: Spec, verdict: Verdict): Campaign {
    var s := StageAt(c, spec.stage);
    match verdict
    case Failed => Rejecting(c, spec.stage)
    case NoArtifacts => WithStatus(c, spec.stage, Awaiting).(phase := AwaitingArtifacts)
    case Retrieved(found, readable, intact) =>
      if !readable || s.run.None? || !CommonReceipt(c, s.run.value, found.receipt) then Rejecting(c, spec.stage)
      else
        var c' := c.(fingerprint := Some(found.receipt.fingerprint));
        if intact && Acceptable(c, spec, s.run.value, found) then Accepting(c', spec.stage, found)
        else Rejecting(c', spec.stage)
  }

  predicate Enabled(sys: System, a: Action) {
    if a.Start? then sys.proc.None? && (a.goal == CloseDown || Runnable(sys.disk.phase))
    else
      sys.proc.Some? &&
      var pc := sys.proc.value.pc;
      match a
      case Start(_) => false
      case Stop => true
      case Save => Unsaved(pc)
      case Decide => pc.Deciding?
      case Check(_, run) => pc.Checking? && run >= 1
      case Dispatch(_) => pc.Saved?
      case Discover(run) => (pc.Started? || pc.Recovering?) && run >= 1
      case View => pc.Known?
      case Judge(_) => pc.Watching?
      case Finish => pc.Finishing?
  }

  function NextProcess(p: Process, a: Action): Option<Process>
    requires a.Decide? ==> p.pc.Deciding?
    requires a.Check? ==> p.pc.Checking?
    requires a.Dispatch? ==> p.pc.Saved?
    requires a.Discover? ==> p.pc.Started? || p.pc.Recovering?
    requires a.View? ==> p.pc.Known?
    requires a.Judge? ==> p.pc.Watching?
  {
    match a
    case Start(_) => None
    case Stop => None
    case Save => AfterSave(p)
    case Decide => DecideNext(p)
    case Check(matches, run) => CheckStage(p, p.pc.spec, matches, run)
    case Dispatch(accepted) => if accepted then At(p, Started(p.pc.spec)) else None
    case Discover(run) => Changed(p, Found(p.pc.spec), WithRun(p.mem, p.pc.spec.stage, run))
    case View => Changed(p, Viewed(p.pc.spec), WithStatus(p.mem, p.pc.spec.stage, Running))
    case Judge(verdict) => Changed(p, Judged(p.pc.spec), JudgeRun(p.mem, p.pc.spec, verdict))
    case Finish => Changed(p, Finished, p.mem.(phase := Complete))
  }

  function Step(sys: System, a: Action): System
    requires Enabled(sys, a)
  {
    if a.Start? then sys.(proc := Some(Opening(a.goal, sys.disk))) else
      var p := sys.proc.value;
      System(if a.Save? then p.mem else sys.disk,
             NextProcess(p, a),
             if a.Dispatch? then sys.dispatched[p.pc.spec.stage := Dispatches(sys, p.pc.spec.stage) + 1] else sys.dispatched)
  }

  /** A prepared campaign that has not run anything. */
  const INITIAL := System(Campaign(Ready, map[], None), None, map[])

  ghost predicate IsRun(states: seq<System>, actions: seq<Action>) {
    |states| == |actions| + 1 && states[0] == INITIAL &&
    forall i | 0 <= i < |actions| :: Enabled(states[i], actions[i]) && states[i + 1] == Step(states[i], actions[i])
  }
}
