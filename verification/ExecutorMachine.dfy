/** `AnalysisExecutor.execute` at the grain of one shared access per step: every program point
    below except `Done` reads or writes the repository or the object store exactly once. */
module ExecutorMachine {
  import opened Outcomes
  import opened JsonValues
  import opened Contract
  import opened Jobs
  import opened ObjectStorage
  import Port = RepositoryPort

  // ---------------------------------------------------------------- the outside world

  /** One document of the built artifacts. `tracks` is its entry of that name, if any. */
  datatype Payload = Payload(artifactId: string, schema: string, document: Json, tracks: Option<Json>)

  datatype BuildResult =
    | Built(payloads: seq<Payload>)
    | BuildFailed(code: string, message: string)
    | BuildCancelled

  /** Everything the executor calls but does not define: the text screens, SHA-256, the pipeline
      adapter (which sees the provenance, the input bytes and whether cancellation is requested),
      JSON rendering, number parsing and worker metrics. */
  datatype Config = Config(
    screen: Screen,
    sha: Bytes -> Digest,
    build: (Profile, Provenance, Bytes, bool) -> BuildResult,
    renderIndented: Json -> Bytes,
    renderCompact: Json -> Bytes,
    parseNumber: string -> Option<real>,
    metrics: (ExecutionJob, string, StageName) -> map<Key, Json>)

  /** What all processes share. */
  datatype Shared = Shared(runs: Port.Runs, objects: Objects, clock: Instant)

  // ---------------------------------------------------------------- program points

  /** Local variables of `execute` once it is inside the `try` block. */
  datatype Locals = Locals(
    run: AnalysisRun, active: int, payloads: Option<seq<Payload>>, artifacts: seq<ArtifactReference>)

  datatype TryPoint =
    | SaveSkip(i: nat)
    | CheckBefore(i: nat)
    | SaveRunning(i: nat)
    | BuildAtDetection(i: nat)
    | CheckAfter(i: nat)
    | SaveFinished(i: nat)
    | BuildLate
    | Publish(k: nat)
    | Verify(k: nat)
    | Reload
    | SaveFinal(final: AnalysisRun)

  datatype Ending = Returned(status: RunStatus) | Raised(fault: Fault)

  datatype Pc =
    | Loading
    | CheckQueued(run: AnalysisRun)
    | SaveQueuedCancel(run: AnalysisRun)
    | SaveStart(run: AnalysisRun)
    | InTry(locals: Locals, point: TryPoint)
    | LoadForCancel(active: int)
    | SaveCancel(cancelled: AnalysisRun)
    | LoadForFail(active: int, code: string, message: string)
    | SaveFail(failed: AnalysisRun)
    | Done(ending: Ending)

  // ---------------------------------------------------------------- texts and constants

  const QUEUED_CANCEL_REASON := "Cancelled before execution."
  const CANCEL_REASON := "Cancellation requested by user."
  const CANCEL_STAGE_MESSAGE := "Cancelled at a safe checkpoint"
  const SKIP_MESSAGE := "Unsupported by the V1-compatible algorithm family"
  const PARTIAL_REASON := "Controlled partial completion with useful artifacts."
  const PARTIAL_STAGE_MESSAGE := "Useful artifacts published before a controlled partial stop"
  const FAILED_CODE := "execution_failed"
  const FAILED_MESSAGE := "Analysis execution failed safely."
  const TEST_FAIL := ExecutionFailure("test_stage_failure", "The test profile stopped at detection.")
  const INTEGRITY_FAIL :=
    ExecutionFailure("artifact_integrity_failed", "A generated artifact failed integrity verification.")

  function StageTitle(n: StageName): string {
    match n
    case Ingestion => "Ingestion"
    case VideoValidation => "Video Validation"
    case Detection => "Detection"
    case Tracking => "Tracking"
    case IdentityResolution => "Identity Resolution"
    case PitchCalibration => "Pitch Calibration"
    case Metrics => "Metrics"
    case WorkloadAdvisory => "Workload Advisory"
    case ArtifactPublication => "Artifact Publication"
  }

  function StageKey(n: StageName): string {
    match n
    case Ingestion => "ingestion"
    case VideoValidation => "video_validation"
    case Detection => "detection"
    case Tracking => "tracking"
    case IdentityResolution => "identity_resolution"
    case PitchCalibration => "pitch_calibration"
    case Metrics => "metrics"
    case WorkloadAdvisory => "workload_advisory"
    case ArtifactPublication => "artifact_publication"
  }

  // ---------------------------------------------------------------- stage records

  function SkippedStage(stage: StageExecution, at: Instant): StageExecution {
    stage.(status := StageSkipped, finishedAt := Some(at), message := Some(SKIP_MESSAGE))
  }

  function RunningStage(stage: StageExecution, at: Instant): StageExecution {
    stage.(status := StageRunning, progressPercent := 10.0,
           startedAt := if stage.startedAt.Some? then stage.startedAt else Some(at),
           finishedAt := None, error := None, message := Some(StageTitle(stage.stageName) + " in progress"))
  }

  function FinishedStage(stage: StageExecution, at: Instant, metrics: map<Key, Json>): StageExecution {
    stage.(status := StageSucceeded, progressPercent := 100.0, finishedAt := Some(at),
           performanceMetrics := metrics, message := Some(StageTitle(stage.stageName) + " completed"))
  }

  function CancelledStage(stage: StageExecution, at: Instant): StageExecution {
    stage.(status := StageCancelled, finishedAt := Some(at), message := Some(CANCEL_STAGE_MESSAGE))
  }

  function FailedStage(stage: StageExecution, at: Instant, error: StructuredError): StageExecution {
    stage.(status := StageFailed, finishedAt := Some(at), error := Some(error), message := Some(error.safeMessage))
  }

  function PartialStage(stage: StageExecution): StageExecution {
    stage.(status := StagePartial, progressPercent := 80.0, message := Some(PARTIAL_STAGE_MESSAGE))
  }

  // ---------------------------------------------------------------- publication plan

  datatype PlanItem = WriteIt(spec: ArtifactSpec) | Raise(fault: Fault)

  function CategoryOf(artifactId: string): Option<(ArtifactCategory, string)> {
    if artifactId == "team-summary" then Some((Summary, "Team Summary"))
    else if artifactId == "track-summary" then Some((Tracks, "Track Summary"))
    else if artifactId == "track-detail" then Some((Tracks, "Track Detail"))
    else if artifactId == "workload-advisory" then Some((Workload, "Workload Advisory"))
    else if artifactId == "analysis-diagnostics" then Some((Other, "Analysis Diagnostics"))
    else None
  }

  function ArtifactFile(name: string): string {
    "artifacts/" + name + ".json"
  }

  function PayloadItem(cfg: Config, p: Payload): PlanItem {
    match CategoryOf(p.artifactId)
    case None => Raise(LookupFault)
    case Some((category, name)) =>
      WriteIt(ArtifactSpec(p.artifactId, name, category, ArtifactFile(p.artifactId),
                           cfg.renderIndented(p.document), "application/json", Some(p.schema)))
  }

  function FindPayload(payloads: seq<Payload>, artifactId: string): Option<Payload> {
    if payloads == [] then None
    else if payloads[0].artifactId == artifactId then Some(payloads[0])
    else FindPayload(payloads[1..], artifactId)
  }

  function SummaryAlias(cfg: Config, payloads: seq<Payload>): PlanItem {
    match FindPayload(payloads, "track-summary")
    case None => Raise(LookupFault)
    case Some(p) =>
      WriteIt(ArtifactSpec("legacy-player-summary", "Dashboard track summary", Summary,
                           ArtifactFile("dashboard-track-summary"), cfg.renderCompact(p.document),
                           "application/json", Some("footballai.track-summary/v1")))
  }

  function AdvisoryAlias(cfg: Config, payloads: seq<Payload>): PlanItem {
    match FindPayload(payloads, "workload-advisory")
    case None => Raise(LookupFault)
    case Some(p) =>
      if p.tracks.None? then Raise(LookupFault)
      else WriteIt(ArtifactSpec("dashboard-workload-advisory", "Dashboard workload advisory", Workload,
                                ArtifactFile("dashboard-workload-advisory"), cfg.renderCompact(p.tracks.value),
                                "application/json", Some("footballai.workload-advisory/v1")))
  }

  /** What the publication block does in order: one write per payload, then the two aliases. */
  function Plan(cfg: Config, payloads: seq<Payload>): seq<PlanItem> {
    seq(|payloads|, i requires 0 <= i < |payloads| => PayloadItem(cfg, payloads[i]))
      + [SummaryAlias(cfg, payloads), AdvisoryAlias(cfg, payloads)]
  }

  // ---------------------------------------------------------------- control flow between accesses

  /** `float(parameters["video_probe"]["duration_seconds"])`, evaluated before the `try`. */
  function Duration(cfg: Config, parameters: map<Key, Json>): Result<real> {
    match GetOrNull(parameters, Named("video_probe"))
    case Obj(probe) =>
      if Named("duration_seconds") !in probe then Ok(0.0)
      else (match probe[Named("duration_seconds")]
            case Int(i) => Ok(i as real)
            case Num(x) => Ok(x)
            case Bool(b) => Ok(if b then 1.0 else 0.0)
            case Str(s) => (match cfg.parseNumber(s) case Some(x) => Ok(x) case None => Err(LookupFault))
            case _ => Err(LookupFault))
    case _ => Ok(0.0)
  }

  predicate StageDone(stage: StageExecution) {
    stage.status in {StageSucceeded, StageSkipped}
  }

  predicate Skips(job: ExecutionJob, stage: StageExecution) {
    job.profile.V1Compat? && !stage.required
  }

  /** The exception handler for anything but an observed cancellation. */
  function FailWith(active: int, fault: Fault): Pc {
    if fault.ExecutionFailure? then LoadForFail(active, fault.code, fault.message)
    else LoadForFail(active, FAILED_CODE, FAILED_MESSAGE)
  }

  /** From the top of iteration `i` to the next shared access. */
  function AtStage(cfg: Config, job: ExecutionJob, l: Locals, i: nat): Pc
    decreases |l.run.stages| - i
  {
    if i >= |l.run.stages| then AtPublish(cfg, l, 0)
    else
      var here := l.(active := i);
      var stage := l.run.stages[i];
      if StageDone(stage) then AtStage(cfg, job, here, i + 1)
      else if Skips(job, stage) then InTry(here, SaveSkip(i))
      else InTry(here, CheckBefore(i))
  }

  /** Publication, or first the build when no stage has done it. */
  function AtPublish(cfg: Config, l: Locals, k: nat): Pc {
    if l.payloads.None? then InTry(l, BuildLate)
    else
      var plan := Plan(cfg, l.payloads.value);
      if k >= |plan| then AtVerify(l, 0)
      else if plan[k].Raise? then FailWith(l.active, plan[k].fault)
      else InTry(l, Publish(k))
  }

  function AtVerify(l: Locals, k: nat): Pc {
    if k >= |l.artifacts| then InTry(l, Reload) else InTry(l, Verify(k))
  }

  function EnterTry(cfg: Config, job: ExecutionJob, run: AnalysisRun): Pc {
    match Duration(cfg, run.origin.parameters)
    case Err(f) => Done(Raised(f))
    case Ok(_) => AtStage(cfg, job, Locals(run, -1, None, []), 0)
  }

  // ---------------------------------------------------------------- one shared access

  /** Save, then go on with `next` or, when the repository refuses, with `refused`. */
  function Saving(s: Shared, run: AnalysisRun, next: Pc, refused: Fault -> Pc): (Pc, Shared) {
    match Port.Save(s.runs, run)
    case Ok(runs) => (next, s.(runs := runs))
    case Err(f) => (refused(f), s)
  }

  /** Replace stage `i` of the local run and save it; any exception goes to the failure handler. */
  function SavingStage(cfg: Config, s: Shared, l: Locals, i: nat, stage: StageExecution, next: Locals -> Pc)
    : (Pc, Shared)
    requires i < |l.run.stages|
  {
    match l.run.WithStages(cfg.screen, l.run.stages[i := stage])
    case Err(f) => (FailWith(l.active, f), s)
    case Ok(run) => Saving(s, run, next(l.(run := run)), f => FailWith(l.active, f))
  }

  function Building(cfg: Config, job: ExecutionJob, s: Shared, l: Locals, next: Locals -> Pc): Pc {
    match InputObject(s.objects, job.runId)
    case Err(f) => FailWith(l.active, f)
    case Ok((_, input)) =>
      match cfg.build(job.profile, l.run.origin, input.data, Port.CancellationRequested(s.runs, job.runId))
      case Built(payloads) => next(l.(payloads := Some(payloads)))
      case BuildFailed(code, message) => LoadForFail(l.active, code, message)
      case BuildCancelled => LoadForCancel(l.active)
  }

  predicate ForcePartial(run: AnalysisRun) {
    GetOrNull(run.origin.parameters, Named("force_partial")) == Bool(true)
  }

  /** The terminal record built from a freshly loaded manifest. */
  function FinalRecord(cfg: Config, current: AnalysisRun, refs: seq<ArtifactReference>, at: Instant)
    : Result<AnalysisRun>
  {
    if ForcePartial(current) then
      if current.stages == [] then Err(LookupFault)
      else
        var last := |current.stages| - 1;
        current.CompletePartial(cfg.screen, at, refs, PARTIAL_REASON,
                                current.stages[last := PartialStage(current.stages[last])])
    else current.Succeed(cfg.screen, at, refs, current.stages)
  }

  function CancelRecord(cfg: Config, current: AnalysisRun, active: int, at: Instant): Result<AnalysisRun> {
    if active >= |current.stages| then Err(LookupFault)
    else
      var stages := if active >= 0 && current.stages[active].status.StageRunning?
                    then current.stages[active := CancelledStage(current.stages[active], at)]
                    else current.stages;
      current.Cancel(cfg.screen, at, Some(CANCEL_REASON), stages)
  }

  function FailRecord(cfg: Config, current: AnalysisRun, active: int, code: string, message: string, at: Instant)
    : Result<AnalysisRun>
  {
    if active >= |current.stages| then Err(LookupFault)
    else
      var error := StructuredError(code, message, true, at, None);
      var place := if active >= 0 then StageKey(current.stages[active].stageName) else "ingestion";
      var stages := if active >= 0 && current.stages[active].status.StageRunning?
                    then current.stages[active := FailedStage(current.stages[active], at, error)]
                    else current.stages;
      current.Fail(cfg.screen, at, error.(technicalDetails := Some(map[Named("stage") := Str(place)])), stages)
  }

  function TryNext(cfg: Config, job: ExecutionJob, worker: string, l: Locals, point: TryPoint, s: Shared)
    : (Pc, Shared)
    requires TryPointOk(cfg, l, point)
  {
    match point
    case SaveSkip(i) =>
      SavingStage(cfg, s, l, i, SkippedStage(l.run.stages[i], s.clock), l' => AtStage(cfg, job, l', i + 1))
    case CheckBefore(i) =>
      (if Port.CancellationRequested(s.runs, job.runId) then LoadForCancel(l.active)
       else if job.profile.TestFail? && job.attemptNumber == 1 && i == 2 then FailWith(l.active, TEST_FAIL)
       else InTry(l, SaveRunning(i)), s)
    case SaveRunning(i) =>
      SavingStage(cfg, s, l, i, RunningStage(l.run.stages[i], s.clock), l' =>
        if job.profile.V1Compat? && l.run.stages[i].stageName.Detection? then InTry(l', BuildAtDetection(i))
        else InTry(l', CheckAfter(i)))
    case BuildAtDetection(i) => (Building(cfg, job, s, l, l' => InTry(l', CheckAfter(i))), s)
    case CheckAfter(i) =>
      (if Port.CancellationRequested(s.runs, job.runId) then LoadForCancel(l.active)
       else InTry(l, SaveFinished(i)), s)
    case SaveFinished(i) =>
      SavingStage(cfg, s, l, i,
                  FinishedStage(l.run.stages[i], s.clock, cfg.metrics(job, worker, l.run.stages[i].stageName)),
                  l' => AtStage(cfg, job, l', i + 1))
    case BuildLate =>
      (Building(cfg, job, s, l, l' => AtPublish(cfg, l', 0)), s)
    case Publish(k) =>
      var (r, objects) := WriteArtifact(cfg.sha, s.objects, job.runId, Plan(cfg, l.payloads.value)[k].spec);
      var pc := match r
        case Ok(ref) => AtPublish(cfg, l.(artifacts := l.artifacts + [ref]), k + 1)
        case Err(f) => FailWith(l.active, f);
      (pc, s.(objects := objects))
    case Verify(k) =>
      (if ReferenceIntact(cfg.sha, s.objects, job.runId, l.artifacts[k]) then AtVerify(l, k + 1)
       else FailWith(l.active, INTEGRITY_FAIL), s)
    case Reload =>
      (match Port.Load(s.runs, job.runId)
       case Err(f) => FailWith(l.active, f)
       case Ok(current) =>
         (match FinalRecord(cfg, current, l.artifacts, s.clock)
          case Err(f) => FailWith(l.active, f)
          case Ok(final) => InTry(l, SaveFinal(final))), s)
    case SaveFinal(final) => Saving(s, final, Done(Returned(final.status)), f => FailWith(l.active, f))
  }

  /** The local variables are those the program point needs. */
  predicate TryPointOk(cfg: Config, l: Locals, point: TryPoint) {
    match point
    case SaveSkip(i) => i < |l.run.stages|
    case CheckBefore(i) => i < |l.run.stages|
    case SaveRunning(i) => i < |l.run.stages|
    case BuildAtDetection(i) => i < |l.run.stages|
    case CheckAfter(i) => i < |l.run.stages|
    case SaveFinished(i) => i < |l.run.stages|
    case Publish(k) => l.payloads.Some? && k < |Plan(cfg, l.payloads.value)| && Plan(cfg, l.payloads.value)[k].WriteIt?
    case Verify(k) => k < |l.artifacts|
    case _ => true
  }

  predicate PcOk(cfg: Config, pc: Pc) {
    pc.InTry? ==> TryPointOk(cfg, pc.locals, pc.point)
  }

  function Next(cfg: Config, job: ExecutionJob, worker: string, pc: Pc, s: Shared): (r: (Pc, Shared))
    requires PcOk(cfg, pc)
  {
    match pc
    case Loading =>
      (match Port.Load(s.runs, job.runId)
       case Err(f) => Done(Raised(f))
       case Ok(run) =>
         if run.status.IsTerminal() then Done(Returned(run.status))
         else if run.status.Queued? then CheckQueued(run)
         else EnterTry(cfg, job, run), s)
    case CheckQueued(run) =>
      (if Port.CancellationRequested(s.runs, job.runId) then SaveQueuedCancel(run) else SaveStart(run), s)
    case SaveQueuedCancel(run) =>
      (match run.Cancel(cfg.screen, s.clock, Some(QUEUED_CANCEL_REASON), run.stages)
       case Err(f) => (Done(Raised(f)), s)
       case Ok(cancelled) => Saving(s, cancelled, Done(Returned(Cancelled)), f => Done(Raised(f))))
    case SaveStart(run) =>
      (match run.Start(cfg.screen, s.clock, run.stages)
       case Err(f) => (Done(Raised(f)), s)
       case Ok(started) => Saving(s, started, EnterTry(cfg, job, started), f => Done(Raised(f))))
    case InTry(l, point) => TryNext(cfg, job, worker, l, point, s)
    case LoadForCancel(active) =>
      (match Port.Load(s.runs, job.runId)
       case Err(f) => Done(Raised(f))
       case Ok(current) =>
         (match CancelRecord(cfg, current, active, s.clock)
          case Err(f) => Done(Raised(f))
          case Ok(cancelled) => SaveCancel(cancelled)), s)
    case SaveCancel(cancelled) => Saving(s, cancelled, Done(Returned(Cancelled)), f => Done(Raised(f)))
    case LoadForFail(active, code, message) =>
      (match Port.Load(s.runs, job.runId)
       case Err(f) => Done(Raised(f))
       case Ok(current) =>
         if current.status.IsTerminal() then Done(Returned(current.status))
         else (match FailRecord(cfg, current, active, code, message, s.clock)
               case Err(f) => Done(Raised(f))
               case Ok(failed) => SaveFail(failed)), s)
    case SaveFail(failed) => Saving(s, failed, Done(Returned(Failed)), f => Done(Raised(f)))
    case Done(_) => (pc, s)
  }

  // ---------------------------------------------------------------- well-formedness of the machine

  lemma {:induction false} AtStageOk(cfg: Config, job: ExecutionJob, l: Locals, i: nat)
    ensures PcOk(cfg, AtStage(cfg, job, l, i))
    decreases |l.run.stages| - i
  {
    if i < |l.run.stages| && StageDone(l.run.stages[i]) {
      AtStageOk(cfg, job, l.(active := i), i + 1);
    }
  }

  lemma EnterTryOk(cfg: Config, job: ExecutionJob, run: AnalysisRun)
    ensures PcOk(cfg, EnterTry(cfg, job, run))
  {
    AtStageOk(cfg, job, Locals(run, -1, None, []), 0);
  }

  /** Every step leads to a program point whose local variables are there. */
  lemma NextOk(cfg: Config, job: ExecutionJob, worker: string, pc: Pc, s: Shared)
    requires PcOk(cfg, pc)
    ensures PcOk(cfg, Next(cfg, job, worker, pc, s).0)
  {
    hide AnalysisRun.Valid;
    match pc
    case Loading =>
      if job.runId in s.runs {
        EnterTryOk(cfg, job, s.runs[job.runId].manifest);
      }
    case SaveStart(run) =>
      var started := run.Start(cfg.screen, s.clock, run.stages);
      if started.Ok? {
        EnterTryOk(cfg, job, started.value);
      }
    case InTry(l, point) => TryNextOk(cfg, job, worker, l, point, s);
    case _ =>
  }

  lemma TryNextOk(cfg: Config, job: ExecutionJob, worker: string, l: Locals, point: TryPoint, s: Shared)
    requires TryPointOk(cfg, l, point)
    ensures PcOk(cfg, TryNext(cfg, job, worker, l, point, s).0)
  {
    hide AnalysisRun.Valid, WriteArtifact, ReferenceIntact, InputObject, Plan, AtStage, Port.Save, FinalRecord;
    match point
    case SaveSkip(i) =>
      var run := l.run.WithStages(cfg.screen, l.run.stages[i := SkippedStage(l.run.stages[i], s.clock)]);
      if run.Ok? {
        AtStageOk(cfg, job, l.(run := run.value), i + 1);
      }
    case SaveFinished(i) =>
      var stage := FinishedStage(l.run.stages[i], s.clock, cfg.metrics(job, worker, l.run.stages[i].stageName));
      var run := l.run.WithStages(cfg.screen, l.run.stages[i := stage]);
      if run.Ok? {
        AtStageOk(cfg, job, l.(run := run.value), i + 1);
      }
    case _ =>
  }

  // ---------------------------------------------------------------- whole executions

  /** What everyone else does to the shared state before each access: an arbitrary function of the
      access number and the state, so every interleaving is some environment. */
  type Environment = (nat, Shared) -> Shared

  /** At most `fuel` accesses, then the process dies. */
  function Run(cfg: Config, job: ExecutionJob, worker: string, env: Environment, pc: Pc, s: Shared,
               tick: nat, fuel: nat): (r: (Pc, Shared))
    requires PcOk(cfg, pc)
    ensures PcOk(cfg, r.0)
    decreases fuel
  {
    if fuel == 0 || pc.Done? then (pc, s)
    else
      var (pc', s') := Next(cfg, job, worker, pc, env(tick, s));
      NextOk(cfg, job, worker, pc, env(tick, s));
      Run(cfg, job, worker, env, pc', s', tick + 1, fuel - 1)
  }
}
