/** The analysis-run contract, `contracts/v1/analysis_run.py`: records, their validity, and the
    pure lifecycle transitions, each of which re-checks the record it builds. */
module Contract {
  import opened Outcomes
  import opened JsonValues

  const CONTRACT_VERSION := "footballai.analysis-run/v1"

  datatype DataOrigin = Real | Synthetic | Evaluation | LegacyV1

  datatype RunStatus = Queued | Running | Succeeded | Partial | Failed | Cancelled {
    predicate IsTerminal() {
      this in {Succeeded, Partial, Failed, Cancelled}
    }
  }

  datatype StageName =
    | Ingestion | VideoValidation | Detection | Tracking | IdentityResolution
    | PitchCalibration | Metrics | WorkloadAdvisory | ArtifactPublication

  datatype StageStatus =
    | StageQueued | StageRunning | StageSucceeded | StagePartial
    | StageFailed | StageCancelled | StageSkipped
  {
    predicate IsTerminal() {
      this in {StageSucceeded, StagePartial, StageFailed, StageCancelled, StageSkipped}
    }

    predicate IsActive() {
      this in {StageQueued, StageRunning}
    }
  }

  datatype ArtifactCategory =
    SourceCategory | Tracks | MetricsCategory | Summary | Workload | Visualization | Other

  /** The two text screens (unsafe diagnostics, secret-like keys) as arbitrary predicates. */
  datatype Screen = Screen(unsafeText: string -> bool, sensitiveKey: Key -> bool)

  // ---------------------------------------------------------------- text checks

  predicate IsSpace(c: char) {
    var n := c as int;
    || 0x09 <= n <= 0x0d || 0x1c <= n <= 0x20 || n == 0x85 || n == 0xa0 || n == 0x1680
    || 0x2000 <= n <= 0x200a || n == 0x2028 || n == 0x2029 || n == 0x202f || n == 0x205f
    || n == 0x3000
  }

  predicate NonEmptyText(s: string) {
    exists i :: 0 <= i < |s| && !IsSpace(s[i])
  }

  predicate IsHex(c: char) {
    '0' <= c <= '9' || 'a' <= c <= 'f'
  }

  predicate IsSha256(s: string) {
    |s| == 64 && forall i :: 0 <= i < |s| ==> IsHex(s[i])
  }

  /** A SHA-256 digest as text. The hash function itself stays arbitrary. */
  type Digest = s: string | IsSha256(s) witness seq(64, _ => 'a')

  type Bytes = seq<bv8>

  predicate IsGitRevision(s: string) {
    40 <= |s| <= 64 && forall i :: 0 <= i < |s| ==> IsHex(s[i])
  }

  predicate IsIdentifierChar(c: char) {
    'a' <= c <= 'z' || '0' <= c <= '9' || c == '.' || c == '_' || c == '-'
  }

  predicate IsIdentifier(s: string) {
    && 1 <= |s| <= 128
    && 'a' <= s[0] <= 'z'
    && forall i :: 1 <= i < |s| ==> IsIdentifierChar(s[i])
  }

  /** A canonical lowercase UUID of version 4 and the RFC 4122 variant. */
  predicate IsUuid4(s: string) {
    && |s| == 36
    && (forall i :: 0 <= i < 36 ==> if i in {8, 13, 18, 23} then s[i] == '-' else IsHex(s[i]))
    && s[14] == '4'
    && s[19] in {'8', '9', 'a', 'b'}
  }

  predicate SafeText(sc: Screen, s: string) {
    NonEmptyText(s) && !sc.unsafeText(s)
  }

  /** Nested diagnostic details: no secret-like key at any depth, no unsafe text at any leaf. */
  predicate SafeDetailValue(sc: Screen, value: Json)
    decreases value
  {
    match value
    case Str(s) => !sc.unsafeText(s)
    case Arr(items) => forall i :: 0 <= i < |items| ==> SafeDetailValue(sc, items[i])
    case Obj(fields) =>
      forall k :: k in fields ==> !sc.sensitiveKey(k) && SafeDetailValue(sc, fields[k])
    case _ => true
  }

  predicate SafeDetails(sc: Screen, fields: map<Key, Json>) {
    forall k :: k in fields ==> !sc.sensitiveKey(k) && SafeDetailValue(sc, fields[k])
  }

  // ---------------------------------------------------------------- artifact paths

  /** The parts of `s` between slashes; never empty. */
  function Split(s: string): (parts: seq<string>)
    ensures |parts| >= 1
  {
    if s == "" then [""]
    else
      var rest := Split(s[1..]);
      if s[0] == '/' then [""] + rest else [[s[0]] + rest[0]] + rest[1..]
  }

  /** A normalized POSIX path strictly inside the run's `artifacts/` directory. */
  predicate IsArtifactPath(s: string) {
    var parts := Split(s);
    && NonEmptyText(s)
    && '\\' !in s
    && (forall i :: 0 <= i < |parts| ==> parts[i] !in {"", ".", ".."})
    && parts[0] == "artifacts"
    && |parts| >= 2
  }

  // ---------------------------------------------------------------- records

  datatype InputReference = InputReference(uri: string, sha256: string, mediaType: string) {
    predicate Valid() {
      NonEmptyText(uri) && NonEmptyText(mediaType) && IsSha256(sha256)
    }
  }

  datatype CodeReference = CodeReference(repository: string, revision: string, dirty: bool) {
    predicate Valid() {
      NonEmptyText(repository) && IsGitRevision(revision)
    }
  }

  datatype ModelReference = ModelReference(name: string, version: string, sha256: Option<string>) {
    predicate Valid() {
      NonEmptyText(name) && NonEmptyText(version) && (sha256.Some? ==> IsSha256(sha256.value))
    }
  }

  datatype ArtifactReference = ArtifactReference(
    artifactId: string, name: string, category: ArtifactCategory, relativePath: string,
    mediaType: string, sha256: string, sizeBytes: int, schemaVersion: Option<string>)
  {
    predicate Valid() {
      && IsIdentifier(artifactId) && NonEmptyText(name) && IsArtifactPath(relativePath)
      && NonEmptyText(mediaType) && IsSha256(sha256) && sizeBytes >= 0
      && (schemaVersion.Some? ==> NonEmptyText(schemaVersion.value))
    }
  }

  datatype StructuredError = StructuredError(
    errorCode: string, safeMessage: string, retryable: bool, occurredAt: Instant,
    technicalDetails: Option<map<Key, Json>>)
  {
    predicate Valid(sc: Screen) {
      && IsIdentifier(errorCode) && SafeText(sc, safeMessage)
      && (technicalDetails.Some? ==> SafeDetails(sc, technicalDetails.value))
    }
  }

  datatype StageExecution = StageExecution(
    stageId: string, stageName: StageName, required: bool, status: StageStatus,
    progressPercent: real, attemptNumber: int, startedAt: Option<Instant>,
    finishedAt: Option<Instant>, producedArtifactIds: seq<string>,
    error: Option<StructuredError>, performanceMetrics: map<Key, Json>,
    message: Option<string>)
  {
    predicate TimesOk() {
      && (startedAt.Some? && finishedAt.Some? ==> startedAt.value <= finishedAt.value)
      && (status.StageQueued? ==> startedAt.None? && finishedAt.None?)
      && (status.StageRunning? ==> startedAt.Some? && finishedAt.None?)
      && (status.IsTerminal() ==> finishedAt.Some?)
    }

    predicate Valid(sc: Screen) {
      && IsIdentifier(stageId)
      && 0.0 <= progressPercent <= 100.0
      && attemptNumber >= 1
      && TimesOk()
      && (status.StageSucceeded? ==> progressPercent == 100.0)
      && (status.StageFailed? ==> error.Some?)
      && (error.Some? ==> error.value.Valid(sc))
      && Distinct(producedArtifactIds)
      && (forall i :: 0 <= i < |producedArtifactIds| ==> IsIdentifier(producedArtifactIds[i]))
      && (message.Some? ==> SafeText(sc, message.value))
    }
  }

  predicate UniqueModels(models: seq<ModelReference>) {
    forall i, j :: 0 <= i < j < |models| ==> models[i].name != models[j].name
  }

  predicate UniqueArtifacts(artifacts: seq<ArtifactReference>) {
    forall i, j :: 0 <= i < j < |artifacts| ==>
      && artifacts[i].artifactId != artifacts[j].artifactId
      && artifacts[i].name != artifacts[j].name
      && artifacts[i].relativePath != artifacts[j].relativePath
  }

  predicate UniqueStages(stages: seq<StageExecution>) {
    forall i, j :: 0 <= i < j < |stages| ==>
      && stages[i].stageId != stages[j].stageId
      && stages[i].stageName != stages[j].stageName
  }

  predicate KnownArtifact(artifacts: seq<ArtifactReference>, artifactId: string) {
    exists a :: 0 <= a < |artifacts| && artifacts[a].artifactId == artifactId
  }

  predicate Linked(stage: StageExecution, attempt: int, artifacts: seq<ArtifactReference>) {
    && stage.attemptNumber == attempt
    && forall k :: 0 <= k < |stage.producedArtifactIds| ==> KnownArtifact(artifacts, stage.producedArtifactIds[k])
  }

  predicate LinksKnown(stages: seq<StageExecution>, attempt: int, artifacts: seq<ArtifactReference>) {
    forall i :: 0 <= i < |stages| ==> Linked(stages[i], attempt, artifacts)
  }

  predicate NoStage(stages: seq<StageExecution>, status: StageStatus) {
    forall i :: 0 <= i < |stages| ==> stages[i].status != status
  }

  predicate NoActiveStage(stages: seq<StageExecution>) {
    forall i :: 0 <= i < |stages| ==> !stages[i].status.IsActive()
  }

  predicate IncompleteMandatory(stages: seq<StageExecution>) {
    exists i :: 0 <= i < |stages| && stages[i].required
      && stages[i].status in {StagePartial, StageFailed, StageCancelled, StageSkipped}
  }

  /** What an attempt fixes at creation and never edits (`IMMUTABLE_PROVENANCE_FIELDS`). */
  datatype Provenance = Provenance(
    contractVersion: string, logicalAnalysisId: string, runId: string, attemptNumber: int,
    previousAttemptRunId: Option<string>, dataOrigin: DataOrigin, input: InputReference,
    code: CodeReference, pipelineVersion: string, parameters: map<Key, Json>,
    models: seq<ModelReference>, createdAt: Instant)
  {
    predicate Valid() {
      && contractVersion == CONTRACT_VERSION
      && IsUuid4(logicalAnalysisId) && IsUuid4(runId)
      && attemptNumber >= 1
      && (attemptNumber == 1 <==> previousAttemptRunId.None?)
      && (previousAttemptRunId.Some? ==>
            IsUuid4(previousAttemptRunId.value) && previousAttemptRunId.value != runId)
      && input.Valid() && code.Valid() && NonEmptyText(pipelineVersion)
      && (forall i :: 0 <= i < |models| ==> models[i].Valid())
      && UniqueModels(models)
    }
  }

  /** One immutable attempt. The provenance fields are grouped; the rest changes by transition. */
  datatype AnalysisRun = AnalysisRun(
    origin: Provenance, status: RunStatus, artifacts: seq<ArtifactReference>,
    stages: seq<StageExecution>, startedAt: Option<Instant>, completedAt: Option<Instant>,
    failure: Option<StructuredError>, partialReason: Option<string>,
    cancellationReason: Option<string>)
  {
    predicate ComponentsValid(sc: Screen) {
      && (forall i :: 0 <= i < |artifacts| ==> artifacts[i].Valid())
      && (forall i :: 0 <= i < |stages| ==> stages[i].Valid(sc))
      && (failure.Some? ==> failure.value.Valid(sc))
      && (partialReason.Some? ==> SafeText(sc, partialReason.value))
      && (cancellationReason.Some? ==> SafeText(sc, cancellationReason.value))
    }

    predicate TimesOk() {
      && (startedAt.Some? ==> origin.createdAt <= startedAt.value)
      && (completedAt.Some? ==>
            (if startedAt.Some? then startedAt.value else origin.createdAt) <= completedAt.value)
    }

    predicate NoTerminalFields() {
      && completedAt.None? && failure.None? && artifacts == []
      && partialReason.None? && cancellationReason.None?
    }

    predicate LifecycleOk() {
      match status
      case Queued => startedAt.None? && NoTerminalFields()
        && forall i :: 0 <= i < |stages| ==> stages[i].status.StageQueued?
      case Running => startedAt.Some? && NoTerminalFields()
      case Succeeded =>
        && startedAt.Some? && completedAt.Some? && failure.None? && partialReason.None?
        && cancellationReason.None? && artifacts != [] && stages != [] && NoActiveStage(stages)
        && forall i :: 0 <= i < |stages| && stages[i].required ==> stages[i].status.StageSucceeded?
      case Partial =>
        && startedAt.Some? && completedAt.Some? && failure.None? && partialReason.Some?
        && cancellationReason.None? && artifacts != [] && stages != [] && NoActiveStage(stages)
        && IncompleteMandatory(stages)
      case Failed =>
        && completedAt.Some? && failure.Some? && artifacts == [] && partialReason.None?
        && cancellationReason.None? && NoStage(stages, StageRunning)
      case Cancelled =>
        && completedAt.Some? && failure.None? && artifacts == [] && partialReason.None?
        && NoStage(stages, StageRunning)
    }

    predicate Valid(sc: Screen) {
      && origin.Valid() && ComponentsValid(sc) && TimesOk()
      && UniqueArtifacts(artifacts) && UniqueStages(stages)
      && LinksKnown(stages, origin.attemptNumber, artifacts)
      && LifecycleOk()
    }

    function RunId(): string {
      origin.runId
    }

    // Transitions. Each builds the successor record and re-validates it.

    function Start(sc: Screen, at: Instant, newStages: seq<StageExecution>): Result<AnalysisRun> {
      if !status.Queued? then Err(InvalidTransition)
      else Checked(sc, this.(status := Running, startedAt := Some(at), stages := newStages))
    }

    function WithStages(sc: Screen, newStages: seq<StageExecution>): Result<AnalysisRun> {
      if status.IsTerminal() then Err(InvalidTransition)
      else Checked(sc, this.(stages := newStages))
    }

    function Succeed(sc: Screen, at: Instant, refs: seq<ArtifactReference>, newStages: seq<StageExecution>)
      : Result<AnalysisRun>
    {
      if !status.Running? then Err(InvalidTransition)
      else Checked(sc, this.(status := Succeeded, artifacts := refs, stages := newStages, completedAt := Some(at)))
    }

    function CompletePartial(sc: Screen, at: Instant, refs: seq<ArtifactReference>, reason: string,
                             newStages: seq<StageExecution>): Result<AnalysisRun>
    {
      if !status.Running? then Err(InvalidTransition)
      else Checked(sc, this.(status := Partial, artifacts := refs, stages := newStages,
                             partialReason := Some(reason), completedAt := Some(at)))
    }

    function Fail(sc: Screen, at: Instant, error: StructuredError, newStages: seq<StageExecution>)
      : Result<AnalysisRun>
    {
      if status !in {Queued, Running} then Err(InvalidTransition)
      else Checked(sc, this.(status := Failed, failure := Some(error), stages := newStages, completedAt := Some(at)))
    }

    function Cancel(sc: Screen, at: Instant, reason: Option<string>, newStages: seq<StageExecution>)
      : Result<AnalysisRun>
    {
      if status !in {Queued, Running} then Err(InvalidTransition)
      else Checked(sc, this.(status := Cancelled, cancellationReason := reason, stages := newStages,
                             completedAt := Some(at)))
    }
  }

  /** The constructor's `__post_init__` check. */
  function Checked(sc: Screen, run: AnalysisRun): Result<AnalysisRun> {
    if run.Valid(sc) then Ok(run) else Err(ContractViolation)
  }

  /** `AnalysisRun.new`: the first queued attempt of a logical analysis. */
  function NewRun(sc: Screen, logicalId: string, runId: string, dataOrigin: DataOrigin,
                  input: InputReference, code: CodeReference, pipelineVersion: string,
                  parameters: map<Key, Json>, models: seq<ModelReference>,
                  stages: seq<StageExecution>, at: Instant): Result<AnalysisRun>
  {
    Checked(sc, AnalysisRun(
      Provenance(CONTRACT_VERSION, logicalId, runId, 1, None, dataOrigin, input, code,
                 pipelineVersion, parameters, models, at),
      Queued, [], stages, None, None, None, None, None))
  }

  /** Attempt-specific provenance a retry may replace. */
  datatype Overrides = Overrides(
    code: Option<CodeReference>, pipelineVersion: Option<string>,
    parameters: Option<map<Key, Json>>, models: Option<seq<ModelReference>>)

  const KEEP := Overrides(None, None, None, None)

  /** `AnalysisRun.retry_from`: a queued attempt linked to a failed or partial one. */
  function RetryFrom(sc: Screen, previous: AnalysisRun, ov: Overrides, runId: string, at: Instant)
    : Result<AnalysisRun>
  {
    if previous.status !in {Failed, Partial} then Err(InvalidTransition)
    else
      var p := previous.origin;
      Checked(sc, AnalysisRun(
        p.(runId := runId,
           attemptNumber := p.attemptNumber + 1,
           previousAttemptRunId := Some(p.runId),
           code := if ov.code.Some? then ov.code.value else p.code,
           pipelineVersion := if ov.pipelineVersion.Some? && ov.pipelineVersion.value != ""
                              then ov.pipelineVersion.value else p.pipelineVersion,
           parameters := if ov.parameters.Some? then ov.parameters.value else p.parameters,
           models := if ov.models.Some? then ov.models.value else p.models,
           createdAt := at),
        Queued, [], [], None, None, None, None, None))
  }
}
