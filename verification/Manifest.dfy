/** The manifest printer and parser: `to_dict` / `from_dict` of every contract record. */
module Manifest {
  import opened Outcomes
  import opened JsonValues
  import opened Contract

  // ---------------------------------------------------------------- enumerations

  function OriginText(o: DataOrigin): string {
    match o
    case Real => "real"
    case Synthetic => "synthetic"
    case Evaluation => "evaluation"
    case LegacyV1 => "legacy_v1"
  }

  function ParseOrigin(j: Json): Result<DataOrigin> {
    if j == Str("real") then Ok(Real)
    else if j == Str("synthetic") then Ok(Synthetic)
    else if j == Str("evaluation") then Ok(Evaluation)
    else if j == Str("legacy_v1") then Ok(LegacyV1)
    else Err(ContractViolation)
  }

  function RunStatusText(s: RunStatus): string {
    match s
    case Queued => "queued"
    case Running => "running"
    case Succeeded => "succeeded"
    case Partial => "partial"
    case Failed => "failed"
    case Cancelled => "cancelled"
  }

  function ParseRunStatus(j: Json): Result<RunStatus> {
    if j == Str("queued") then Ok(Queued)
    else if j == Str("running") then Ok(Running)
    else if j == Str("succeeded") then Ok(Succeeded)
    else if j == Str("partial") then Ok(Partial)
    else if j == Str("failed") then Ok(Failed)
    else if j == Str("cancelled") then Ok(Cancelled)
    else Err(ContractViolation)
  }

  function StageNameText(n: StageName): string {
    match n
    case Ingestion => "ingestion"
    case VideoValidation => "video_validation"
    case Detection => "detection"
    case Tracking => "tracking"
    case IdentityResolution => "identity_resolution"
    case PitchCalibration => "pitch_calibration"
    case Metrics => "metrics"
    case WorkloadAdvisory => "workload_advisory"
    case ArtifactPublication => "artifact_publication"
  }

  function ParseStageName(j: Json): Result<StageName> {
    if j == Str("ingestion") then Ok(Ingestion)
    else if j == Str("video_validation") then Ok(VideoValidation)
    else if j == Str("detection") then Ok(Detection)
    else if j == Str("tracking") then Ok(Tracking)
    else if j == Str("identity_resolution") then Ok(IdentityResolution)
    else if j == Str("pitch_calibration") then Ok(PitchCalibration)
    else if j == Str("metrics") then Ok(Metrics)
    else if j == Str("workload_advisory") then Ok(WorkloadAdvisory)
    else if j == Str("artifact_publication") then Ok(ArtifactPublication)
    else Err(ContractViolation)
  }

  function StageStatusText(s: StageStatus): string {
    match s
    case StageQueued => "queued"
    case StageRunning => "running"
    case StageSucceeded => "succeeded"
    case StagePartial => "partial"
    case StageFailed => "failed"
    case StageCancelled => "cancelled"
    case StageSkipped => "skipped"
  }

  function ParseStageStatus(j: Json): Result<StageStatus> {
    if j == Str("queued") then Ok(StageQueued)
    else if j == Str("running") then Ok(StageRunning)
    else if j == Str("succeeded") then Ok(StageSucceeded)
    else if j == Str("partial") then Ok(StagePartial)
    else if j == Str("failed") then Ok(StageFailed)
    else if j == Str("cancelled") then Ok(StageCancelled)
    else if j == Str("skipped") then Ok(StageSkipped)
    else Err(ContractViolation)
  }

  function CategoryText(c: ArtifactCategory): string {
    match c
    case SourceCategory => "source"
    case Tracks => "tracks"
    case MetricsCategory => "metrics"
    case Summary => "summary"
    case Workload => "workload_advisory"
    case Visualization => "visualization"
    case Other => "other"
  }

  function ParseCategory(j: Json): Result<ArtifactCategory> {
    if j == Str("source") then Ok(SourceCategory)
    else if j == Str("tracks") then Ok(Tracks)
    else if j == Str("metrics") then Ok(MetricsCategory)
    else if j == Str("summary") then Ok(Summary)
    else if j == Str("workload_advisory") then Ok(Workload)
    else if j == Str("visualization") then Ok(Visualization)
    else if j == Str("other") then Ok(Other)
    else Err(ContractViolation)
  }

  // ---------------------------------------------------------------- lists

  function Print<T>(xs: seq<T>, printer: T -> Json): (items: seq<Json>)
    ensures |items| == |xs|
    ensures forall i :: 0 <= i < |xs| ==> items[i] == printer(xs[i])
  {
    seq(|xs|, i requires 0 <= i < |xs| => printer(xs[i]))
  }

  function Parse<T>(items: seq<Json>, parser: Json -> Result<T>): (r: Result<seq<T>>)
    ensures r.Ok? ==> |r.value| == |items|
    ensures r.Ok? ==> forall i :: 0 <= i < |items| ==> parser(items[i]) == Ok(r.value[i])
  {
    if items == [] then Ok([])
    else
      var head :- parser(items[0]);
      var tail :- Parse(items[1..], parser);
      Ok([head] + tail)
  }

  lemma {:induction false} ParseInverts<T>(xs: seq<T>, items: seq<Json>, parser: Json -> Result<T>)
    requires |items| == |xs|
    requires forall i :: 0 <= i < |xs| ==> parser(items[i]) == Ok(xs[i])
    ensures Parse(items, parser) == Ok(xs)
  {
    if xs == [] {
    } else {
      ParseInverts(xs[1..], items[1..], parser);
      assert xs == [xs[0]] + xs[1..];
    }
  }

  // ---------------------------------------------------------------- leaf records

  function PrintOptText(t: Option<string>): Json {
    if t.Some? then Str(t.value) else Null
  }

  function PrintOptInstant(t: Option<Instant>): Json {
    if t.Some? then Stamp(t.value) else Null
  }

  function PrintInput(x: InputReference): Json {
    Obj(map[KUri := Str(x.uri), KSha256 := Str(x.sha256), KMediaType := Str(x.mediaType)])
  }

  function ParseInput(j: Json): Result<InputReference> {
    var m :- AsObject(j);
    if !ExactKeys(m, {KUri, KSha256, KMediaType}, {}) then Err(ContractViolation) else
    var uri :- AsText(m[KUri]);
    var sha :- AsText(m[KSha256]);
    var media :- AsText(m[KMediaType]);
    var x := InputReference(uri, sha, media);
    if x.Valid() then Ok(x) else Err(ContractViolation)
  }

  function PrintCode(x: CodeReference): Json {
    Obj(map[KRepository := Str(x.repository), KRevision := Str(x.revision), KDirty := Bool(x.dirty)])
  }

  function ParseCode(j: Json): Result<CodeReference> {
    var m :- AsObject(j);
    if !ExactKeys(m, {KRepository, KRevision, KDirty}, {}) then Err(ContractViolation) else
    var repository :- AsText(m[KRepository]);
    var revision :- AsText(m[KRevision]);
    var dirty :- AsBool(m[KDirty]);
    var x := CodeReference(repository, revision, dirty);
    if x.Valid() then Ok(x) else Err(ContractViolation)
  }

  function PrintModel(x: ModelReference): Json {
    var base := map[KName := Str(x.name), KVersion := Str(x.version)];
    Obj(if x.sha256.Some? then base[KSha256 := Str(x.sha256.value)] else base)
  }

  function ParseModel(j: Json): Result<ModelReference> {
    var m :- AsObject(j);
    if !ExactKeys(m, {KName, KVersion}, {KSha256}) then Err(ContractViolation) else
    var name :- AsText(m[KName]);
    var version :- AsText(m[KVersion]);
    var sha :- OptionalText(GetOrNull(m, KSha256));
    var x := ModelReference(name, version, sha);
    if x.Valid() then Ok(x) else Err(ContractViolation)
  }

  const ARTIFACT_KEYS := {KArtifactId, KName, KCategory, KRelativePath, KMediaType, KSha256, KSizeBytes}

  function PrintArtifact(x: ArtifactReference): Json {
    var base := map[
      KArtifactId := Str(x.artifactId), KName := Str(x.name),
      KCategory := Str(CategoryText(x.category)), KRelativePath := Str(x.relativePath),
      KMediaType := Str(x.mediaType), KSha256 := Str(x.sha256), KSizeBytes := Int(x.sizeBytes)];
    Obj(if x.schemaVersion.Some? then base[KSchemaVersion := Str(x.schemaVersion.value)] else base)
  }

  function ParseArtifact(j: Json): Result<ArtifactReference> {
    var m :- AsObject(j);
    if !ExactKeys(m, ARTIFACT_KEYS, {KSchemaVersion}) then Err(ContractViolation) else
    var category :- ParseCategory(m[KCategory]);
    var artifactId :- AsText(m[KArtifactId]);
    var name :- AsText(m[KName]);
    var path :- AsText(m[KRelativePath]);
    var media :- AsText(m[KMediaType]);
    var sha :- AsText(m[KSha256]);
    var size :- AsInt(m[KSizeBytes]);
    var schema :- OptionalText(GetOrNull(m, KSchemaVersion));
    var x := ArtifactReference(artifactId, name, category, path, media, sha, size, schema);
    if x.Valid() then Ok(x) else Err(ContractViolation)
  }

  function PrintError(x: StructuredError): Json {
    Obj(map[KErrorCode := Str(x.errorCode), KSafeMessage := Str(x.safeMessage),
            KRetryable := Bool(x.retryable), KOccurredAt := Stamp(x.occurredAt),
            KTechnicalDetails := if x.technicalDetails.Some? then Obj(x.technicalDetails.value) else Null])
  }

  function ParseDetails(j: Json): Result<Option<map<Key, Json>>> {
    if j.Null? then Ok(None) else var m :- AsObject(j); Ok(Some(m))
  }

  function ParseError(sc: Screen, j: Json): Result<StructuredError> {
    var m :- AsObject(j);
    if !ExactKeys(m, {KErrorCode, KSafeMessage, KRetryable, KOccurredAt, KTechnicalDetails}, {})
    then Err(ContractViolation) else
    var details :- ParseDetails(m[KTechnicalDetails]);
    var code :- AsText(m[KErrorCode]);
    var message :- AsText(m[KSafeMessage]);
    var retryable :- AsBool(m[KRetryable]);
    var at :- AsInstant(m[KOccurredAt]);
    var x := StructuredError(code, message, retryable, at, details);
    if x.Valid(sc) then Ok(x) else Err(ContractViolation)
  }

  // ---------------------------------------------------------------- stages

  const STAGE_KEYS := {
    KStageId, KStageName, KRequired, KStatus, KProgressPercent, KAttemptNumber, KStartedAt,
    KFinishedAt, KProducedArtifactIds, KError, KPerformanceMetrics, KMessage}

  function PrintStage(x: StageExecution): Json {
    Obj(map[
      KStageId := Str(x.stageId), KStageName := Str(StageNameText(x.stageName)),
      KRequired := Bool(x.required), KStatus := Str(StageStatusText(x.status)),
      KProgressPercent := Num(x.progressPercent), KAttemptNumber := Int(x.attemptNumber),
      KStartedAt := PrintOptInstant(x.startedAt), KFinishedAt := PrintOptInstant(x.finishedAt),
      KProducedArtifactIds := Arr(Print(x.producedArtifactIds, s => Str(s))),
      KError := PrintOptError(x.error),
      KPerformanceMetrics := Obj(x.performanceMetrics), KMessage := PrintOptText(x.message)])
  }

  /** A nullable timestamp: `null` is none, everything else must parse. */
  function ParseOptInstant(j: Json): Result<Option<Instant>> {
    if j.Null? then Ok(None) else var t :- AsInstant(j); Ok(Some(t))
  }

  /** A stage error is parsed only when the value is truthy. */
  function ParseStageError(sc: Screen, j: Json): Result<Option<StructuredError>> {
    if !j.Truthy() then Ok(None) else var e :- ParseError(sc, j); Ok(Some(e))
  }

  function ParseStage(sc: Screen, j: Json): Result<StageExecution> {
    var m :- AsObject(j);
    if !ExactKeys(m, STAGE_KEYS, {}) then Err(ContractViolation) else
    var name :- ParseStageName(m[KStageName]);
    var status :- ParseStageStatus(m[KStatus]);
    var idItems :- AsArray(m[KProducedArtifactIds]);
    var metrics :- AsObject(m[KPerformanceMetrics]);
    var stageId :- AsText(m[KStageId]);
    var required :- AsBool(m[KRequired]);
    var progress :- AsNumber(m[KProgressPercent]);
    var attempt :- AsInt(m[KAttemptNumber]);
    var startedAt :- ParseOptInstant(m[KStartedAt]);
    var finishedAt :- ParseOptInstant(m[KFinishedAt]);
    var ids :- Parse(idItems, AsText);
    var error :- ParseStageError(sc, m[KError]);
    var message :- OptionalText(m[KMessage]);
    var x := StageExecution(stageId, name, required, status, progress, attempt, startedAt, finishedAt,
                            ids, error, metrics, message);
    if x.Valid(sc) then Ok(x) else Err(ContractViolation)
  }

  // ---------------------------------------------------------------- the run

  const RUN_KEYS := {
    KContractVersion, KLogicalAnalysisId, KRunId, KAttemptNumber, KPreviousAttemptRunId,
    KStatus, KDataOrigin, KInput, KCode, KPipelineVersion, KParameters, KModels, KArtifacts,
    KStages, KCreatedAt}

  const RUN_OPTIONAL_KEYS := {KStartedAt, KCompletedAt, KFailure, KPartialReason, KCancellationReason}

  function WithOptional(m: map<Key, Json>, key: Key, value: Json): map<Key, Json> {
    if value.Null? then m else m[key := value]
  }

  function PrintOrigin(o: Provenance): map<Key, Json> {
    map[KContractVersion := Str(o.contractVersion),
        KLogicalAnalysisId := Str(o.logicalAnalysisId),
        KRunId := Str(o.runId),
        KAttemptNumber := Int(o.attemptNumber),
        KPreviousAttemptRunId := PrintOptText(o.previousAttemptRunId),
        KDataOrigin := Str(OriginText(o.dataOrigin)),
        KInput := PrintInput(o.input),
        KCode := PrintCode(o.code),
        KPipelineVersion := Str(o.pipelineVersion),
        KParameters := Obj(o.parameters),
        KModels := Arr(Print(o.models, PrintModel)),
        KCreatedAt := Stamp(o.createdAt)]
  }

  function PrintOptError(e: Option<StructuredError>): Json {
    if e.Some? then PrintError(e.value) else Null
  }

  function PrintRequired(r: AnalysisRun): map<Key, Json> {
    PrintOrigin(r.origin)
      [KStatus := Str(RunStatusText(r.status))]
      [KArtifacts := Arr(Print(r.artifacts, PrintArtifact))]
      [KStages := Arr(Print(r.stages, PrintStage))]
  }

  function AddTimes(m: map<Key, Json>, startedAt: Json, completedAt: Json): map<Key, Json> {
    WithOptional(WithOptional(m, KStartedAt, startedAt), KCompletedAt, completedAt)
  }

  function AddReasons(m: map<Key, Json>, failure: Json, partialReason: Json, cancellationReason: Json)
    : map<Key, Json>
  {
    var d := WithOptional(WithOptional(m, KFailure, failure), KPartialReason, partialReason);
    WithOptional(d, KCancellationReason, cancellationReason)
  }

  function AddOptionals(base: map<Key, Json>, r: AnalysisRun): map<Key, Json> {
    var timed := AddTimes(base, PrintOptInstant(r.startedAt), PrintOptInstant(r.completedAt));
    AddReasons(timed, PrintOptError(r.failure), PrintOptText(r.partialReason), PrintOptText(r.cancellationReason))
  }

  function ToDict(r: AnalysisRun): Json {
    Obj(AddOptionals(PrintRequired(r), r))
  }

  function ParseProvenance(m: map<Key, Json>): Result<Provenance>
    requires RUN_KEYS <= m.Keys
  {
    var dataOrigin :- ParseOrigin(m[KDataOrigin]);
    var modelItems :- AsArray(m[KModels]);
    var version :- AsText(m[KContractVersion]);
    var logicalId :- AsText(m[KLogicalAnalysisId]);
    var runId :- AsText(m[KRunId]);
    var attempt :- AsInt(m[KAttemptNumber]);
    var previous :- OptionalText(m[KPreviousAttemptRunId]);
    var input :- ParseInput(m[KInput]);
    var code :- ParseCode(m[KCode]);
    var pipeline :- AsText(m[KPipelineVersion]);
    var parameters :- AsObject(m[KParameters]);
    var models :- Parse(modelItems, ParseModel);
    var createdAt :- AsInstant(m[KCreatedAt]);
    Ok(Provenance(version, logicalId, runId, attempt, previous, dataOrigin, input, code, pipeline,
                  parameters, models, createdAt))
  }

  /** A timestamp key that may be absent but, when present, must parse. */
  function ParseKeyedInstant(m: map<Key, Json>, key: Key): Result<Option<Instant>> {
    if key in m then var t :- AsInstant(m[key]); Ok(Some(t)) else Ok(None)
  }

  function ParseKeyedError(sc: Screen, m: map<Key, Json>, key: Key): Result<Option<StructuredError>> {
    if key in m then var e :- ParseError(sc, m[key]); Ok(Some(e)) else Ok(None)
  }

  function FromDict(sc: Screen, j: Json): (r: Result<AnalysisRun>)
    ensures r.Ok? ==> r.value.Valid(sc)
  {
    var m :- AsObject(j);
    if !ExactKeys(m, RUN_KEYS, RUN_OPTIONAL_KEYS) then Err(ContractViolation) else
    var status :- ParseRunStatus(m[KStatus]);
    var artifactItems :- AsArray(m[KArtifacts]);
    var stageItems :- AsArray(m[KStages]);
    var origin :- ParseProvenance(m);
    var artifacts :- Parse(artifactItems, ParseArtifact);
    var stages :- Parse(stageItems, item => ParseStage(sc, item));
    var startedAt :- ParseKeyedInstant(m, KStartedAt);
    var completedAt :- ParseKeyedInstant(m, KCompletedAt);
    var failure :- ParseKeyedError(sc, m, KFailure);
    var partialReason :- OptionalText(GetOrNull(m, KPartialReason));
    var cancellationReason :- OptionalText(GetOrNull(m, KCancellationReason));
    Checked(sc, AnalysisRun(origin, status, artifacts, stages, startedAt, completedAt, failure,
                            partialReason, cancellationReason))
  }

  // ---------------------------------------------------------------- round trips

  lemma OriginEnum(x: DataOrigin)
    ensures ParseOrigin(Str(OriginText(x))) == Ok(x)
  {
  }

  lemma RunStatusEnum(x: RunStatus)
    ensures ParseRunStatus(Str(RunStatusText(x))) == Ok(x)
  {
  }

  lemma CategoryEnum(x: ArtifactCategory)
    ensures ParseCategory(Str(CategoryText(x))) == Ok(x)
  {
  }

  lemma StageNameEnum(x: StageName)
    ensures ParseStageName(Str(StageNameText(x))) == Ok(x)
  {
  }

  lemma StageStatusEnum(x: StageStatus)
    ensures ParseStageStatus(Str(StageStatusText(x))) == Ok(x)
  {
  }

  lemma ErrorRoundTrip(sc: Screen, e: StructuredError)
    requires e.Valid(sc)
    ensures ParseError(sc, PrintError(e)) == Ok(e)
    ensures PrintError(e).Truthy()
  {
    assert KErrorCode in PrintError(e).fields;
  }

  /** `m` holds exactly the printed fields of `x`. */
  ghost predicate IsStageRecord(m: map<Key, Json>, x: StageExecution) {
    && m.Keys == STAGE_KEYS
    && m[KStageId] == Str(x.stageId) && m[KStageName] == Str(StageNameText(x.stageName))
    && m[KRequired] == Bool(x.required) && m[KStatus] == Str(StageStatusText(x.status))
    && m[KProgressPercent] == Num(x.progressPercent) && m[KAttemptNumber] == Int(x.attemptNumber)
    && m[KStartedAt] == PrintOptInstant(x.startedAt) && m[KFinishedAt] == PrintOptInstant(x.finishedAt)
    && m[KProducedArtifactIds] == Arr(Print(x.producedArtifactIds, s => Str(s)))
    && m[KError] == PrintOptError(x.error)
    && m[KPerformanceMetrics] == Obj(x.performanceMetrics) && m[KMessage] == PrintOptText(x.message)
  }

  lemma PrintStageIsRecord(x: StageExecution)
    ensures PrintStage(x).Obj? && IsStageRecord(PrintStage(x).fields, x)
  {
  }

  lemma ParseStageRecord(sc: Screen, m: map<Key, Json>, x: StageExecution)
    requires x.Valid(sc) && IsStageRecord(m, x)
    ensures ParseStage(sc, Obj(m)) == Ok(x)
  {
    StageNameEnum(x.stageName);
    StageStatusEnum(x.status);
    var ids := x.producedArtifactIds;
    ParseInverts(ids, Print(ids, s => Str(s)), AsText);
    OptionalErrorRoundTrip(sc, x.error, x);
    hide StageExecution.Valid, ParseStageError, PrintOptError, ParseStageName, StageNameText, ParseStageStatus,
         StageStatusText, Print, Parse;
  }

  lemma OptionalErrorRoundTrip(sc: Screen, error: Option<StructuredError>, x: StageExecution)
    requires x.Valid(sc) && error == x.error
    ensures ParseStageError(sc, PrintOptError(error)) == Ok(error)
  {
    if error.Some? {
      ErrorRoundTrip(sc, error.value);
    }
  }

  lemma StageRoundTrip(sc: Screen, x: StageExecution)
    requires x.Valid(sc)
    ensures ParseStage(sc, PrintStage(x)) == Ok(x)
  {
    PrintStageIsRecord(x);
    ParseStageRecord(sc, PrintStage(x).fields, x);
  }

  lemma ArtifactRoundTrip(x: ArtifactReference)
    requires x.Valid()
    ensures ParseArtifact(PrintArtifact(x)) == Ok(x)
  {
    CategoryEnum(x.category);
  }

  ghost predicate IsOriginRecord(m: map<Key, Json>, o: Provenance) {
    && {KContractVersion, KLogicalAnalysisId, KRunId, KAttemptNumber, KPreviousAttemptRunId, KDataOrigin,
        KInput, KCode, KPipelineVersion, KParameters, KModels, KCreatedAt} <= m.Keys
    && m[KContractVersion] == Str(o.contractVersion) && m[KLogicalAnalysisId] == Str(o.logicalAnalysisId)
    && m[KRunId] == Str(o.runId) && m[KAttemptNumber] == Int(o.attemptNumber)
    && m[KPreviousAttemptRunId] == PrintOptText(o.previousAttemptRunId)
    && m[KDataOrigin] == Str(OriginText(o.dataOrigin))
    && m[KInput] == PrintInput(o.input) && m[KCode] == PrintCode(o.code)
    && m[KPipelineVersion] == Str(o.pipelineVersion) && m[KParameters] == Obj(o.parameters)
    && m[KModels] == Arr(Print(o.models, PrintModel)) && m[KCreatedAt] == Stamp(o.createdAt)
  }

  lemma PrintOriginIsRecord(o: Provenance)
    ensures PrintOrigin(o).Keys + {KStatus, KArtifacts, KStages} == RUN_KEYS
    ensures IsOriginRecord(PrintOrigin(o), o)
  {
  }

  lemma ReferencesRoundTrip(input: InputReference, code: CodeReference)
    requires input.Valid() && code.Valid()
    ensures ParseInput(PrintInput(input)) == Ok(input)
    ensures ParseCode(PrintCode(code)) == Ok(code)
  {
  }

  lemma ModelsRoundTrip(models: seq<ModelReference>)
    requires forall i :: 0 <= i < |models| ==> models[i].Valid()
    ensures Parse(Print(models, PrintModel), ParseModel) == Ok(models)
  {
    ParseInverts(models, Print(models, PrintModel), ParseModel);
  }

  lemma ParseOriginFields(m: map<Key, Json>, o: Provenance)
    requires RUN_KEYS <= m.Keys
    requires ParseOrigin(m[KDataOrigin]) == Ok(o.dataOrigin)
    requires ParseInput(m[KInput]) == Ok(o.input) && ParseCode(m[KCode]) == Ok(o.code)
    requires m[KModels].Arr? && Parse(m[KModels].items, ParseModel) == Ok(o.models)
    requires m[KContractVersion] == Str(o.contractVersion) && m[KLogicalAnalysisId] == Str(o.logicalAnalysisId)
    requires m[KRunId] == Str(o.runId) && m[KAttemptNumber] == Int(o.attemptNumber)
    requires m[KPreviousAttemptRunId] == PrintOptText(o.previousAttemptRunId)
    requires m[KPipelineVersion] == Str(o.pipelineVersion) && m[KParameters] == Obj(o.parameters)
    requires m[KCreatedAt] == Stamp(o.createdAt)
    ensures ParseProvenance(m) == Ok(o)
  {
  }

  lemma ParseOriginRecord(m: map<Key, Json>, o: Provenance)
    requires o.Valid() && RUN_KEYS <= m.Keys && IsOriginRecord(m, o)
    ensures ParseProvenance(m) == Ok(o)
  {
    OriginEnum(o.dataOrigin);
    ReferencesRoundTrip(o.input, o.code);
    ModelsRoundTrip(o.models);
    ParseOriginFields(m, o);
  }

  ghost predicate OptionalField(m: map<Key, Json>, key: Key, value: Json) {
    if value.Null? then key !in m else key in m && m[key] == value
  }

  /** `m` holds exactly the printed fields of `r`, absent options being absent keys. */
  ghost predicate IsRunRecord(m: map<Key, Json>, r: AnalysisRun) {
    && ExactKeys(m, RUN_KEYS, RUN_OPTIONAL_KEYS)
    && IsOriginRecord(m, r.origin)
    && m[KStatus] == Str(RunStatusText(r.status))
    && m[KArtifacts] == Arr(Print(r.artifacts, PrintArtifact))
    && m[KStages] == Arr(Print(r.stages, PrintStage))
    && OptionalFieldsOf(m, r)
  }

  lemma TimesAdded(m: map<Key, Json>, v1: Json, v2: Json)
    requires m.Keys == RUN_KEYS
    ensures var d := AddTimes(m, v1, v2);
            && d.Keys <= RUN_KEYS + {KStartedAt, KCompletedAt}
            && (forall k :: k in m ==> k in d && d[k] == m[k])
            && OptionalField(d, KStartedAt, v1) && OptionalField(d, KCompletedAt, v2)
  {
  }

  lemma ReasonsAdded(m: map<Key, Json>, v3: Json, v4: Json, v5: Json)
    requires m.Keys !! {KFailure, KPartialReason, KCancellationReason}
    ensures var d := AddReasons(m, v3, v4, v5);
            && d.Keys <= m.Keys + {KFailure, KPartialReason, KCancellationReason}
            && (forall k :: k in m ==> k in d && d[k] == m[k])
            && (forall k :: k in d && k !in m ==> k in {KFailure, KPartialReason, KCancellationReason})
            && OptionalField(d, KFailure, v3) && OptionalField(d, KPartialReason, v4)
            && OptionalField(d, KCancellationReason, v5)
  {
  }

  lemma RequiredIsRecord(r: AnalysisRun)
    ensures PrintRequired(r).Keys == RUN_KEYS
    ensures IsOriginRecord(PrintRequired(r), r.origin)
  {
    PrintOriginIsRecord(r.origin);
  }

  ghost predicate OptionalFieldsOf(m: map<Key, Json>, r: AnalysisRun) {
    && OptionalField(m, KStartedAt, PrintOptInstant(r.startedAt))
    && OptionalField(m, KCompletedAt, PrintOptInstant(r.completedAt))
    && OptionalField(m, KFailure, PrintOptError(r.failure))
    && OptionalField(m, KPartialReason, PrintOptText(r.partialReason))
    && OptionalField(m, KCancellationReason, PrintOptText(r.cancellationReason))
  }

  lemma OptionalsAdded(base: map<Key, Json>, r: AnalysisRun)
    requires base.Keys == RUN_KEYS
    ensures ExactKeys(AddOptionals(base, r), RUN_KEYS, RUN_OPTIONAL_KEYS)
    ensures forall k :: k in base ==> AddOptionals(base, r)[k] == base[k]
    ensures OptionalFieldsOf(AddOptionals(base, r), r)
  {
    var startedAt, completedAt := PrintOptInstant(r.startedAt), PrintOptInstant(r.completedAt);
    TimesAdded(base, startedAt, completedAt);
    ReasonsComplete(AddTimes(base, startedAt, completedAt), r);
  }

  lemma ReasonsComplete(timed: map<Key, Json>, r: AnalysisRun)
    requires RUN_KEYS <= timed.Keys <= RUN_KEYS + {KStartedAt, KCompletedAt}
    requires OptionalField(timed, KStartedAt, PrintOptInstant(r.startedAt))
    requires OptionalField(timed, KCompletedAt, PrintOptInstant(r.completedAt))
    ensures var d := AddReasons(timed, PrintOptError(r.failure), PrintOptText(r.partialReason),
                                PrintOptText(r.cancellationReason));
            && ExactKeys(d, RUN_KEYS, RUN_OPTIONAL_KEYS) && OptionalFieldsOf(d, r)
            && forall k :: k in timed ==> d[k] == timed[k]
  {
    ReasonsAdded(timed, PrintOptError(r.failure), PrintOptText(r.partialReason), PrintOptText(r.cancellationReason));
  }

  lemma ToDictIsRecord(r: AnalysisRun)
    ensures ToDict(r).Obj? && IsRunRecord(ToDict(r).fields, r)
  {
    hide IsOriginRecord, OptionalFieldsOf, AddOptionals, PrintOrigin;
    RequiredIsRecord(r);
    OptionalsAdded(PrintRequired(r), r);
    RecordExtends(PrintRequired(r), ToDict(r).fields, r);
  }

  lemma RecordExtends(base: map<Key, Json>, m: map<Key, Json>, r: AnalysisRun)
    requires base.Keys == RUN_KEYS && IsOriginRecord(base, r.origin)
    requires base[KStatus] == Str(RunStatusText(r.status))
    requires base[KArtifacts] == Arr(Print(r.artifacts, PrintArtifact))
    requires base[KStages] == Arr(Print(r.stages, PrintStage))
    requires ExactKeys(m, RUN_KEYS, RUN_OPTIONAL_KEYS) && OptionalFieldsOf(m, r)
    requires forall k :: k in base ==> m[k] == base[k]
    ensures IsRunRecord(m, r)
  {
  }

  lemma ArtifactsRoundTrip(xs: seq<ArtifactReference>)
    requires forall i :: 0 <= i < |xs| ==> xs[i].Valid()
    ensures Parse(Print(xs, PrintArtifact), ParseArtifact) == Ok(xs)
  {
    forall i | 0 <= i < |xs| ensures ParseArtifact(PrintArtifact(xs[i])) == Ok(xs[i]) {
      ArtifactRoundTrip(xs[i]);
    }
    ParseInverts(xs, Print(xs, PrintArtifact), ParseArtifact);
  }

  lemma StagesRoundTrip(sc: Screen, xs: seq<StageExecution>)
    requires forall i :: 0 <= i < |xs| ==> xs[i].Valid(sc)
    ensures Parse(Print(xs, PrintStage), item => ParseStage(sc, item)) == Ok(xs)
  {
    forall i | 0 <= i < |xs| ensures ParseStage(sc, PrintStage(xs[i])) == Ok(xs[i]) {
      StageRoundTrip(sc, xs[i]);
    }
    ParseInverts(xs, Print(xs, PrintStage), item => ParseStage(sc, item));
  }

  lemma ParseEndingFields(sc: Screen, m: map<Key, Json>, r: AnalysisRun)
    requires r.failure.Some? ==> r.failure.value.Valid(sc)
    requires OptionalFieldsOf(m, r)
    ensures ParseKeyedInstant(m, KStartedAt) == Ok(r.startedAt)
    ensures ParseKeyedInstant(m, KCompletedAt) == Ok(r.completedAt)
    ensures ParseKeyedError(sc, m, KFailure) == Ok(r.failure)
    ensures OptionalText(GetOrNull(m, KPartialReason)) == Ok(r.partialReason)
    ensures OptionalText(GetOrNull(m, KCancellationReason)) == Ok(r.cancellationReason)
  {
    if r.failure.Some? {
      ErrorRoundTrip(sc, r.failure.value);
    }
  }

  lemma ParseRunRecord(sc: Screen, m: map<Key, Json>, r: AnalysisRun)
    requires r.Valid(sc) && IsRunRecord(m, r)
    ensures FromDict(sc, Obj(m)) == Ok(r)
  {
    RunStatusEnum(r.status);
    ParseOriginRecord(m, r.origin);
    ArtifactsRoundTrip(r.artifacts);
    StagesRoundTrip(sc, r.stages);
    ParseEndingFields(sc, m, r);
    ParseRunFields(sc, m, r);
  }

  lemma ParseRunFields(sc: Screen, m: map<Key, Json>, r: AnalysisRun)
    requires r.Valid(sc) && ExactKeys(m, RUN_KEYS, RUN_OPTIONAL_KEYS)
    requires ParseRunStatus(m[KStatus]) == Ok(r.status)
    requires ParseProvenance(m) == Ok(r.origin)
    requires m[KArtifacts].Arr? && Parse(m[KArtifacts].items, ParseArtifact) == Ok(r.artifacts)
    requires m[KStages].Arr? && Parse(m[KStages].items, item => ParseStage(sc, item)) == Ok(r.stages)
    requires ParseKeyedInstant(m, KStartedAt) == Ok(r.startedAt)
    requires ParseKeyedInstant(m, KCompletedAt) == Ok(r.completedAt)
    requires ParseKeyedError(sc, m, KFailure) == Ok(r.failure)
    requires OptionalText(GetOrNull(m, KPartialReason)) == Ok(r.partialReason)
    requires OptionalText(GetOrNull(m, KCancellationReason)) == Ok(r.cancellationReason)
    ensures FromDict(sc, Obj(m)) == Ok(r)
  {
  }

  /** Printing then parsing any contract-valid run gives the same run back. */
  lemma RunRoundTrip(sc: Screen, r: AnalysisRun)
    requires r.Valid(sc)
    ensures FromDict(sc, ToDict(r)) == Ok(r)
  {
    ToDictIsRecord(r);
    ParseRunRecord(sc, ToDict(r).fields, r);
  }

  /** Parsing is a projection onto the printed form: whatever it accepts, re-printing the
      result is accepted too and means the same run. */
  lemma ParsedRunIsCanonical(sc: Screen, j: Json, r: AnalysisRun)
    requires FromDict(sc, j) == Ok(r)
    ensures FromDict(sc, ToDict(r)) == Ok(r)
  {
    RunRoundTrip(sc, r);
  }

  /** Two valid runs that print the same are the same. */
  lemma ToDictInjective(sc: Screen, a: AnalysisRun, b: AnalysisRun)
    requires a.Valid(sc) && b.Valid(sc) && ToDict(a) == ToDict(b)
    ensures a == b
  {
    RunRoundTrip(sc, a);
    RunRoundTrip(sc, b);
  }
}
