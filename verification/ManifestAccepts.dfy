/** Exactly which JSON documents `from_dict` accepts, and as which run: a reading of the wire format
    key by key, independent of the parser. */
module ManifestAccepts {
  import opened Outcomes
  import opened JsonValues
  import opened Contract
  import opened Manifest

  // ---------------------------------------------------------------- words

  predicate OriginSpelled(j: Json, o: DataOrigin) {
    match o
    case Real => j == Str("real")
    case Synthetic => j == Str("synthetic")
    case Evaluation => j == Str("evaluation")
    case LegacyV1 => j == Str("legacy_v1")
  }

  predicate StatusSpelled(j: Json, s: RunStatus) {
    match s
    case Queued => j == Str("queued")
    case Running => j == Str("running")
    case Succeeded => j == Str("succeeded")
    case Partial => j == Str("partial")
    case Failed => j == Str("failed")
    case Cancelled => j == Str("cancelled")
  }

  predicate StageNameSpelled(j: Json, n: StageName) {
    match n
    case Ingestion => j == Str("ingestion")
    case VideoValidation => j == Str("video_validation")
    case Detection => j == Str("detection")
    case Tracking => j == Str("tracking")
    case IdentityResolution => j == Str("identity_resolution")
    case PitchCalibration => j == Str("pitch_calibration")
    case Metrics => j == Str("metrics")
    case WorkloadAdvisory => j == Str("workload_advisory")
    case ArtifactPublication => j == Str("artifact_publication")
  }

  predicate StageStatusSpelled(j: Json, s: StageStatus) {
    match s
    case StageQueued => j == Str("queued")
    case StageRunning => j == Str("running")
    case StageSucceeded => j == Str("succeeded")
    case StagePartial => j == Str("partial")
    case StageFailed => j == Str("failed")
    case StageCancelled => j == Str("cancelled")
    case StageSkipped => j == Str("skipped")
  }

  predicate CategorySpelled(j: Json, c: ArtifactCategory) {
    match c
    case SourceCategory => j == Str("source")
    case Tracks => j == Str("tracks")
    case MetricsCategory => j == Str("metrics")
    case Summary => j == Str("summary")
    case Workload => j == Str("workload_advisory")
    case Visualization => j == Str("visualization")
    case Other => j == Str("other")
  }

  // ---------------------------------------------------------------- options

  predicate TextOrNull(j: Json, t: Option<string>) {
    match t
    case None => j == Null
    case Some(text) => j == Str(text)
  }

  predicate StampOrNull(j: Json, t: Option<Instant>) {
    match t
    case None => j == Null
    case Some(at) => j == Stamp(at)
  }

  /** Absent counts as null. */
  predicate KeyedText(m: map<Key, Json>, key: Key, t: Option<string>) {
    if key in m then TextOrNull(m[key], t) else t.None?
  }

  /** Null does not count as absent. */
  predicate KeyedStamp(m: map<Key, Json>, key: Key, t: Option<Instant>) {
    if key in m then t.Some? && m[key] == Stamp(t.value) else t.None?
  }

  predicate Falsy(j: Json) {
    j in [Null, Bool(false), Int(0), Num(0.0), Str(""), Arr([]), Obj(map[])]
  }

  // ---------------------------------------------------------------- records

  predicate InputIs(j: Json, x: InputReference) {
    j == Obj(map[KUri := Str(x.uri), KSha256 := Str(x.sha256), KMediaType := Str(x.mediaType)])
  }

  predicate CodeIs(j: Json, x: CodeReference) {
    j == Obj(map[KRepository := Str(x.repository), KRevision := Str(x.revision), KDirty := Bool(x.dirty)])
  }

  predicate ModelIs(j: Json, x: ModelReference) {
    && j.Obj? && var m := j.fields;
    && {KName, KVersion} <= m.Keys <= {KName, KVersion, KSha256}
    && m[KName] == Str(x.name) && m[KVersion] == Str(x.version) && KeyedText(m, KSha256, x.sha256)
  }

  predicate ArtifactIs(j: Json, x: ArtifactReference) {
    && j.Obj? && var m := j.fields;
    && {KArtifactId, KName, KCategory, KRelativePath, KMediaType, KSha256, KSizeBytes} <= m.Keys
    && m.Keys <= {KArtifactId, KName, KCategory, KRelativePath, KMediaType, KSha256, KSizeBytes, KSchemaVersion}
    && m[KArtifactId] == Str(x.artifactId) && m[KName] == Str(x.name) && CategorySpelled(m[KCategory], x.category)
    && m[KRelativePath] == Str(x.relativePath) && m[KMediaType] == Str(x.mediaType) && m[KSha256] == Str(x.sha256)
    && m[KSizeBytes] == Int(x.sizeBytes) && KeyedText(m, KSchemaVersion, x.schemaVersion)
  }

  predicate ErrorIs(j: Json, x: StructuredError) {
    && j.Obj? && var m := j.fields;
    && m.Keys == {KErrorCode, KSafeMessage, KRetryable, KOccurredAt, KTechnicalDetails}
    && m[KErrorCode] == Str(x.errorCode) && m[KSafeMessage] == Str(x.safeMessage)
    && m[KRetryable] == Bool(x.retryable) && m[KOccurredAt] == Stamp(x.occurredAt)
    && m[KTechnicalDetails] == (if x.technicalDetails.None? then Null else Obj(x.technicalDetails.value))
  }

  predicate KeyedError(m: map<Key, Json>, key: Key, e: Option<StructuredError>) {
    if key in m then e.Some? && ErrorIs(m[key], e.value) else e.None?
  }

  /** A stage's error is there unless the value is a falsy one. */
  predicate StageErrorIs(j: Json, e: Option<StructuredError>) {
    if Falsy(j) then e.None? else e.Some? && ErrorIs(j, e.value)
  }

  predicate TextsAre(j: Json, xs: seq<string>) {
    j.Arr? && |j.items| == |xs| && forall i :: 0 <= i < |xs| ==> j.items[i] == Str(xs[i])
  }

  /** A whole percentage may be written as an integer. */
  predicate NumberIs(j: Json, x: real) {
    j == Num(x) || (j.Int? && j.number as real == x)
  }

  predicate StageIs(j: Json, x: StageExecution) {
    && j.Obj? && var m := j.fields;
    && m.Keys == {KStageId, KStageName, KRequired, KStatus, KProgressPercent, KAttemptNumber, KStartedAt, KFinishedAt,
                  KProducedArtifactIds, KError, KPerformanceMetrics, KMessage}
    && m[KStageId] == Str(x.stageId) && StageNameSpelled(m[KStageName], x.stageName)
    && m[KRequired] == Bool(x.required) && StageStatusSpelled(m[KStatus], x.status)
    && NumberIs(m[KProgressPercent], x.progressPercent) && m[KAttemptNumber] == Int(x.attemptNumber)
    && StampOrNull(m[KStartedAt], x.startedAt) && StampOrNull(m[KFinishedAt], x.finishedAt)
    && TextsAre(m[KProducedArtifactIds], x.producedArtifactIds) && StageErrorIs(m[KError], x.error)
    && m[KPerformanceMetrics] == Obj(x.performanceMetrics) && TextOrNull(m[KMessage], x.message)
  }

  predicate ModelsAre(j: Json, xs: seq<ModelReference>) {
    j.Arr? && |j.items| == |xs| && forall i :: 0 <= i < |xs| ==> ModelIs(j.items[i], xs[i])
  }

  predicate ArtifactsAre(j: Json, xs: seq<ArtifactReference>) {
    j.Arr? && |j.items| == |xs| && forall i :: 0 <= i < |xs| ==> ArtifactIs(j.items[i], xs[i])
  }

  predicate StagesAre(j: Json, xs: seq<StageExecution>) {
    j.Arr? && |j.items| == |xs| && forall i :: 0 <= i < |xs| ==> StageIs(j.items[i], xs[i])
  }

  predicate OriginIs(m: map<Key, Json>, o: Provenance)
    requires RUN_KEYS <= m.Keys
  {
    && m[KContractVersion] == Str(o.contractVersion) && m[KLogicalAnalysisId] == Str(o.logicalAnalysisId)
    && m[KRunId] == Str(o.runId) && m[KAttemptNumber] == Int(o.attemptNumber)
    && TextOrNull(m[KPreviousAttemptRunId], o.previousAttemptRunId) && OriginSpelled(m[KDataOrigin], o.dataOrigin)
    && InputIs(m[KInput], o.input) && CodeIs(m[KCode], o.code) && m[KPipelineVersion] == Str(o.pipelineVersion)
    && m[KParameters] == Obj(o.parameters) && ModelsAre(m[KModels], o.models) && m[KCreatedAt] == Stamp(o.createdAt)
  }

  predicate EndingIs(m: map<Key, Json>, r: AnalysisRun) {
    && KeyedStamp(m, KStartedAt, r.startedAt) && KeyedStamp(m, KCompletedAt, r.completedAt)
    && KeyedError(m, KFailure, r.failure) && KeyedText(m, KPartialReason, r.partialReason)
    && KeyedText(m, KCancellationReason, r.cancellationReason)
  }

  /** The document has every required key and no unknown one, and each holds its field. */
  predicate RunIs(j: Json, r: AnalysisRun) {
    && j.Obj? && var m := j.fields;
    && {KContractVersion, KLogicalAnalysisId, KRunId, KAttemptNumber, KPreviousAttemptRunId, KStatus, KDataOrigin, KInput,
        KCode, KPipelineVersion, KParameters, KModels, KArtifacts, KStages, KCreatedAt} <= m.Keys
    && m.Keys <= {KContractVersion, KLogicalAnalysisId, KRunId, KAttemptNumber, KPreviousAttemptRunId, KStatus, KDataOrigin,
                  KInput, KCode, KPipelineVersion, KParameters, KModels, KArtifacts, KStages, KCreatedAt, KStartedAt,
                  KCompletedAt, KFailure, KPartialReason, KCancellationReason}
    && OriginIs(m, r.origin) && StatusSpelled(m[KStatus], r.status)
    && ArtifactsAre(m[KArtifacts], r.artifacts) && StagesAre(m[KStages], r.stages)
    && EndingIs(m, r)
  }

  // ---------------------------------------------------------------- the parser reads exactly that

  lemma {:induction false} ParseIs<T>(items: seq<Json>, parser: Json -> Result<T>, xs: seq<T>)
    ensures Parse(items, parser) == Ok(xs) <==>
              |items| == |xs| && forall i :: 0 <= i < |xs| ==> parser(items[i]) == Ok(xs[i])
  {
    if |items| == |xs| && forall i :: 0 <= i < |xs| ==> parser(items[i]) == Ok(xs[i]) {
      ParseInverts(xs, items, parser);
    }
  }

  lemma InputRead(j: Json, x: InputReference)
    ensures ParseInput(j) == Ok(x) <==> x.Valid() && InputIs(j, x)
  {
    hide InputReference.Valid;
  }

  lemma CodeRead(j: Json, x: CodeReference)
    ensures ParseCode(j) == Ok(x) <==> x.Valid() && CodeIs(j, x)
  {
    hide CodeReference.Valid;
  }

  lemma ModelRead(j: Json, x: ModelReference)
    ensures ParseModel(j) == Ok(x) <==> x.Valid() && ModelIs(j, x)
  {
    hide ModelReference.Valid;
  }

  lemma CategoryRead(j: Json, c: ArtifactCategory)
    ensures ParseCategory(j) == Ok(c) <==> CategorySpelled(j, c)
  {
  }

  lemma ArtifactRead(j: Json, x: ArtifactReference)
    ensures ParseArtifact(j) == Ok(x) <==> x.Valid() && ArtifactIs(j, x)
  {
    hide ArtifactReference.Valid, ParseCategory, CategorySpelled;
    if j.Obj? && KCategory in j.fields {
      forall c: ArtifactCategory
        ensures ParseCategory(j.fields[KCategory]) == Ok(c) <==> CategorySpelled(j.fields[KCategory], c)
      {
        CategoryRead(j.fields[KCategory], c);
      }
    }
  }

  lemma ErrorRead(sc: Screen, j: Json, x: StructuredError)
    ensures ParseError(sc, j) == Ok(x) <==> x.Valid(sc) && ErrorIs(j, x)
  {
    hide StructuredError.Valid;
  }

  lemma OriginRead(j: Json, o: DataOrigin)
    ensures ParseOrigin(j) == Ok(o) <==> OriginSpelled(j, o)
  {
  }

  lemma StatusRead(j: Json, s: RunStatus)
    ensures ParseRunStatus(j) == Ok(s) <==> StatusSpelled(j, s)
  {
  }

  lemma StageNameRead(j: Json, n: StageName)
    ensures ParseStageName(j) == Ok(n) <==> StageNameSpelled(j, n)
  {
  }

  lemma StageStatusRead(j: Json, s: StageStatus)
    ensures ParseStageStatus(j) == Ok(s) <==> StageStatusSpelled(j, s)
  {
  }

  lemma EmptyObject(m: map<Key, Json>)
    ensures |m| == 0 <==> m == map[]
  {
  }

  lemma FalsyRead(j: Json)
    ensures j.Truthy() <==> !Falsy(j)
  {
    if j.Obj? {
      EmptyObject(j.fields);
    }
  }

  lemma StageErrorRead(sc: Screen, j: Json, e: Option<StructuredError>)
    ensures ParseStageError(sc, j) == Ok(e) <==> (e.Some? ==> e.value.Valid(sc)) && StageErrorIs(j, e)
  {
    hide StructuredError.Valid, Falsy, Json.Truthy, ParseError, ErrorIs;
    FalsyRead(j);
    if e.Some? {
      ErrorRead(sc, j, e.value);
    }
  }

  lemma TextsRead(j: Json, xs: seq<string>)
    requires j.Arr?
    ensures Parse(j.items, AsText) == Ok(xs) <==> TextsAre(j, xs)
  {
    ParseIs(j.items, AsText, xs);
  }

  /** The fields of a stage, one parser each. */
  ghost predicate StageFields(sc: Screen, m: map<Key, Json>, x: StageExecution)
    requires m.Keys == STAGE_KEYS
  {
    && m[KStageId] == Str(x.stageId) && ParseStageName(m[KStageName]) == Ok(x.stageName)
    && m[KRequired] == Bool(x.required) && ParseStageStatus(m[KStatus]) == Ok(x.status)
    && AsNumber(m[KProgressPercent]) == Ok(x.progressPercent) && m[KAttemptNumber] == Int(x.attemptNumber)
    && ParseOptInstant(m[KStartedAt]) == Ok(x.startedAt) && ParseOptInstant(m[KFinishedAt]) == Ok(x.finishedAt)
    && m[KProducedArtifactIds].Arr? && Parse(m[KProducedArtifactIds].items, AsText) == Ok(x.producedArtifactIds)
    && ParseStageError(sc, m[KError]) == Ok(x.error)
    && m[KPerformanceMetrics] == Obj(x.performanceMetrics) && OptionalText(m[KMessage]) == Ok(x.message)
  }

  lemma StageFieldsRead(sc: Screen, j: Json, x: StageExecution)
    ensures ParseStage(sc, j) == Ok(x) <==>
              x.Valid(sc) && j.Obj? && j.fields.Keys == STAGE_KEYS && StageFields(sc, j.fields, x)
  {
    hide StageExecution.Valid, ParseStageName, ParseStageStatus, ParseOptInstant, ParseStageError, Parse, AsNumber,
         OptionalText;
  }

  lemma SameFields(sc: Screen, m: map<Key, Json>, x: StageExecution)
    requires m.Keys == STAGE_KEYS
    ensures StageFields(sc, m, x) <==> (x.error.Some? ==> x.error.value.Valid(sc)) && StageIs(Obj(m), x)
  {
    hide StructuredError.Valid, ParseStageName, ParseStageStatus, ParseStageError, Parse, StageNameSpelled,
         StageStatusSpelled, StageErrorIs, TextsAre;
    StageNameRead(m[KStageName], x.stageName);
    StageStatusRead(m[KStatus], x.status);
    StageErrorRead(sc, m[KError], x.error);
    if m[KProducedArtifactIds].Arr? {
      TextsRead(m[KProducedArtifactIds], x.producedArtifactIds);
    } else {
      NotTexts(m[KProducedArtifactIds], x.producedArtifactIds);
    }
  }

  lemma NotTexts(j: Json, xs: seq<string>)
    requires !j.Arr?
    ensures !TextsAre(j, xs)
  {
  }

  lemma StageRead(sc: Screen, j: Json, x: StageExecution)
    ensures ParseStage(sc, j) == Ok(x) <==> x.Valid(sc) && StageIs(j, x)
  {
    StageFieldsRead(sc, j, x);
    assert x.Valid(sc) && x.error.Some? ==> x.error.value.Valid(sc);
    hide StageExecution.Valid, ParseStage, StageFields;
    StageKeys(j, x);
    hide StageIs;
    if j.Obj? && j.fields.Keys == STAGE_KEYS {
      SameFields(sc, j.fields, x);
    }
  }

  lemma StageKeys(j: Json, x: StageExecution)
    ensures StageIs(j, x) ==> j.Obj? && j.fields.Keys == STAGE_KEYS
  {
  }

  // ---------------------------------------------------------------- lists of records

  lemma ModelsRead(j: Json, xs: seq<ModelReference>)
    requires j.Arr?
    ensures Parse(j.items, ParseModel) == Ok(xs) <==>
              (forall i :: 0 <= i < |xs| ==> xs[i].Valid()) && ModelsAre(j, xs)
  {
    hide ModelReference.Valid, ParseModel, ModelIs, Parse;
    ParseIs(j.items, ParseModel, xs);
    forall i | 0 <= i < |xs| && i < |j.items|
      ensures ParseModel(j.items[i]) == Ok(xs[i]) <==> xs[i].Valid() && ModelIs(j.items[i], xs[i])
    {
      ModelRead(j.items[i], xs[i]);
    }
  }

  lemma ArtifactsRead(j: Json, xs: seq<ArtifactReference>)
    requires j.Arr?
    ensures Parse(j.items, ParseArtifact) == Ok(xs) <==>
              (forall i :: 0 <= i < |xs| ==> xs[i].Valid()) && ArtifactsAre(j, xs)
  {
    hide ArtifactReference.Valid, ParseArtifact, ArtifactIs, Parse;
    ParseIs(j.items, ParseArtifact, xs);
    forall i | 0 <= i < |xs| && i < |j.items|
      ensures ParseArtifact(j.items[i]) == Ok(xs[i]) <==> xs[i].Valid() && ArtifactIs(j.items[i], xs[i])
    {
      ArtifactRead(j.items[i], xs[i]);
    }
  }

  lemma StagesRead(sc: Screen, j: Json, xs: seq<StageExecution>)
    requires j.Arr?
    ensures Parse(j.items, item => ParseStage(sc, item)) == Ok(xs) <==>
              (forall i :: 0 <= i < |xs| ==> xs[i].Valid(sc)) && StagesAre(j, xs)
  {
    hide StageExecution.Valid, ParseStage, StageIs, Parse;
    ParseIs(j.items, item => ParseStage(sc, item), xs);
    forall i | 0 <= i < |xs| && i < |j.items|
      ensures ParseStage(sc, j.items[i]) == Ok(xs[i]) <==> xs[i].Valid(sc) && StageIs(j.items[i], xs[i])
    {
      StageRead(sc, j.items[i], xs[i]);
    }
  }

  // ---------------------------------------------------------------- the run

  ghost predicate OriginFields(m: map<Key, Json>, o: Provenance)
    requires RUN_KEYS <= m.Keys
  {
    && ParseOrigin(m[KDataOrigin]) == Ok(o.dataOrigin)
    && ParseInput(m[KInput]) == Ok(o.input) && ParseCode(m[KCode]) == Ok(o.code)
    && m[KModels].Arr? && Parse(m[KModels].items, ParseModel) == Ok(o.models)
    && m[KContractVersion] == Str(o.contractVersion) && m[KLogicalAnalysisId] == Str(o.logicalAnalysisId)
    && m[KRunId] == Str(o.runId) && m[KAttemptNumber] == Int(o.attemptNumber)
    && OptionalText(m[KPreviousAttemptRunId]) == Ok(o.previousAttemptRunId)
    && m[KPipelineVersion] == Str(o.pipelineVersion) && m[KParameters] == Obj(o.parameters)
    && m[KCreatedAt] == Stamp(o.createdAt)
  }

  lemma OriginFieldsRead(m: map<Key, Json>, o: Provenance)
    requires RUN_KEYS <= m.Keys
    ensures ParseProvenance(m) == Ok(o) <==> OriginFields(m, o)
  {
    hide ParseOrigin, ParseInput, ParseCode, ParseModel, Parse, OptionalText;
  }

  lemma ProvenanceRead(m: map<Key, Json>, o: Provenance)
    requires RUN_KEYS <= m.Keys
    ensures ParseProvenance(m) == Ok(o) <==>
              && o.input.Valid() && o.code.Valid() && (forall i :: 0 <= i < |o.models| ==> o.models[i].Valid())
              && OriginIs(m, o)
  {
    hide ParseProvenance, ParseOrigin, ParseInput, ParseCode, ParseModel, Parse, OriginSpelled, InputIs, CodeIs, ModelsAre,
         InputReference.Valid, CodeReference.Valid, ModelReference.Valid;
    OriginFieldsRead(m, o);
    OriginRead(m[KDataOrigin], o.dataOrigin);
    InputRead(m[KInput], o.input);
    CodeRead(m[KCode], o.code);
    if m[KModels].Arr? {
      ModelsRead(m[KModels], o.models);
    } else {
      assert !ModelsAre(m[KModels], o.models) by { NotModels(m[KModels], o.models); }
    }
  }

  lemma NotModels(j: Json, xs: seq<ModelReference>)
    requires !j.Arr?
    ensures !ModelsAre(j, xs)
  {
  }

  ghost predicate EndingFields(sc: Screen, m: map<Key, Json>, r: AnalysisRun) {
    && ParseKeyedInstant(m, KStartedAt) == Ok(r.startedAt) && ParseKeyedInstant(m, KCompletedAt) == Ok(r.completedAt)
    && ParseKeyedError(sc, m, KFailure) == Ok(r.failure)
    && OptionalText(GetOrNull(m, KPartialReason)) == Ok(r.partialReason)
    && OptionalText(GetOrNull(m, KCancellationReason)) == Ok(r.cancellationReason)
  }

  lemma EndingRead(sc: Screen, m: map<Key, Json>, r: AnalysisRun)
    ensures EndingFields(sc, m, r) <==> (r.failure.Some? ==> r.failure.value.Valid(sc)) && EndingIs(m, r)
  {
    hide StructuredError.Valid, ParseError, ErrorIs;
    if KFailure in m && r.failure.Some? {
      ErrorRead(sc, m[KFailure], r.failure.value);
    }
  }

  ghost predicate RunFields(sc: Screen, m: map<Key, Json>, r: AnalysisRun)
    requires RUN_KEYS <= m.Keys
  {
    && ParseRunStatus(m[KStatus]) == Ok(r.status) && ParseProvenance(m) == Ok(r.origin)
    && m[KArtifacts].Arr? && Parse(m[KArtifacts].items, ParseArtifact) == Ok(r.artifacts)
    && m[KStages].Arr? && Parse(m[KStages].items, item => ParseStage(sc, item)) == Ok(r.stages)
    && EndingFields(sc, m, r)
  }

  lemma RunFieldsRead(sc: Screen, j: Json, r: AnalysisRun)
    ensures FromDict(sc, j) == Ok(r) <==>
              && r.Valid(sc) && j.Obj? && ExactKeys(j.fields, RUN_KEYS, RUN_OPTIONAL_KEYS)
              && RunFields(sc, j.fields, r)
  {
    hide AnalysisRun.Valid, ParseRunStatus, ParseProvenance, ParseArtifact, ParseStage, Parse, ParseKeyedInstant,
         ParseKeyedError, OptionalText;
  }

  lemma ValidParts(sc: Screen, r: AnalysisRun)
    requires r.Valid(sc)
    ensures r.origin.input.Valid() && r.origin.code.Valid()
    ensures forall i :: 0 <= i < |r.origin.models| ==> r.origin.models[i].Valid()
    ensures forall i :: 0 <= i < |r.artifacts| ==> r.artifacts[i].Valid()
    ensures forall i :: 0 <= i < |r.stages| ==> r.stages[i].Valid(sc)
    ensures r.failure.Some? ==> r.failure.value.Valid(sc)
  {
    hide InputReference.Valid, CodeReference.Valid, ModelReference.Valid, ArtifactReference.Valid, StageExecution.Valid,
         StructuredError.Valid, AnalysisRun.LifecycleOk;
  }

  /** A document is accepted as a run exactly if the run is contract-valid and the document holds its
      fields under the contract's keys, no more and no less. */
  lemma AcceptsExactly(sc: Screen, j: Json, r: AnalysisRun)
    ensures FromDict(sc, j) == Ok(r) <==> r.Valid(sc) && RunIs(j, r)
  {
    hide AnalysisRun.Valid, FromDict, ParseRunStatus, ParseProvenance, ParseArtifact, ParseStage, Parse, EndingFields,
         EndingIs, OriginIs, ArtifactsAre, StagesAre, StatusSpelled, InputReference.Valid, CodeReference.Valid,
         ModelReference.Valid, ArtifactReference.Valid, StageExecution.Valid, StructuredError.Valid;
    RunFieldsRead(sc, j, r);
    if r.Valid(sc) {
      ValidParts(sc, r);
    }
    if j.Obj? && ExactKeys(j.fields, RUN_KEYS, RUN_OPTIONAL_KEYS) {
      var m := j.fields;
      StatusRead(m[KStatus], r.status);
      ProvenanceRead(m, r.origin);
      EndingRead(sc, m, r);
      if m[KArtifacts].Arr? {
        ArtifactsRead(m[KArtifacts], r.artifacts);
      }
      if m[KStages].Arr? {
        StagesRead(sc, m[KStages], r.stages);
      }
      ListsAre(m, r);
    }
  }

  lemma ListsAre(m: map<Key, Json>, r: AnalysisRun)
    requires RUN_KEYS <= m.Keys
    ensures ArtifactsAre(m[KArtifacts], r.artifacts) ==> m[KArtifacts].Arr?
    ensures StagesAre(m[KStages], r.stages) ==> m[KStages].Arr?
  {
    hide ArtifactIs, StageIs;
  }

  /** Everything else is refused. */
  lemma RefusesExactly(sc: Screen, j: Json)
    ensures FromDict(sc, j).Err? <==> forall r: AnalysisRun :: RunIs(j, r) ==> !r.Valid(sc)
  {
    hide AnalysisRun.Valid, FromDict, RunIs;
    forall r: AnalysisRun ensures FromDict(sc, j) == Ok(r) <==> r.Valid(sc) && RunIs(j, r) {
      AcceptsExactly(sc, j, r);
    }
    if FromDict(sc, j).Ok? {
      var r := FromDict(sc, j).value;
      assert RunIs(j, r) && r.Valid(sc);
    }
  }
}
