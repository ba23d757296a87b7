/** What a new attempt contains, and when it can be made: retries and finalized uploads, field by
    field. */
module NewAttempts {
  import opened Outcomes
  import opened JsonValues
  import opened Contract
  import opened Jobs
  import opened ExecutorMachine
  import opened UploadService
  import Port = RepositoryPort

  // ---------------------------------------------------------------- retries

  /** Whatever replaces provenance is itself well formed; an empty pipeline version replaces nothing. */
  predicate UsableOverrides(ov: Overrides) {
    && (ov.code.Some? ==> NonEmptyText(ov.code.value.repository) && IsGitRevision(ov.code.value.revision))
    && (ov.pipelineVersion.Some? && ov.pipelineVersion.value != "" ==> NonEmptyText(ov.pipelineVersion.value))
    && (ov.models.Some? ==>
          && (forall i :: 0 <= i < |ov.models.value| ==> ov.models.value[i].Valid())
          && (forall i, j :: 0 <= i < j < |ov.models.value| ==> ov.models.value[i].name != ov.models.value[j].name))
  }

  /** A queued attempt with no stages, one number on, linked to the one it retries, of the same
      analysis, contract, origin and input; what is not replaced is kept. */
  predicate Retries(previous: AnalysisRun, ov: Overrides, runId: string, at: Instant, run: AnalysisRun) {
    var p, o := previous.origin, run.origin;
    && run.status == Queued && run.artifacts == [] && run.stages == []
    && run.startedAt == None && run.completedAt == None && run.failure == None && run.partialReason == None
    && run.cancellationReason == None
    && o.runId == runId && o.attemptNumber == p.attemptNumber + 1 && o.previousAttemptRunId == Some(p.runId)
    && o.createdAt == at
    && o.logicalAnalysisId == p.logicalAnalysisId && o.contractVersion == p.contractVersion
    && o.dataOrigin == p.dataOrigin && o.input == p.input
    && (if ov.code.None? then o.code == p.code else ov.code == Some(o.code))
    && (if ov.pipelineVersion.None? || ov.pipelineVersion == Some("") then o.pipelineVersion == p.pipelineVersion
        else ov.pipelineVersion == Some(o.pipelineVersion))
    && (if ov.parameters.None? then o.parameters == p.parameters else ov.parameters == Some(o.parameters))
    && (if ov.models.None? then o.models == p.models else ov.models == Some(o.models))
  }

  /** A stored attempt can be retried exactly if it failed or ended partial, the new id is a canonical
      one other than its own, and the replacements are well formed; then the retry is this record. */
  lemma RetryIs(sc: Screen, previous: AnalysisRun, ov: Overrides, runId: string, at: Instant)
    requires previous.Valid(sc)
    ensures var r := RetryFrom(sc, previous, ov, runId, at);
            && (r.Ok? <==>
                  && previous.status in {Failed, Partial} && IsUuid4(runId) && runId != previous.RunId()
                  && UsableOverrides(ov))
            && (r.Ok? ==> Retries(previous, ov, runId, at, r.value))
            && (r.Err? ==>
                  r.fault == if previous.status in {Failed, Partial} then ContractViolation else InvalidTransition)
  {
    hide IsUuid4, NonEmptyText, IsGitRevision, IsSha256, StageExecution.Valid, ArtifactReference.Valid,
         ModelReference.Valid;
  }

  // ---------------------------------------------------------------- finalized uploads

  /** The nine stages of a new attempt, in pipeline order, under their wire names. */
  const PIPELINE := [
    ("ingestion", Ingestion), ("video_validation", VideoValidation), ("detection", Detection), ("tracking", Tracking),
    ("identity_resolution", IdentityResolution), ("pitch_calibration", PitchCalibration), ("metrics", StageName.Metrics),
    ("workload_advisory", WorkloadAdvisory), ("artifact_publication", ArtifactPublication)]

  predicate AllQueued(stages: seq<StageExecution>) {
    && |stages| == 9
    && forall i :: 0 <= i < 9 ==>
         stages[i] == StageExecution(PIPELINE[i].0, PIPELINE[i].1, true, StageQueued, 0.0, 1, None, None, [], None,
                                     map[], None)
  }

  predicate ProfileSpelled(profile: Profile, text: string) {
    match profile
    case DemoFast => text == "demo_fast"
    case V1Compat => text == "v1_compat"
    case TestFail => text == "test_fail"
  }

  /** The first attempt of a finalized upload: its input is the uploaded object, and version and
      parameters name the profile. */
  ghost predicate Uploaded(call: Finalize, run: AnalysisRun) {
    && call.upload.Ok? && AllQueued(run.stages)
    && var upload := call.upload.value;
    && exists text ::
         && ProfileSpelled(call.profile, text)
         && run == AnalysisRun(
              Provenance("footballai.analysis-run/v1", call.logicalId, call.runId, 1, None, call.dataOrigin,
                         InputReference("blob://" + upload.objectReference, upload.sha256, upload.contentType), call.code,
                         text + "/1.0.0", call.parameters[Named("pipeline_profile") := Str(text)], [], call.at),
              Queued, [], run.stages, None, None, None, None, None)
  }

  lemma Visible(a: string, b: string)
    requires a != "" && !IsSpace(a[0])
    ensures NonEmptyText(a + b)
  {
    assert (a + b)[0] == a[0];
  }

  lemma ProfileIs(profile: Profile)
    ensures ProfileSpelled(profile, ProfileText(profile)) && NonEmptyText(ProfileText(profile) + "/1.0.0")
  {
    Visible(ProfileText(profile), "/1.0.0");
  }

  lemma StagesQueued()
    ensures AllQueued(QueuedStages(1))
  {
  }

  /** The nine names are identifiers and distinct. */
  lemma NewStagesValid(sc: Screen)
    ensures forall i :: 0 <= i < 9 ==> QueuedStages(1)[i].Valid(sc)
    ensures UniqueStages(QueuedStages(1)) && LinksKnown(QueuedStages(1), 1, [])
  {
    hide StageKey;
    forall n: StageName ensures IsIdentifier(StageKey(n)) {
      KeyIsIdentifier(n);
    }
    forall i, j | 0 <= i < j < 9
      ensures ALL_STAGES[i] != ALL_STAGES[j] && StageKey(ALL_STAGES[i]) != StageKey(ALL_STAGES[j])
    {
      StagesDiffer(i, j);
      KeysDiffer(ALL_STAGES[i], ALL_STAGES[j]);
    }
  }

  lemma EarlyKeys(n: StageName)
    requires n.Ingestion? || n.VideoValidation? || n.Detection? || n.Tracking?
    ensures IsIdentifier(StageKey(n))
  {
  }

  lemma LateKeys(n: StageName)
    requires n.PitchCalibration? || n.Metrics? || n.WorkloadAdvisory?
    ensures IsIdentifier(StageKey(n))
  {
  }

  lemma LongKeys(n: StageName)
    requires n.IdentityResolution? || n.ArtifactPublication?
    ensures IsIdentifier(StageKey(n))
  {
  }

  lemma KeyIsIdentifier(n: StageName)
    ensures IsIdentifier(StageKey(n))
  {
    hide StageKey, IsIdentifier;
    match n
    case IdentityResolution => LongKeys(n);
    case ArtifactPublication => LongKeys(n);
    case PitchCalibration => LateKeys(n);
    case Metrics => LateKeys(n);
    case WorkloadAdvisory => LateKeys(n);
    case _ => EarlyKeys(n);
  }

  lemma StagesDiffer(i: nat, j: nat)
    requires i < j < 9
    ensures ALL_STAGES[i] != ALL_STAGES[j]
  {
  }

  lemma KeysDiffer(m: StageName, n: StageName)
    requires m != n
    ensures StageKey(m) != StageKey(n)
  {
  }

  /** An upload becomes an attempt exactly if the object was accepted and every part of the provenance
      drawn for it is well formed. */
  lemma UploadIs(sc: Screen, call: Finalize)
    ensures var r := Attempt(sc, call);
            && (r.Ok? <==>
                  && call.upload.Ok? && IsSha256(call.upload.value.sha256) && NonEmptyText(call.upload.value.contentType)
                  && call.code.Valid() && IsUuid4(call.logicalId) && IsUuid4(call.runId))
            && (r.Ok? ==> Uploaded(call, r.value))
            && (r.Err? ==> r.fault == if call.upload.Err? then call.upload.fault else ContractViolation)
  {
    StagesQueued();
    NewStagesValid(sc);
    ProfileIs(call.profile);
    if call.upload.Ok? {
      Visible("blob://", call.upload.value.objectReference);
    }
    hide IsUuid4, NonEmptyText, IsSha256, CodeReference.Valid, ProfileText, ProfileSpelled, StageExecution.Valid,
         QueuedStages, AllQueued, Linked;
    if call.upload.Ok? && Attempt(sc, call).Ok? {
      assert AllQueued(Attempt(sc, call).value.stages);
    }
  }

  /** One finalize stores that attempt and enqueues one job for it, unclaimed and of the call's
      profile, or changes nothing. */
  lemma FinalizeIs(sc: Screen, s: Service, call: Finalize)
    ensures var s' := AfterFinalize(sc, s, call);
            if Attempt(sc, call).Ok? && call.runId !in s.runs then
              && Uploaded(call, Attempt(sc, call).value)
              && s'.runs == s.runs[call.runId := Port.Record(Attempt(sc, call).value, false)]
              && s'.jobs == (if call.enqueueing.Accepted?
                             then s.jobs + [ExecutionJob(call.jobId, call.runId, call.logicalId, 1, call.profile, call.at,
                                                         None, None)]
                             else s.jobs)
            else s' == s
  {
    hide AnalysisRun.Valid, AllQueued, QueuedStages, Attempt;
    UploadIs(sc, call);
  }
}
