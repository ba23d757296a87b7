/** The records `execute` builds are contract-valid: what each transition needs of the stored
    manifest, of the clock and of the texts it writes. */
module RecordValidity {
  import opened Outcomes
  import opened JsonValues
  import opened Contract
  import opened ExecutorMachine

  /** The executor's own texts and the adapter's failure texts pass the screens, and an adapter
      never returns two documents with one id (they are the keys of a dictionary). */
  ghost predicate GoodConfig(cfg: Config) {
    && (forall t: OwnText :: !cfg.screen.unsafeText(TextOf(t)))
    && !cfg.screen.sensitiveKey(Named("stage"))
    && (forall n :: !cfg.screen.unsafeText(StageTitle(n) + " in progress"))
    && (forall n :: !cfg.screen.unsafeText(StageTitle(n) + " completed"))
    && (forall n :: !cfg.screen.unsafeText(StageKey(n)))
    && (forall p, o, b, f :: GoodBuild(cfg, cfg.build(p, o, b, f)))
  }

  /** The fixed texts `execute` writes into records. */
  datatype OwnText =
    | QueuedCancelText | CancelText | CancelStageText | SkipText | PartialText | PartialStageText
    | FailedText | TestFailText | IntegrityText | IngestionText

  function TextOf(t: OwnText): string {
    match t
    case QueuedCancelText => QUEUED_CANCEL_REASON
    case CancelText => CANCEL_REASON
    case CancelStageText => CANCEL_STAGE_MESSAGE
    case SkipText => SKIP_MESSAGE
    case PartialText => PARTIAL_REASON
    case PartialStageText => PARTIAL_STAGE_MESSAGE
    case FailedText => FAILED_MESSAGE
    case TestFailText => TEST_FAIL.message
    case IntegrityText => INTEGRITY_FAIL.message
    case IngestionText => "ingestion"
  }

  lemma EndsVisibly(t: OwnText)
    ensures |TextOf(t)| > 0 && !IsSpace(TextOf(t)[|TextOf(t)| - 1])
  {
  }

  lemma TitlesStartWithLetter(n: StageName)
    ensures |StageTitle(n)| > 0 && !IsSpace(StageTitle(n)[0])
  {
  }

  /** What a good configuration lets `execute` write. */
  lemma OwnTextSafe(cfg: Config, t: OwnText)
    requires GoodConfig(cfg)
    ensures SafeText(cfg.screen, TextOf(t)) && !cfg.screen.unsafeText(TextOf(t))
  {
    EndsVisibly(t);
    hide TextOf;
  }

  lemma ProgressSafe(cfg: Config, n: StageName)
    requires GoodConfig(cfg)
    ensures SafeText(cfg.screen, StageTitle(n) + " in progress")
    ensures SafeText(cfg.screen, StageTitle(n) + " completed")
  {
    TitlesStartWithLetter(n);
    hide StageTitle;
    assert !IsSpace((StageTitle(n) + " in progress")[0]) && !IsSpace((StageTitle(n) + " completed")[0]);
  }

  ghost predicate GoodBuild(cfg: Config, b: BuildResult) {
    match b
    case Built(payloads) => forall i, j :: 0 <= i < j < |payloads| ==> payloads[i].artifactId != payloads[j].artifactId
    case BuildFailed(code, message) => IsIdentifier(code) && SafeText(cfg.screen, message)
    case BuildCancelled => true
  }

  lemma FixedCodes()
    ensures IsIdentifier(FAILED_CODE) && IsIdentifier(TEST_FAIL.code) && IsIdentifier(INTEGRITY_FAIL.code)
  {
  }

  /** Every instant the record holds lies in the past. */
  ghost predicate Stamped(m: AnalysisRun, clock: Instant) {
    && m.origin.createdAt <= clock
    && (m.startedAt.Some? ==> m.startedAt.value <= clock)
    && (forall i :: 0 <= i < |m.stages| && m.stages[i].startedAt.Some? ==> m.stages[i].startedAt.value <= clock)
  }

  ghost predicate StoredOk(cfg: Config, m: AnalysisRun, runId: string, clock: Instant) {
    m.Valid(cfg.screen) && m.RunId() == runId && (m.status.IsTerminal() || Stamped(m, clock))
  }

  /** Same stage, new progress. */
  ghost predicate SameStage(a: StageExecution, b: StageExecution) {
    a.stageId == b.stageId && a.stageName == b.stageName && a.required == b.required
    && a.attemptNumber == b.attemptNumber && a.producedArtifactIds == b.producedArtifactIds
  }

  lemma SkippedValid(cfg: Config, stage: StageExecution, at: Instant)
    requires GoodConfig(cfg) && stage.Valid(cfg.screen) && (stage.startedAt.Some? ==> stage.startedAt.value <= at)
    ensures SkippedStage(stage, at).Valid(cfg.screen)
  {
    OwnTextSafe(cfg, SkipText);
    hide GoodConfig;
  }

  lemma RunningValid(cfg: Config, stage: StageExecution, at: Instant)
    requires GoodConfig(cfg) && stage.Valid(cfg.screen)
    ensures RunningStage(stage, at).Valid(cfg.screen)
  {
    ProgressSafe(cfg, stage.stageName);
    hide GoodConfig, StageTitle;
  }

  lemma FinishedValid(cfg: Config, stage: StageExecution, at: Instant, metrics: map<Key, Json>)
    requires GoodConfig(cfg) && stage.Valid(cfg.screen) && (stage.startedAt.Some? ==> stage.startedAt.value <= at)
    ensures FinishedStage(stage, at, metrics).Valid(cfg.screen)
  {
    ProgressSafe(cfg, stage.stageName);
    hide GoodConfig, StageTitle;
  }

  lemma CancelledValid(cfg: Config, stage: StageExecution, at: Instant)
    requires GoodConfig(cfg) && stage.Valid(cfg.screen) && (stage.startedAt.Some? ==> stage.startedAt.value <= at)
    ensures CancelledStage(stage, at).Valid(cfg.screen)
  {
    OwnTextSafe(cfg, CancelStageText);
    hide GoodConfig;
  }

  lemma FailedValid(cfg: Config, stage: StageExecution, at: Instant, error: StructuredError)
    requires stage.Valid(cfg.screen) && (stage.startedAt.Some? ==> stage.startedAt.value <= at)
    requires error.Valid(cfg.screen)
    ensures FailedStage(stage, at, error).Valid(cfg.screen)
  {
  }

  lemma PartialValid(cfg: Config, stage: StageExecution)
    requires GoodConfig(cfg) && stage.Valid(cfg.screen) && StageDone(stage)
    ensures PartialStage(stage).Valid(cfg.screen)
  {
    OwnTextSafe(cfg, PartialStageText);
    hide GoodConfig;
  }

  /** Replacing one stage of a valid record keeps everything but the lifecycle clause. */
  lemma ReplaceStage(sc: Screen, stages: seq<StageExecution>, i: nat, stage: StageExecution, attempt: int,
                     artifacts: seq<ArtifactReference>)
    requires i < |stages| && stage.Valid(sc) && SameStage(stages[i], stage)
    requires (forall k :: 0 <= k < |stages| ==> stages[k].Valid(sc)) && UniqueStages(stages)
    requires LinksKnown(stages, attempt, artifacts)
    ensures var stages' := stages[i := stage];
            && (forall k :: 0 <= k < |stages'| ==> stages'[k].Valid(sc))
            && UniqueStages(stages') && LinksKnown(stages', attempt, artifacts)
  {
    hide StageExecution.Valid;
    assert Linked(stages[i], attempt, artifacts);
    assert Linked(stage, attempt, artifacts);
  }

  /** A running record with one stage replaced is valid again. */
  lemma WithStageValid(cfg: Config, m: AnalysisRun, i: nat, stage: StageExecution)
    requires m.Valid(cfg.screen) && m.status.Running?
    requires i < |m.stages| && stage.Valid(cfg.screen) && SameStage(m.stages[i], stage)
    ensures m.WithStages(cfg.screen, m.stages[i := stage]) == Ok(m.(stages := m.stages[i := stage]))
  {
    hide StageExecution.Valid;
    ReplaceStage(cfg.screen, m.stages, i, stage, m.origin.attemptNumber, m.artifacts);
  }

  lemma StartValid(cfg: Config, m: AnalysisRun, at: Instant)
    requires m.Valid(cfg.screen) && m.status.Queued? && m.origin.createdAt <= at
    ensures m.Start(cfg.screen, at, m.stages) == Ok(m.(status := Running, startedAt := Some(at)))
  {
    hide StageExecution.Valid;
  }

  /** Links stay known when artifacts appear: a running record has none to link to. */
  lemma NoLinks(m: AnalysisRun, sc: Screen)
    requires m.Valid(sc) && m.artifacts == []
    ensures forall i :: 0 <= i < |m.stages| ==> m.stages[i].producedArtifactIds == []
  {
    hide StageExecution.Valid;
    forall i | 0 <= i < |m.stages| ensures m.stages[i].producedArtifactIds == [] {
      assert Linked(m.stages[i], m.origin.attemptNumber, m.artifacts);
      var ids := m.stages[i].producedArtifactIds;
      assert |ids| > 0 ==> KnownArtifact(m.artifacts, ids[0]);
      assert forall id :: !KnownArtifact(m.artifacts, id);
    }
  }

  lemma LinksWithArtifacts(m: AnalysisRun, sc: Screen, stages: seq<StageExecution>, refs: seq<ArtifactReference>)
    requires m.Valid(sc) && m.artifacts == []
    requires |stages| == |m.stages| && forall i :: 0 <= i < |stages| ==> SameStage(m.stages[i], stages[i])
    ensures LinksKnown(stages, m.origin.attemptNumber, refs)
  {
    hide StageExecution.Valid;
    NoLinks(m, sc);
    forall i | 0 <= i < |stages| ensures Linked(stages[i], m.origin.attemptNumber, refs) {
      assert Linked(m.stages[i], m.origin.attemptNumber, m.artifacts);
    }
  }

  /** The stages after a handler replaced the one it was running, if any. */
  ghost predicate Settled(before: seq<StageExecution>, after: seq<StageExecution>, sc: Screen) {
    && |after| == |before|
    && (forall i :: 0 <= i < |after| ==> after[i].Valid(sc) && SameStage(before[i], after[i]))
    && NoStage(after, StageRunning)
  }

  lemma SettledUnique(before: seq<StageExecution>, after: seq<StageExecution>, sc: Screen)
    requires Settled(before, after, sc) && UniqueStages(before)
    ensures UniqueStages(after)
  {
    hide StageExecution.Valid;
  }

  lemma CancelValid(cfg: Config, m: AnalysisRun, at: Instant, reason: string, stages: seq<StageExecution>)
    requires m.Valid(cfg.screen) && m.status in {Queued, Running} && Stamped(m, at)
    requires SafeText(cfg.screen, reason) && Settled(m.stages, stages, cfg.screen)
    ensures m.Cancel(cfg.screen, at, Some(reason), stages)
         == Ok(m.(status := Cancelled, cancellationReason := Some(reason), stages := stages, completedAt := Some(at)))
  {
    hide StageExecution.Valid;
    SettledUnique(m.stages, stages, cfg.screen);
    LinksWithArtifacts(m, cfg.screen, stages, []);
  }

  lemma FailValid(cfg: Config, m: AnalysisRun, at: Instant, error: StructuredError, stages: seq<StageExecution>)
    requires m.Valid(cfg.screen) && m.status in {Queued, Running} && Stamped(m, at)
    requires error.Valid(cfg.screen) && Settled(m.stages, stages, cfg.screen)
    ensures m.Fail(cfg.screen, at, error, stages)
         == Ok(m.(status := Failed, failure := Some(error), stages := stages, completedAt := Some(at)))
  {
    hide StageExecution.Valid;
    SettledUnique(m.stages, stages, cfg.screen);
    LinksWithArtifacts(m, cfg.screen, stages, []);
  }

  ghost predicate RefsOk(refs: seq<ArtifactReference>) {
    refs != [] && UniqueArtifacts(refs) && forall i :: 0 <= i < |refs| ==> refs[i].Valid()
  }

  /** All stages done, the skipped ones optional. */
  ghost predicate AllDone(stages: seq<StageExecution>) {
    forall i :: 0 <= i < |stages| ==> StageDone(stages[i]) && (stages[i].status.StageSkipped? ==> !stages[i].required)
  }

  lemma SucceedValid(cfg: Config, m: AnalysisRun, at: Instant, refs: seq<ArtifactReference>)
    requires m.Valid(cfg.screen) && m.status.Running? && Stamped(m, at) && RefsOk(refs)
    requires AllDone(m.stages) && m.stages != []
    ensures m.Succeed(cfg.screen, at, refs, m.stages)
         == Ok(m.(status := Succeeded, artifacts := refs, completedAt := Some(at)))
  {
    hide StageExecution.Valid, ArtifactReference.Valid;
    LinksWithArtifacts(m, cfg.screen, m.stages, refs);
  }

  lemma CompletePartialValid(cfg: Config, m: AnalysisRun, at: Instant, refs: seq<ArtifactReference>)
    requires GoodConfig(cfg) && m.Valid(cfg.screen) && m.status.Running? && Stamped(m, at) && RefsOk(refs)
    requires AllDone(m.stages) && m.stages != []
    ensures var last := |m.stages| - 1;
            var stages := m.stages[last := PartialStage(m.stages[last])];
            m.CompletePartial(cfg.screen, at, refs, PARTIAL_REASON, stages)
            == if m.stages[last].required
               then Ok(m.(status := Partial, artifacts := refs, partialReason := Some(PARTIAL_REASON),
                          stages := stages, completedAt := Some(at)))
               else Err(ContractViolation)
  {
    hide StageExecution.Valid, ArtifactReference.Valid;
    var last := |m.stages| - 1;
    var stages := m.stages[last := PartialStage(m.stages[last])];
    PartialValid(cfg, m.stages[last]);
    ReplaceStage(cfg.screen, m.stages, last, stages[last], m.origin.attemptNumber, []);
    LinksWithArtifacts(m, cfg.screen, stages, refs);
    assert NoActiveStage(stages);
    OwnTextSafe(cfg, PartialText);
    if m.stages[last].required {
      assert stages[last].required && stages[last].status.StagePartial?;
      assert IncompleteMandatory(stages);
    }
  }
}
