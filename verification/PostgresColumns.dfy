/** What a consistent database holds about an attempt, column by column. */
module PostgresColumns {
  import opened Outcomes
  import opened JsonValues
  import opened Contract
  import opened Manifest
  import opened Postgres

  /** The columns repeat the manifest's own fields, and the manifest column reads back as the run. */
  ghost predicate AttemptColumns(sc: Screen, row: AttemptRow, run: AnalysisRun) {
    && row.logicalAnalysisId == run.origin.logicalAnalysisId && row.attemptNumber == run.origin.attemptNumber
    && row.previousAttemptRunId == run.origin.previousAttemptRunId && row.status == run.status
    && row.dataOrigin == run.origin.dataOrigin && row.pipelineVersion == run.origin.pipelineVersion
    && row.contractVersion == run.origin.contractVersion && row.createdAt == run.origin.createdAt
    && row.startedAt == run.startedAt && row.completedAt == run.completedAt
    && FromDict(sc, row.manifest) == Ok(run)
  }

  predicate StageColumns(row: StageRow, stage: StageExecution) {
    && row.stageName == stage.stageName && row.required == stage.required && row.status == stage.status
    && row.progressPercent == stage.progressPercent && row.attemptNumber == stage.attemptNumber
  }

  predicate ArtifactColumns(row: ArtifactRow, a: ArtifactReference) {
    && row.name == a.name && row.category == a.category && row.relativePath == a.relativePath
    && row.mediaType == a.mediaType && row.sha256 == a.sha256 && row.sizeBytes == a.sizeBytes
    && row.schemaVersion == a.schemaVersion
  }

  /** One row per stage under the run's id, and no other. */
  ghost predicate StageRowsHeld(t: map<(string, string), StageRow>, runId: string, stages: seq<StageExecution>) {
    && (forall i :: 0 <= i < |stages| ==>
          (runId, stages[i].stageId) in t && StageColumns(t[(runId, stages[i].stageId)], stages[i]))
    && (forall id :: (runId, id) in t ==> exists i :: 0 <= i < |stages| && stages[i].stageId == id)
  }

  ghost predicate ArtifactRowsHeld(t: map<(string, string), ArtifactRow>, runId: string,
                                   artifacts: seq<ArtifactReference>)
  {
    && (forall i :: 0 <= i < |artifacts| ==>
          (runId, artifacts[i].artifactId) in t && ArtifactColumns(t[(runId, artifacts[i].artifactId)], artifacts[i]))
    && (forall id :: (runId, id) in t ==> exists i :: 0 <= i < |artifacts| && artifacts[i].artifactId == id)
  }

  lemma StageKeyed(stages: seq<StageExecution>, runId: string, t: map<(string, string), StageRow>)
    requires UniqueStages(stages) && OfRun(t, runId) == Rows(runId, StagePairs(stages))
    ensures StageRowsHeld(t, runId, stages)
  {
    var pairs := StagePairs(stages);
    RowsExact(runId, pairs);
    forall i | 0 <= i < |stages|
      ensures (runId, stages[i].stageId) in t && StageColumns(t[(runId, stages[i].stageId)], stages[i])
    {
      assert pairs[i] == (stages[i].stageId, StageRowOf(stages[i]));
      assert (runId, pairs[i].0) in OfRun(t, runId);
    }
    forall id | (runId, id) in t ensures exists i :: 0 <= i < |stages| && stages[i].stageId == id {
      assert (runId, id) in OfRun(t, runId);
      var i :| 0 <= i < |pairs| && pairs[i].0 == id;
      assert stages[i].stageId == id;
    }
  }

  lemma ArtifactKeyed(artifacts: seq<ArtifactReference>, runId: string, t: map<(string, string), ArtifactRow>)
    requires UniqueArtifacts(artifacts) && OfRun(t, runId) == Rows(runId, ArtifactPairs(artifacts))
    ensures ArtifactRowsHeld(t, runId, artifacts)
  {
    var pairs := ArtifactPairs(artifacts);
    RowsExact(runId, pairs);
    forall i | 0 <= i < |artifacts|
      ensures (runId, artifacts[i].artifactId) in t
              && ArtifactColumns(t[(runId, artifacts[i].artifactId)], artifacts[i])
    {
      assert pairs[i] == (artifacts[i].artifactId, ArtifactRowOf(artifacts[i]));
      assert (runId, pairs[i].0) in OfRun(t, runId);
    }
    forall id | (runId, id) in t ensures exists i :: 0 <= i < |artifacts| && artifacts[i].artifactId == id {
      assert (runId, id) in OfRun(t, runId);
      var i :| 0 <= i < |pairs| && pairs[i].0 == id;
      assert artifacts[i].artifactId == id;
    }
  }

  /** In a consistent database an attempt's row repeats its manifest, which parses to the attempt; it has
      one stage row per stage and one artifact row per artifact, each with the columns of its record,
      and no others. */
  lemma RowsHoldManifest(sc: Screen, t: Tables, runs: map<string, AnalysisRun>, runId: string)
    requires Consistent(sc, t, runs) && runId in runs
    ensures runId in t.attempts && AttemptColumns(sc, t.attempts[runId], runs[runId])
    ensures StageRowsHeld(t.stageExecutions, runId, runs[runId].stages)
    ensures ArtifactRowsHeld(t.artifactMetadata, runId, runs[runId].artifacts)
  {
    hide PairsUnique, NoOrphans, AuditTells, ToDict, FromDict, StageRowsHeld, ArtifactRowsHeld, OfRun, Rows, StagePairs,
         ArtifactPairs, AnalysisRun.ComponentsValid, AnalysisRun.LifecycleOk;
    var run := runs[runId];
    assert Agrees(sc, t, runId, run);
    RunRoundTrip(sc, run);
    StageKeyed(run.stages, runId, t.stageExecutions);
    ArtifactKeyed(run.artifacts, runId, t.artifactMetadata);
  }

  /** One write: the row at its version with its flag, one event in the run's name at the end of the log,
      and no other row touched. */
  lemma WriteIs(t: Tables, run: AnalysisRun, version: int, cancelRequested: bool, kind: AuditKind, at: Instant)
    ensures var after := Written(t, run, version, cancelRequested, kind, at);
            && run.RunId() in after.attempts
            && after.attempts[run.RunId()].version == version
            && after.attempts[run.RunId()].cancelRequested == cancelRequested
            && (forall id :: id != run.RunId() ==>
                  (id in after.attempts <==> id in t.attempts)
                  && (id in t.attempts ==> after.attempts[id] == t.attempts[id]))
            && (forall other :: other != run.RunId() ==>
                  && OfRun(after.stageExecutions, other) == OfRun(t.stageExecutions, other)
                  && OfRun(after.artifactMetadata, other) == OfRun(t.artifactMetadata, other))
            && after.logicalAnalyses == t.logicalAnalyses
            && after.auditEvents == t.auditEvents + [AuditEvent(run.origin.logicalAnalysisId, run.origin.runId,
                                                                run.origin.attemptNumber, kind, at)]
  {
    hide ToDict, OfRun, Rows, Replaced, StagePairs, ArtifactPairs;
    ReplacedOnly(t.stageExecutions, run.RunId(), StagePairs(run.stages));
    ReplacedOnly(t.artifactMetadata, run.RunId(), ArtifactPairs(run.artifacts));
  }

  /** A new logical analysis is recorded with the origin and time of its first attempt, and never
      changed. */
  lemma LogicalIs(t: Tables, run: AnalysisRun)
    ensures var id, after := run.origin.logicalAnalysisId, WithLogical(t, run);
            && after == t.(logicalAnalyses := after.logicalAnalyses)
            && after.logicalAnalyses.Keys == t.logicalAnalyses.Keys + {id}
            && (forall other :: other in t.logicalAnalyses ==> after.logicalAnalyses[other] == t.logicalAnalyses[other])
            && (id !in t.logicalAnalyses ==> after.logicalAnalyses[id] == (run.origin.dataOrigin, run.origin.createdAt))
  {
  }
}
