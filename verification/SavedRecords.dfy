/** What an execution writes into the manifest: every change of the stored record, spelled out. */
module SavedRecords {
  import opened Outcomes
  import opened JsonValues
  import opened Contract
  import opened Jobs
  import opened ObjectStorage
  import opened ExecutorMachine
  import opened RecordValidity
  import opened ExecutionInvariant
  import Port = RepositoryPort

  // ---------------------------------------------------------------- stage records

  /** A stage's wire name and its title. */
  predicate Called(n: StageName, key: string, title: string) {
    match n
    case Ingestion => key == "ingestion" && title == "Ingestion"
    case VideoValidation => key == "video_validation" && title == "Video Validation"
    case Detection => key == "detection" && title == "Detection"
    case Tracking => key == "tracking" && title == "Tracking"
    case IdentityResolution => key == "identity_resolution" && title == "Identity Resolution"
    case PitchCalibration => key == "pitch_calibration" && title == "Pitch Calibration"
    case Metrics => key == "metrics" && title == "Metrics"
    case WorkloadAdvisory => key == "workload_advisory" && title == "Workload Advisory"
    case ArtifactPublication => key == "artifact_publication" && title == "Artifact Publication"
  }

  /** An optional stage of the compatible profile is skipped. */
  predicate SkippedFrom(job: ExecutionJob, old_: StageExecution, new_: StageExecution, at: Instant) {
    && job.profile.V1Compat? && !old_.required && old_.status in {StageQueued, StageRunning}
    && new_ == old_.(status := StageSkipped, finishedAt := Some(at),
                     message := Some("Unsupported by the V1-compatible algorithm family"))
  }

  /** A stage starts, or starts again after a crash: at ten percent, keeping its first start. */
  predicate StartedFrom(old_: StageExecution, new_: StageExecution, at: Instant, title: string) {
    && old_.status in {StageQueued, StageRunning}
    && new_ == old_.(status := StageRunning, progressPercent := 10.0,
                     startedAt := if old_.startedAt.None? then Some(at) else old_.startedAt,
                     finishedAt := None, error := None, message := Some(title + " in progress"))
  }

  /** A running stage ends well, with the worker's metrics. */
  predicate FinishedFrom(cfg: Config, job: ExecutionJob, worker: string, old_: StageExecution, new_: StageExecution,
                         at: Instant, title: string)
  {
    && old_.status == StageRunning
    && new_ == old_.(status := StageSucceeded, progressPercent := 100.0, finishedAt := Some(at),
                     performanceMetrics := cfg.metrics(job, worker, old_.stageName),
                     message := Some(title + " completed"))
  }

  /** Stage `i` alone changed, in one of those ways. */
  ghost predicate StageChanged(cfg: Config, job: ExecutionJob, worker: string, m: AnalysisRun, m': AnalysisRun,
                               at: Instant, i: nat)
  {
    && m.status.Running? && i < |m.stages| == |m'.stages|
    && m' == m.(stages := m.stages[i := m'.stages[i]])
    && exists key, title ::
         && Called(m.stages[i].stageName, key, title)
         && (|| SkippedFrom(job, m.stages[i], m'.stages[i], at)
             || StartedFrom(m.stages[i], m'.stages[i], at, title)
             || FinishedFrom(cfg, job, worker, m.stages[i], m'.stages[i], at, title))
  }

  // ---------------------------------------------------------------- run records

  /** The run ends with its artifacts: succeeded with its stages as they are, or, where the parameters
      force it, partial with its last stage marked so. */
  predicate ConcludedFrom(m: AnalysisRun, m': AnalysisRun, at: Instant) {
    && m.status.Running?
    && if Named("force_partial") in m.origin.parameters && m.origin.parameters[Named("force_partial")] == Bool(true) then
         && m.stages != []
         && var last := |m.stages| - 1;
         && m' == m.(status := Partial, artifacts := m'.artifacts, completedAt := Some(at),
                     partialReason := Some("Controlled partial completion with useful artifacts."),
                     stages := m.stages[last := m.stages[last].(
                       status := StagePartial, progressPercent := 80.0,
                       message := Some("Useful artifacts published before a controlled partial stop"))])
       else m' == m.(status := Succeeded, artifacts := m'.artifacts, completedAt := Some(at))
  }

  /** The stages, with the running one, if any, replaced. */
  ghost predicate RunningReplaced(stages: seq<StageExecution>, stages': seq<StageExecution>,
                                  as_: StageExecution -> StageExecution)
  {
    && |stages'| == |stages|
    && forall i :: 0 <= i < |stages| ==> stages'[i] == if stages[i].status == StageRunning then as_(stages[i]) else stages[i]
  }

  ghost predicate CancelledFrom(m: AnalysisRun, m': AnalysisRun, at: Instant) {
    && m.status.Running?
    && m' == m.(status := Cancelled, completedAt := Some(at), stages := m'.stages,
                cancellationReason := Some("Cancellation requested by user."))
    && RunningReplaced(m.stages, m'.stages, (s: StageExecution) =>
         s.(status := StageCancelled, finishedAt := Some(at), message := Some("Cancelled at a safe checkpoint")))
  }

  /** Why an execution fails: the test profile, a failed integrity check, the pipeline's own error, or
      anything else. */
  ghost predicate Cause(cfg: Config, job: ExecutionJob, origin: Provenance, code: string, message: string) {
    || (job.profile.TestFail? && job.attemptNumber == 1
        && code == "test_stage_failure" && message == "The test profile stopped at detection.")
    || (code == "artifact_integrity_failed" && message == "A generated artifact failed integrity verification.")
    || (code == "execution_failed" && message == "Analysis execution failed safely.")
    || exists input: Bytes, flag: bool :: cfg.build(job.profile, origin, input, flag) == BuildFailed(code, message)
  }

  ghost predicate FailedWith(m: AnalysisRun, m': AnalysisRun, at: Instant, code: string, message: string, place: string) {
    && m' == m.(status := Failed, completedAt := Some(at), stages := m'.stages,
                failure := Some(StructuredError(code, message, true, at, Some(map[Named("stage") := Str(place)]))))
    && RunningReplaced(m.stages, m'.stages, (s: StageExecution) =>
         s.(status := StageFailed, finishedAt := Some(at), message := Some(message),
            error := Some(StructuredError(code, message, true, at, None))))
  }

  ghost predicate FailedFrom(cfg: Config, job: ExecutionJob, m: AnalysisRun, m': AnalysisRun, at: Instant) {
    && m.status.Running?
    && exists code, message, place ::
         && Cause(cfg, job, m.origin, code, message) && FailedWith(m, m', at, code, message, place)
         && (place == "ingestion" || exists i: nat, title :: i < |m.stages| && Called(m.stages[i].stageName, place, title))
  }

  /** All the changes there are. */
  ghost predicate SavedAt(cfg: Config, job: ExecutionJob, worker: string, m: AnalysisRun, m': AnalysisRun, at: Instant) {
    || m' == m
    || (m.status.Queued? && m' == m.(status := Running, startedAt := Some(at)))
    || (m.status.Queued? && m' == m.(status := Cancelled, completedAt := Some(at),
                                     cancellationReason := Some("Cancelled before execution.")))
    || (exists i :: StageChanged(cfg, job, worker, m, m', at, i))
    || ConcludedFrom(m, m', at)
    || CancelledFrom(m, m', at)
    || FailedFrom(cfg, job, m, m', at)
  }

  ghost predicate Saved(cfg: Config, job: ExecutionJob, worker: string, s: Shared, s': Shared)
    requires job.runId in s.runs && job.runId in s'.runs
  {
    exists at: Instant :: at <= s'.clock && SavedAt(cfg, job, worker, Stored(job, s), Stored(job, s'), at)
  }

  // ---------------------------------------------------------------- records built and not yet saved

  /** What the executor holds is a change of the stored record, built by now. */
  ghost predicate Prepared(cfg: Config, job: ExecutionJob, pc: Pc, m: AnalysisRun, now: Instant) {
    match pc
    case InTry(_, SaveFinal(final)) => exists at: Instant :: at <= now && ConcludedFrom(m, final, at)
    case SaveCancel(c) => exists at: Instant :: at <= now && CancelledFrom(m, c, at)
    case LoadForFail(_, code, message) => Cause(cfg, job, m.origin, code, message)
    case SaveFail(f) => exists at: Instant :: at <= now && FailedFrom(cfg, job, m, f, at)
    case _ => true
  }

  lemma OneReplaced(stages: seq<StageExecution>, active: int, as_: StageExecution -> StageExecution)
    requires -1 <= active < |stages|
    requires forall j :: 0 <= j < |stages| && stages[j].status.StageRunning? ==> j == active
    ensures RunningReplaced(stages, if active >= 0 && stages[active].status.StageRunning?
                                    then stages[active := as_(stages[active])] else stages, as_)
  {
  }

  lemma CancelPrepared(cfg: Config, job: ExecutionJob, m: AnalysisRun, active: int, at: Instant)
    requires m.status.Running? && ActiveOk(job, m.stages, active)
    ensures CancelRecord(cfg, m, active, at).Ok? ==> CancelledFrom(m, CancelRecord(cfg, m, active, at).value, at)
  {
    hide AnalysisRun.Valid, Shaped;
    OneReplaced(m.stages, active, (s: StageExecution) =>
      s.(status := StageCancelled, finishedAt := Some(at), message := Some("Cancelled at a safe checkpoint")));
  }

  lemma FailPrepared(cfg: Config, job: ExecutionJob, m: AnalysisRun, active: int, code: string, message: string,
                     at: Instant)
    requires m.status.Running? && ActiveOk(job, m.stages, active) && Cause(cfg, job, m.origin, code, message)
    ensures FailRecord(cfg, m, active, code, message, at).Ok? ==>
              FailedFrom(cfg, job, m, FailRecord(cfg, m, active, code, message, at).value, at)
  {
    hide AnalysisRun.Valid, Shaped, Cause, StageKey;
    var f := FailRecord(cfg, m, active, code, message, at);
    OneReplaced(m.stages, active, (s: StageExecution) =>
      s.(status := StageFailed, finishedAt := Some(at), message := Some(message),
         error := Some(StructuredError(code, message, true, at, None))));
    if f.Ok? {
      var place := if active >= 0 then StageKey(m.stages[active].stageName) else "ingestion";
      assert FailedWith(m, f.value, at, code, message, place);
      if active >= 0 {
        KeysAndTitles(m.stages[active].stageName);
      }
    }
  }

  lemma KeysAndTitles(n: StageName)
    ensures Called(n, StageKey(n), StageTitle(n))
  {
  }

  lemma FinalPrepared(cfg: Config, m: AnalysisRun, refs: seq<ArtifactReference>, at: Instant)
    requires m.status.Running?
    ensures FinalRecord(cfg, m, refs, at).Ok? ==> ConcludedFrom(m, FinalRecord(cfg, m, refs, at).value, at)
  {
    hide AnalysisRun.Valid;
  }

  // ---------------------------------------------------------------- each access

  /** Anything but an execution failure of its own is reported as the safe failure. */
  lemma SafeFailure(cfg: Config, job: ExecutionJob, active: int, fault: Fault, m: AnalysisRun, now: Instant)
    requires fault.ExecutionFailure? ==> Cause(cfg, job, m.origin, fault.code, fault.message)
    ensures Prepared(cfg, job, FailWith(active, fault), m, now)
  {
  }

  lemma AtPublishPrepared(cfg: Config, job: ExecutionJob, l: Locals, k: nat, m: AnalysisRun, now: Instant)
    ensures Prepared(cfg, job, AtPublish(cfg, l, k), m, now)
  {
    hide Plan, Cause;
    if l.payloads.Some? {
      var plan := Plan(cfg, l.payloads.value);
      if k < |plan| && plan[k].Raise? {
        PlanFaults(cfg, l.payloads.value, k);
        SafeFailure(cfg, job, l.active, plan[k].fault, m, now);
      }
    }
  }

  lemma {:induction false} AtStagePrepared(cfg: Config, job: ExecutionJob, l: Locals, i: nat, m: AnalysisRun, now: Instant)
    ensures Prepared(cfg, job, AtStage(cfg, job, l, i), m, now)
    decreases |l.run.stages| - i
  {
    hide Prepared, AtPublish;
    if i >= |l.run.stages| {
      AtPublishPrepared(cfg, job, l, 0, m, now);
    } else if StageDone(l.run.stages[i]) {
      AtStagePrepared(cfg, job, l.(active := i), i + 1, m, now);
    } else {
      NothingPrepared(cfg, job, l.(active := i), SaveSkip(i), m, now);
      NothingPrepared(cfg, job, l.(active := i), CheckBefore(i), m, now);
    }
  }

  lemma NothingPrepared(cfg: Config, job: ExecutionJob, l: Locals, point: TryPoint, m: AnalysisRun, now: Instant)
    requires !point.SaveFinal?
    ensures Prepared(cfg, job, InTry(l, point), m, now)
  {
  }

  lemma EnterPrepared(cfg: Config, job: ExecutionJob, run: AnalysisRun, m: AnalysisRun, now: Instant)
    ensures Prepared(cfg, job, EnterTry(cfg, job, run), m, now)
  {
    hide Duration, AtStage;
    AtStagePrepared(cfg, job, Locals(run, -1, None, []), 0, m, now);
  }

  /** A save stores the record, or is refused and stores nothing. */
  lemma SavingStores(job: ExecutionJob, s: Shared, run: AnalysisRun, next: Pc, refused: Fault -> Pc)
    requires job.runId in s.runs && run.RunId() == job.runId
    ensures var (pc, s') := Saving(s, run, next, refused);
            && job.runId in s'.runs && s'.clock == s.clock
            && ((pc == next && Stored(job, s') == run)
                || (s' == s && exists fault: Fault :: !fault.ExecutionFailure? && pc == refused(fault)))
  {
    var saved := Port.Save(s.runs, run);
    if saved.Err? {
      assert !saved.fault.ExecutionFailure?;
    }
  }

  lemma StageStores(cfg: Config, job: ExecutionJob, s: Shared, l: Locals, i: nat, stage: StageExecution, next: Locals -> Pc)
    requires job.runId in s.runs && l.run.RunId() == job.runId && i < |l.run.stages|
    ensures var (pc, s') := SavingStage(cfg, s, l, i, stage, next);
            var run := l.run.(stages := l.run.stages[i := stage]);
            && job.runId in s'.runs && s'.clock == s.clock
            && ((pc == next(l.(run := run)) && Stored(job, s') == run)
                || (s' == s && exists fault: Fault :: !fault.ExecutionFailure? && pc == FailWith(l.active, fault)))
  {
    hide AnalysisRun.Valid, Port.Save, FailWith, Saving;
    var run := l.run.WithStages(cfg.screen, l.run.stages[i := stage]);
    if run.Ok? {
      SavingStores(job, s, run.value, next(l.(run := run.value)), f => FailWith(l.active, f));
    } else {
      assert !run.fault.ExecutionFailure?;
    }
  }

  lemma SameSaved(cfg: Config, job: ExecutionJob, worker: string, s: Shared, s': Shared)
    requires job.runId in s.runs && job.runId in s'.runs && Stored(job, s') == Stored(job, s)
    ensures Saved(cfg, job, worker, s, s')
  {
    assert SavedAt(cfg, job, worker, Stored(job, s), Stored(job, s'), s'.clock);
  }

  /** One access saves one of the changes listed above, or nothing, and what it prepares to save is one
      of them too. */
  ghost predicate StepSound(cfg: Config, job: ExecutionJob, worker: string, s: Shared, pc': Pc, s': Shared) {
    && job.runId in s.runs && job.runId in s'.runs
    && Saved(cfg, job, worker, s, s') && Prepared(cfg, job, pc', Stored(job, s'), s'.clock)
  }

  ghost predicate StageForm(cfg: Config, job: ExecutionJob, worker: string, old_: StageExecution, new_: StageExecution,
                            at: Instant)
  {
    exists key, title ::
      && Called(old_.stageName, key, title)
      && (|| SkippedFrom(job, old_, new_, at) || StartedFrom(old_, new_, at, title)
          || FinishedFrom(cfg, job, worker, old_, new_, at, title))
  }

  lemma StageSound(cfg: Config, job: ExecutionJob, worker: string, s: Shared, l: Locals, i: nat, stage: StageExecution,
                   next: Locals -> Pc)
    requires job.runId in s.runs && Stored(job, s) == l.run && l.run.RunId() == job.runId && l.run.status.Running?
    requires i < |l.run.stages| && StageForm(cfg, job, worker, l.run.stages[i], stage, s.clock)
    requires var run := l.run.(stages := l.run.stages[i := stage]);
             Prepared(cfg, job, next(l.(run := run)), run, s.clock)
    ensures var (pc', s') := SavingStage(cfg, s, l, i, stage, next); StepSound(cfg, job, worker, s, pc', s')
  {
    hide Cause, SavingStage, Called, SkippedFrom, StartedFrom, FinishedFrom;
    StageStores(cfg, job, s, l, i, stage, next);
    var (pc', s') := SavingStage(cfg, s, l, i, stage, next);
    var run := l.run.(stages := l.run.stages[i := stage]);
    if Stored(job, s') == run && pc' == next(l.(run := run)) {
      assert run == l.run.(stages := l.run.stages[i := run.stages[i]]);
      assert StageChanged(cfg, job, worker, l.run, run, s.clock, i);
      assert SavedAt(cfg, job, worker, l.run, run, s.clock);
    } else {
      SameSaved(cfg, job, worker, s, s');
      var fault: Fault :| !fault.ExecutionFailure? && pc' == FailWith(l.active, fault);
      SafeFailure(cfg, job, l.active, fault, l.run, s.clock);
    }
  }

  lemma SkipSound(cfg: Config, job: ExecutionJob, worker: string, l: Locals, i: nat, s: Shared)
    requires PcOk(cfg, InTry(l, SaveSkip(i))) && Inv(cfg, job, InTry(l, SaveSkip(i)), s)
    ensures var (pc', s') := TryNext(cfg, job, worker, l, SaveSkip(i), s); StepSound(cfg, job, worker, s, pc', s')
  {
    hide AnalysisRun.Valid, StepSound, AtStage, SavingStage, Stamped, Called, Prepared;
    var old_, stage := l.run.stages[i], SkippedStage(l.run.stages[i], s.clock);
    AtShape(job, l.run.stages, i);
    KeysAndTitles(old_.stageName);
    assert StageForm(cfg, job, worker, old_, stage, s.clock);
    var run := l.run.(stages := l.run.stages[i := stage]);
    AtStagePrepared(cfg, job, l.(run := run), i + 1, run, s.clock);
    StageSound(cfg, job, worker, s, l, i, stage, l' => AtStage(cfg, job, l', i + 1));
  }

  lemma FinishSound(cfg: Config, job: ExecutionJob, worker: string, l: Locals, i: nat, s: Shared)
    requires PcOk(cfg, InTry(l, SaveFinished(i))) && Inv(cfg, job, InTry(l, SaveFinished(i)), s)
    ensures var (pc', s') := TryNext(cfg, job, worker, l, SaveFinished(i), s); StepSound(cfg, job, worker, s, pc', s')
  {
    hide AnalysisRun.Valid, StepSound, AtStage, SavingStage, Stamped, Called, Prepared, StageTitle;
    var old_ := l.run.stages[i];
    var stage := FinishedStage(old_, s.clock, cfg.metrics(job, worker, old_.stageName));
    KeysAndTitles(old_.stageName);
    assert StageForm(cfg, job, worker, old_, stage, s.clock);
    var run := l.run.(stages := l.run.stages[i := stage]);
    AtStagePrepared(cfg, job, l.(run := run), i + 1, run, s.clock);
    StageSound(cfg, job, worker, s, l, i, stage, l' => AtStage(cfg, job, l', i + 1));
  }

  lemma StartSound(cfg: Config, job: ExecutionJob, worker: string, l: Locals, i: nat, s: Shared)
    requires PcOk(cfg, InTry(l, SaveRunning(i))) && Inv(cfg, job, InTry(l, SaveRunning(i)), s)
    ensures var (pc', s') := TryNext(cfg, job, worker, l, SaveRunning(i), s); StepSound(cfg, job, worker, s, pc', s')
  {
    hide AnalysisRun.Valid, StepSound, SavingStage, Stamped, Called, StageTitle;
    var old_, stage := l.run.stages[i], RunningStage(l.run.stages[i], s.clock);
    AtShape(job, l.run.stages, i);
    KeysAndTitles(old_.stageName);
    assert StageForm(cfg, job, worker, old_, stage, s.clock);
    StageSound(cfg, job, worker, s, l, i, stage, l' =>
      if job.profile.V1Compat? && l.run.stages[i].stageName.Detection? then InTry(l', BuildAtDetection(i))
      else InTry(l', CheckAfter(i)));
  }

  lemma AtShape(job: ExecutionJob, stages: seq<StageExecution>, i: nat)
    requires ShapeFor(job, stages, i) && i < |stages|
    ensures stages[i].status in {StageQueued, StageRunning}
  {
  }

  lemma BuildSound(cfg: Config, job: ExecutionJob, worker: string, s: Shared, l: Locals, next: Locals -> Pc)
    requires job.runId in s.runs && Stored(job, s) == l.run
    requires forall payloads: seq<Payload> ::
               Prepared(cfg, job, next(l.(payloads := Some(payloads))), l.run, s.clock)
    ensures StepSound(cfg, job, worker, s, Building(cfg, job, s, l, next), s)
  {
    hide InputObject, SavedAt;
    SameSaved(cfg, job, worker, s, s);
    InputFault(s.objects, job.runId);
    var input := InputObject(s.objects, job.runId);
    if input.Err? {
      SafeFailure(cfg, job, l.active, input.fault, l.run, s.clock);
    } else {
      var flag := Port.CancellationRequested(s.runs, job.runId);
      var built := cfg.build(job.profile, l.run.origin, input.value.1.data, flag);
      if built.BuildFailed? {
        assert Cause(cfg, job, l.run.origin, built.code, built.message);
      }
    }
  }

  lemma PublishSound(cfg: Config, job: ExecutionJob, worker: string, l: Locals, k: nat, s: Shared)
    requires PcOk(cfg, InTry(l, Publish(k))) && job.runId in s.runs && Stored(job, s) == l.run
    ensures var (pc', s') := TryNext(cfg, job, worker, l, Publish(k), s); StepSound(cfg, job, worker, s, pc', s')
  {
    hide Plan, Prepared, SavedAt, WriteArtifact, AtPublish, FailWith;
    var (pc', s') := TryNext(cfg, job, worker, l, Publish(k), s);
    SameSaved(cfg, job, worker, s, s');
    var spec := Plan(cfg, l.payloads.value)[k].spec;
    var r := WriteArtifact(cfg.sha, s.objects, job.runId, spec).0;
    WriteOutcome(cfg.sha, s.objects, job.runId, spec);
    if r.Ok? {
      AtPublishPrepared(cfg, job, l.(artifacts := l.artifacts + [r.value]), k + 1, l.run, s.clock);
    } else {
      SafeFailure(cfg, job, l.active, r.fault, l.run, s.clock);
    }
  }

  lemma QuietPointSound(cfg: Config, job: ExecutionJob, worker: string, l: Locals, point: TryPoint, s: Shared)
    requires PcOk(cfg, InTry(l, point)) && Inv(cfg, job, InTry(l, point), s)
    requires point.CheckBefore? || point.CheckAfter? || point.Verify? || point.Reload?
    ensures var (pc', s') := TryNext(cfg, job, worker, l, point, s); StepSound(cfg, job, worker, s, pc', s')
  {
    hide AnalysisRun.Valid, Stamped, SavedAt, ReferenceIntact, FinalRecord, ConcludedFrom;
    SameSaved(cfg, job, worker, s, s);
    if point.Reload? {
      FinalPrepared(cfg, l.run, l.artifacts, s.clock);
      var final := FinalRecord(cfg, l.run, l.artifacts, s.clock);
      if final.Err? {
        FinalFault(cfg, l.run, l.artifacts, s.clock);
        SafeFailure(cfg, job, l.active, final.fault, l.run, s.clock);
      }
    }
  }

  lemma FinalFault(cfg: Config, m: AnalysisRun, refs: seq<ArtifactReference>, at: Instant)
    ensures FinalRecord(cfg, m, refs, at).Err? ==> !FinalRecord(cfg, m, refs, at).fault.ExecutionFailure?
  {
    hide AnalysisRun.Valid;
  }

  /** Saving a prepared record. */
  lemma PreparedSound(cfg: Config, job: ExecutionJob, worker: string, s: Shared, run: AnalysisRun, next: Pc,
                      refused: Fault -> Pc, at: Instant)
    requires job.runId in s.runs && run.RunId() == job.runId && at <= s.clock
    requires SavedAt(cfg, job, worker, Stored(job, s), run, at)
    requires forall m: AnalysisRun :: Prepared(cfg, job, next, m, s.clock)
    requires forall fault: Fault :: !fault.ExecutionFailure? ==>
               Prepared(cfg, job, refused(fault), Stored(job, s), s.clock)
    ensures var (pc', s') := Saving(s, run, next, refused); StepSound(cfg, job, worker, s, pc', s')
  {
    hide SavedAt, Prepared, Saving;
    SavingStores(job, s, run, next, refused);
    var (pc', s') := Saving(s, run, next, refused);
    if s' == s {
      SameSaved(cfg, job, worker, s, s');
    }
  }

  lemma TrySound(cfg: Config, job: ExecutionJob, worker: string, l: Locals, point: TryPoint, s: Shared)
    requires PcOk(cfg, InTry(l, point)) && Inv(cfg, job, InTry(l, point), s)
    requires Prepared(cfg, job, InTry(l, point), Stored(job, s), s.clock)
    ensures var (pc', s') := TryNext(cfg, job, worker, l, point, s); StepSound(cfg, job, worker, s, pc', s')
  {
    hide AnalysisRun.Valid, Stamped, StepSound, SavingStage, Saving, Building, AtStage, AtPublish, Plan, ConcludedFrom,
         ShapeFor, Cause, RefsMatch;
    match point
    case SaveSkip(i) => SkipSound(cfg, job, worker, l, i, s);
    case SaveRunning(i) => StartSound(cfg, job, worker, l, i, s);
    case SaveFinished(i) => FinishSound(cfg, job, worker, l, i, s);
    case BuildAtDetection(i) => BuildSound(cfg, job, worker, s, l, l' => InTry(l', CheckAfter(i)));
    case BuildLate =>
      forall payloads: seq<Payload>
        ensures Prepared(cfg, job, AtPublish(cfg, l.(payloads := Some(payloads)), 0), l.run, s.clock)
      {
        AtPublishPrepared(cfg, job, l.(payloads := Some(payloads)), 0, l.run, s.clock);
      }
      BuildSound(cfg, job, worker, s, l, l' => AtPublish(cfg, l', 0));
    case Publish(k) => PublishSound(cfg, job, worker, l, k, s);
    case SaveFinal(final) =>
      var at: Instant :| at <= s.clock && ConcludedFrom(l.run, final, at);
      assert SavedAt(cfg, job, worker, l.run, final, at);
      forall fault: Fault | !fault.ExecutionFailure?
        ensures Prepared(cfg, job, FailWith(l.active, fault), l.run, s.clock)
      {
        SafeFailure(cfg, job, l.active, fault, l.run, s.clock);
      }
      PreparedSound(cfg, job, worker, s, final, Done(Returned(final.status)), f => FailWith(l.active, f), at);
    case _ => QuietPointSound(cfg, job, worker, l, point, s);
  }

  lemma StartStepsSound(cfg: Config, job: ExecutionJob, worker: string, pc: Pc, s: Shared)
    requires PcOk(cfg, pc) && Inv(cfg, job, pc, s)
    requires pc.Loading? || pc.CheckQueued? || pc.SaveQueuedCancel? || pc.SaveStart?
    ensures var (pc', s') := Next(cfg, job, worker, pc, s); StepSound(cfg, job, worker, s, pc', s')
  {
    hide AnalysisRun.Valid, Stamped, EnterTry, Saving, Cause;
    var m := Stored(job, s);
    SameSaved(cfg, job, worker, s, s);
    match pc
    case Loading => EnterPrepared(cfg, job, m, m, s.clock);
    case CheckQueued(_) =>
    case SaveQueuedCancel(run) =>
      var cancelled := run.Cancel(cfg.screen, s.clock, Some(QUEUED_CANCEL_REASON), run.stages);
      if cancelled.Ok? {
        assert SavedAt(cfg, job, worker, m, cancelled.value, s.clock);
        PreparedSound(cfg, job, worker, s, cancelled.value, Done(Returned(Cancelled)), f => Done(Raised(f)), s.clock);
      }
    case SaveStart(run) =>
      var started := run.Start(cfg.screen, s.clock, run.stages);
      if started.Ok? {
        assert SavedAt(cfg, job, worker, m, started.value, s.clock);
        forall n: AnalysisRun ensures Prepared(cfg, job, EnterTry(cfg, job, started.value), n, s.clock) {
          EnterPrepared(cfg, job, started.value, n, s.clock);
        }
        PreparedSound(cfg, job, worker, s, started.value, EnterTry(cfg, job, started.value), f => Done(Raised(f)), s.clock);
      }
  }

  lemma HandlersSound(cfg: Config, job: ExecutionJob, worker: string, pc: Pc, s: Shared)
    requires PcOk(cfg, pc) && Inv(cfg, job, pc, s) && Prepared(cfg, job, pc, Stored(job, s), s.clock)
    requires pc.LoadForCancel? || pc.SaveCancel? || pc.LoadForFail? || pc.SaveFail?
    ensures var (pc', s') := Next(cfg, job, worker, pc, s); StepSound(cfg, job, worker, s, pc', s')
  {
    hide AnalysisRun.Valid, Stamped, Saving, Cause, Shaped, CancelRecord, FailRecord, CancelledFrom, FailedFrom, ActiveOk;
    var m := Stored(job, s);
    SameSaved(cfg, job, worker, s, s);
    match pc
    case LoadForCancel(active) => CancelPrepared(cfg, job, m, active, s.clock);
    case LoadForFail(active, code, message) => FailPrepared(cfg, job, m, active, code, message, s.clock);
    case SaveCancel(c) =>
      var at: Instant :| at <= s.clock && CancelledFrom(m, c, at);
      assert SavedAt(cfg, job, worker, m, c, at);
      PreparedSound(cfg, job, worker, s, c, Done(Returned(Cancelled)), f => Done(Raised(f)), at);
    case SaveFail(f) =>
      var at: Instant :| at <= s.clock && FailedFrom(cfg, job, m, f, at);
      assert SavedAt(cfg, job, worker, m, f, at);
      PreparedSound(cfg, job, worker, s, f, Done(Returned(Failed)), g => Done(Raised(g)), at);
  }

  lemma StepSaves(cfg: Config, job: ExecutionJob, worker: string, pc: Pc, s: Shared)
    requires PcOk(cfg, pc) && Inv(cfg, job, pc, s) && Prepared(cfg, job, pc, Stored(job, s), s.clock)
    ensures var (pc', s') := Next(cfg, job, worker, pc, s); StepSound(cfg, job, worker, s, pc', s')
  {
    hide StoredOk, PcInv, TryNext, StepSound, EnterTry, CancelRecord, FailRecord, Saving;
    match pc
    case InTry(l, point) => InTryStored(cfg, job, l, point, s); TrySound(cfg, job, worker, l, point, s);
    case Done(_) => DoneSound(cfg, job, worker, pc, s);
    case LoadForCancel(_) => HandlersSound(cfg, job, worker, pc, s);
    case LoadForFail(_, _, _) => HandlersSound(cfg, job, worker, pc, s);
    case SaveCancel(_) => HandlersSound(cfg, job, worker, pc, s);
    case SaveFail(_) => HandlersSound(cfg, job, worker, pc, s);
    case _ => StartStepsSound(cfg, job, worker, pc, s);
  }

  lemma InTryStored(cfg: Config, job: ExecutionJob, l: Locals, point: TryPoint, s: Shared)
    requires Inv(cfg, job, InTry(l, point), s)
    ensures Stored(job, s) == l.run
  {
    hide StoredOk, PointInv;
  }

  lemma DoneSound(cfg: Config, job: ExecutionJob, worker: string, pc: Pc, s: Shared)
    requires pc.Done? && job.runId in s.runs
    ensures StepSound(cfg, job, worker, s, pc, s)
  {
    SameSaved(cfg, job, worker, s, s);
  }

  // ---------------------------------------------------------------- whole executions

  lemma QuietPrepared(cfg: Config, job: ExecutionJob, worker: string, pc: Pc, s: Shared, s': Shared)
    requires job.runId in s.runs && QuietStep(job.runId, s, s') && Prepared(cfg, job, pc, Stored(job, s), s.clock)
    ensures job.runId in s'.runs && Stored(job, s') == Stored(job, s)
    ensures Prepared(cfg, job, pc, Stored(job, s'), s'.clock)
  {
    hide Mine, ConcludedFrom, CancelledFrom, FailedFrom, Cause;
  }

  /** The manifest an execution leaves after any number of accesses, and after one more, differ by one
      of the listed changes: there is nothing else it ever writes into it. */
  lemma {:induction false} ExecutionSaves(cfg: Config, job: ExecutionJob, worker: string, env: Environment, pc: Pc,
                                          s: Shared, tick: nat, k: nat)
    requires GoodConfig(cfg) && Quiet(job.runId, env) && PcOk(cfg, pc) && Inv(cfg, job, pc, s)
    requires Prepared(cfg, job, pc, Stored(job, s), s.clock)
    ensures var s1, s2 := Run(cfg, job, worker, env, pc, s, tick, k).1, Run(cfg, job, worker, env, pc, s, tick, k + 1).1;
            job.runId in s1.runs && job.runId in s2.runs && Saved(cfg, job, worker, s1, s2)
    decreases k
  {
    hide GoodConfig, StoredOk, PcInv, Next, QuietStep, Prepared, SavedAt;
    if pc.Done? {
      SameSaved(cfg, job, worker, s, s);
    } else {
      var between := env(tick, s);
      assert QuietStep(job.runId, s, between);
      InvQuiet(cfg, job, pc, s, between);
      QuietPrepared(cfg, job, worker, pc, s, between);
      StepSaves(cfg, job, worker, pc, between);
      StepInv(cfg, job, worker, pc, between);
      NextOk(cfg, job, worker, pc, between);
      var (pc', s') := Next(cfg, job, worker, pc, between);
      if k == 0 {
        assert Run(cfg, job, worker, env, pc', s', tick + 1, 0) == (pc', s');
      } else {
        ExecutionSaves(cfg, job, worker, env, pc', s', tick + 1, k - 1);
      }
    }
  }

  /** In particular from the first access of a delivery on. */
  lemma DeliverySaves(cfg: Config, job: ExecutionJob, s: Shared, d: Delivery, k: nat)
    requires GoodConfig(cfg) && Quiet(job.runId, d.env) && Inv(cfg, job, Loading, s)
    ensures var s1 := Run(cfg, job, d.worker, d.env, Loading, s, 0, k).1;
            var s2 := Run(cfg, job, d.worker, d.env, Loading, s, 0, k + 1).1;
            job.runId in s1.runs && job.runId in s2.runs && Saved(cfg, job, d.worker, s1, s2)
  {
    hide GoodConfig, StoredOk, PcInv, Run, Saved, Quiet;
    ExecutionSaves(cfg, job, d.worker, d.env, Loading, s, 0, k);
  }
}
