/** Cancellation latency: how much an execution still does once the cancel flag is set. */
module CancelLatency {
  import opened Outcomes
  import opened Contract
  import opened Jobs
  import opened ObjectStorage
  import opened ExecutorMachine
  import opened RecordValidity
  import opened ExecutionInvariant
  import opened ExecutorEffects
  import opened Redelivery
  import Port = RepositoryPort

  predicate Flagged(job: ExecutionJob, s: Shared) {
    Port.CancellationRequested(s.runs, job.runId)
  }

  /** The flag is never cleared, by others or by the execution itself. */
  lemma FlagStays(cfg: Config, job: ExecutionJob, worker: string, pc: Pc, s: Shared)
    requires PcOk(cfg, pc) && Flagged(job, s)
    ensures Flagged(job, Next(cfg, job, worker, pc, s).1)
  {
    hide AnalysisRun.Valid, Next, WriteArtifact;
    StepEffect(cfg, job, worker, pc, s);
  }

  // ---------------------------------------------------------------- stage writes

  /** About to save a stage as running or as finished. */
  predicate WritesStage(pc: Pc) {
    pc.InTry? && (pc.point.SaveRunning? || pc.point.SaveFinished?)
  }

  /** How many such saves the execution makes. */
  function StageWrites(cfg: Config, job: ExecutionJob, worker: string, env: Environment, pc: Pc, s: Shared,
                       tick: nat, fuel: nat): nat
    requires PcOk(cfg, pc)
    decreases fuel
  {
    if fuel == 0 || pc.Done? then 0
    else
      var (pc', s') := Next(cfg, job, worker, pc, env(tick, s));
      NextOk(cfg, job, worker, pc, env(tick, s));
      (if WritesStage(pc) then 1 else 0) + StageWrites(cfg, job, worker, env, pc', s', tick + 1, fuel - 1)
  }

  lemma {:induction false} AtStageChecks(cfg: Config, job: ExecutionJob, l: Locals, i: nat)
    ensures !WritesStage(AtStage(cfg, job, l, i))
    decreases |l.run.stages| - i
  {
    hide Plan;
    if i < |l.run.stages| && StageDone(l.run.stages[i]) {
      AtStageChecks(cfg, job, l.(active := i), i + 1);
    }
  }

  lemma SavedStageChecks(cfg: Config, job: ExecutionJob, s: Shared, l: Locals, i: nat, stage: StageExecution)
    requires i < |l.run.stages|
    ensures !WritesStage(SavingStage(cfg, s, l, i, stage, l' => AtStage(cfg, job, l', i + 1)).0)
  {
    hide AnalysisRun.Valid, Port.Save;
    var run := l.run.WithStages(cfg.screen, l.run.stages[i := stage]);
    if run.Ok? {
      AtStageChecks(cfg, job, l.(run := run.value), i + 1);
    }
  }

  /** A set flag lets nothing reach a stage save: every way there passes a checkpoint. */
  lemma FlagBlocksStages(cfg: Config, job: ExecutionJob, worker: string, pc: Pc, s: Shared)
    requires PcOk(cfg, pc) && Flagged(job, s)
    ensures !WritesStage(Next(cfg, job, worker, pc, s).0)
  {
    hide AnalysisRun.Valid, Port.Save, AtStage, CancelRecord, FailRecord, Plan;
    match pc
    case Loading =>
      if job.runId in s.runs {
        AtStageChecks(cfg, job, Locals(s.runs[job.runId].manifest, -1, None, []), 0);
      }
    case SaveStart(run) =>
      var started := run.Start(cfg.screen, s.clock, run.stages);
      if started.Ok? {
        AtStageChecks(cfg, job, Locals(started.value, -1, None, []), 0);
      }
    case InTry(l, point) => TryFlagged(cfg, job, worker, l, point, s);
    case _ =>
  }

  lemma TryFlagged(cfg: Config, job: ExecutionJob, worker: string, l: Locals, point: TryPoint, s: Shared)
    requires TryPointOk(cfg, l, point) && Flagged(job, s)
    ensures !WritesStage(TryNext(cfg, job, worker, l, point, s).0)
  {
    hide AnalysisRun.Valid, Port.Save, AtStage, ReferenceIntact, InputObject, FinalRecord, Plan, WriteArtifact;
    match point
    case SaveSkip(i) => SavedStageChecks(cfg, job, s, l, i, SkippedStage(l.run.stages[i], s.clock));
    case SaveFinished(i) =>
      var stage := FinishedStage(l.run.stages[i], s.clock, cfg.metrics(job, worker, l.run.stages[i].stageName));
      SavedStageChecks(cfg, job, s, l, i, stage);
    case _ =>
  }

  /** Once the flag is set at most one more stage is saved as running or finished, and only when
      the execution was already past the checkpoint before that save. */
  lemma {:induction false} AtMostOneStageWrite(cfg: Config, job: ExecutionJob, worker: string, env: Environment,
                                               pc: Pc, s: Shared, tick: nat, fuel: nat)
    requires PcOk(cfg, pc) && Flagged(job, s) && Quiet(job.runId, env)
    ensures StageWrites(cfg, job, worker, env, pc, s, tick, fuel) <= if WritesStage(pc) then 1 else 0
    decreases fuel
  {
    hide Next, WritesStage;
    if fuel > 0 && !pc.Done? {
      var between := env(tick, s);
      assert QuietStep(job.runId, s, between);
      FlagBlocksStages(cfg, job, worker, pc, between);
      FlagStays(cfg, job, worker, pc, between);
      NextOk(cfg, job, worker, pc, between);
      var (pc', s') := Next(cfg, job, worker, pc, between);
      AtMostOneStageWrite(cfg, job, worker, env, pc', s', tick + 1, fuel - 1);
    }
  }

  // ---------------------------------------------------------------- which endings remain

  /** Stage `j` will still be checked before it starts. */
  predicate Pending(job: ExecutionJob, stages: seq<StageExecution>, j: nat)
    requires j < |stages|
  {
    !StageDone(stages[j]) && !Skips(job, stages[j])
  }

  predicate PendingFrom(job: ExecutionJob, stages: seq<StageExecution>, i: nat) {
    exists j :: i <= j < |stages| && Pending(job, stages, j)
  }

  /** A checkpoint, or an ending other than success, is still ahead. */
  predicate CheckAhead(job: ExecutionJob, pc: Pc, m: AnalysisRun) {
    match pc
    case Loading => m.status.Queued? || (m.status.Running? && PendingFrom(job, m.stages, 0))
    case SaveStart(run) => PendingFrom(job, run.stages, 0)
    case InTry(l, point) =>
      if point.SaveSkip? || point.SaveFinished? then PendingFrom(job, l.run.stages, point.i + 1)
      else point.CheckBefore? || point.SaveRunning? || point.BuildAtDetection? || point.CheckAfter?
    case Done(Returned(status)) => status in {Cancelled, Failed}
    case _ => true
  }

  lemma {:induction false} AtStageAhead(cfg: Config, job: ExecutionJob, l: Locals, i: nat, m: AnalysisRun)
    requires PendingFrom(job, l.run.stages, i)
    ensures CheckAhead(job, AtStage(cfg, job, l, i), m)
    decreases |l.run.stages| - i
  {
    hide AtPublish;
    var j: nat :| i <= j < |l.run.stages| && Pending(job, l.run.stages, j);
    if StageDone(l.run.stages[i]) {
      AtStageAhead(cfg, job, l.(active := i), i + 1, m);
    }
  }

  lemma SavedStageAhead(cfg: Config, job: ExecutionJob, s: Shared, l: Locals, i: nat, stage: StageExecution,
                        m: AnalysisRun)
    requires i < |l.run.stages| && PendingFrom(job, l.run.stages, i + 1)
    ensures CheckAhead(job, SavingStage(cfg, s, l, i, stage, l' => AtStage(cfg, job, l', i + 1)).0, m)
  {
    hide AnalysisRun.Valid, Port.Save;
    var run := l.run.WithStages(cfg.screen, l.run.stages[i := stage]);
    if run.Ok? {
      var j: nat :| i + 1 <= j < |l.run.stages| && Pending(job, l.run.stages, j);
      assert Pending(job, run.value.stages, j);
      AtStageAhead(cfg, job, l.(run := run.value), i + 1, m);
    }
  }

  /** While a checkpoint is ahead of a flagged execution, it cannot get past it. */
  lemma StepStaysAhead(cfg: Config, job: ExecutionJob, worker: string, pc: Pc, s: Shared, m': AnalysisRun)
    requires GoodConfig(cfg) && PcOk(cfg, pc) && Inv(cfg, job, pc, s) && Flagged(job, s)
    requires CheckAhead(job, pc, Stored(job, s))
    ensures var (pc', s') := Next(cfg, job, worker, pc, s);
            CheckAhead(job, pc', m') && s'.objects == s.objects
  {
    hide AnalysisRun.Valid, Port.Save, AtStage, CancelRecord, FailRecord, Plan, StoredOk, GoodConfig, PointInv;
    match pc
    case Loading =>
      var m := Stored(job, s);
      if m.status.Running? {
        AtStageAhead(cfg, job, Locals(m, -1, None, []), 0, m');
      }
    case SaveStart(run) =>
      var started := run.Start(cfg.screen, s.clock, run.stages);
      if started.Ok? {
        AtStageAhead(cfg, job, Locals(started.value, -1, None, []), 0, m');
      }
    case InTry(l, point) => TryStaysAhead(cfg, job, worker, l, point, s, m');
    case _ =>
  }

  lemma TryStaysAhead(cfg: Config, job: ExecutionJob, worker: string, l: Locals, point: TryPoint, s: Shared,
                      m': AnalysisRun)
    requires TryPointOk(cfg, l, point) && Flagged(job, s) && CheckAhead(job, InTry(l, point), l.run)
    ensures var (pc', s') := TryNext(cfg, job, worker, l, point, s);
            CheckAhead(job, pc', m') && s'.objects == s.objects
  {
    hide AnalysisRun.Valid, Port.Save, AtStage, ReferenceIntact, InputObject, FinalRecord, Plan, WriteArtifact;
    match point
    case SaveSkip(i) => SavedStageAhead(cfg, job, s, l, i, SkippedStage(l.run.stages[i], s.clock), m');
    case SaveFinished(i) =>
      var stage := FinishedStage(l.run.stages[i], s.clock, cfg.metrics(job, worker, l.run.stages[i].stageName));
      SavedStageAhead(cfg, job, s, l, i, stage, m');
    case _ =>
  }

  /** A flag set before the last checkpoint excludes success, whole or partial, and the execution
      stores no artifact at all. */
  lemma {:induction false} FlagExcludesSuccess(cfg: Config, job: ExecutionJob, worker: string, env: Environment,
                                               pc: Pc, s: Shared, tick: nat, fuel: nat)
    requires GoodConfig(cfg) && Quiet(job.runId, env) && PcOk(cfg, pc) && Inv(cfg, job, pc, s) && Flagged(job, s)
    requires CheckAhead(job, pc, Stored(job, s))
    ensures var (pc', s') := Run(cfg, job, worker, env, pc, s, tick, fuel);
            && job.runId in s'.runs
            && Mine(s'.objects, job.runId) == Mine(s.objects, job.runId)
            && Stored(job, s').status !in {Succeeded, Partial}
            && (pc'.Done? && pc'.ending.Returned? ==>
                  Stored(job, s').status == pc'.ending.status && pc'.ending.status in {Cancelled, Failed})
    decreases fuel
  {
    hide GoodConfig, PcInv, StoredOk, Next, QuietStep, Mine, Flagged, CheckAhead;
    NotSucceeded(cfg, job, pc, s);
    if fuel > 0 && !pc.Done? {
      var between := env(tick, s);
      assert QuietStep(job.runId, s, between);
      QuietFlag(job, s, between);
      StageEnvironment(cfg, job, pc, s, between);
      StepInv(cfg, job, worker, pc, between);
      NextOk(cfg, job, worker, pc, between);
      FlagStays(cfg, job, worker, pc, between);
      var (pc', s') := Next(cfg, job, worker, pc, between);
      StepStaysAhead(cfg, job, worker, pc, between, Stored(job, s'));
      FlagExcludesSuccess(cfg, job, worker, env, pc', s', tick + 1, fuel - 1);
    }
  }

  lemma QuietFlag(job: ExecutionJob, s: Shared, s': Shared)
    requires QuietStep(job.runId, s, s') && Flagged(job, s)
    ensures Flagged(job, s') && Mine(s'.objects, job.runId) == Mine(s.objects, job.runId)
  {
    hide Mine;
  }

  lemma NotSucceeded(cfg: Config, job: ExecutionJob, pc: Pc, s: Shared)
    requires Inv(cfg, job, pc, s) && CheckAhead(job, pc, Stored(job, s))
    ensures Stored(job, s).status !in {Succeeded, Partial}
    ensures pc.Done? && pc.ending.Returned? ==>
              Stored(job, s).status == pc.ending.status && pc.ending.status in {Cancelled, Failed}
  {
    hide StoredOk, PointInv;
  }

  // ---------------------------------------------------------------- late and early flags

  /** Past the last look at the flag. */
  predicate PastLastCheck(pc: Pc) {
    match pc
    case InTry(_, point) => point.Publish? || point.Verify? || point.Reload? || point.SaveFinal?
    case LoadForFail(_, _, _) => true
    case SaveFail(_) => true
    case Done(Returned(status)) => !status.Cancelled?
    case Done(Raised(_)) => true
    case _ => false
  }

  lemma StepStaysPast(cfg: Config, job: ExecutionJob, worker: string, pc: Pc, s: Shared)
    requires PcOk(cfg, pc) && Inv(cfg, job, pc, s) && PastLastCheck(pc)
    ensures PastLastCheck(Next(cfg, job, worker, pc, s).0)
  {
    hide AnalysisRun.Valid, Port.Save, FailRecord, FinalRecord, Plan, WriteArtifact, ReferenceIntact, StoredOk;
  }

  /** Publication never looks at the flag: an execution that has reached it is not cancelled by it. */
  lemma {:induction false} LateFlagIgnored(cfg: Config, job: ExecutionJob, worker: string, env: Environment,
                                           pc: Pc, s: Shared, tick: nat, fuel: nat)
    requires GoodConfig(cfg) && Quiet(job.runId, env) && PcOk(cfg, pc) && Inv(cfg, job, pc, s) && PastLastCheck(pc)
    ensures var (pc', s') := Run(cfg, job, worker, env, pc, s, tick, fuel);
            PastLastCheck(pc') && job.runId in s'.runs && (pc'.Done? ==> !Stored(job, s').status.Cancelled?)
    decreases fuel
  {
    hide GoodConfig, StoredOk, Next, QuietStep, PointInv;
    if fuel > 0 && !pc.Done? {
      var between := env(tick, s);
      assert QuietStep(job.runId, s, between);
      StageEnvironment(cfg, job, pc, s, between);
      StepInv(cfg, job, worker, pc, between);
      NextOk(cfg, job, worker, pc, between);
      StepStaysPast(cfg, job, worker, pc, between);
      var (pc', s') := Next(cfg, job, worker, pc, between);
      LateFlagIgnored(cfg, job, worker, env, pc', s', tick + 1, fuel - 1);
    }
  }

  /** A flag set while the run is queued: three accesses later it is cancelled, every stage as it
      was, and nothing else ever happens to it. */
  lemma QueuedFlagCancels(cfg: Config, job: ExecutionJob, worker: string, env: Environment, s: Shared, fuel: nat)
    requires GoodConfig(cfg) && Quiet(job.runId, env) && Inv(cfg, job, Loading, s) && Flagged(job, s)
    requires Stored(job, s).status.Queued? && fuel >= 3
    ensures var (pc, s') := Run(cfg, job, worker, env, Loading, s, 0, fuel);
            && pc == Done(Returned(Cancelled))
            && job.runId in s'.runs && Stored(job, s').status.Cancelled?
            && Stored(job, s').stages == Stored(job, s).stages
            && Stored(job, s').startedAt == Stored(job, s).startedAt
            && StageWrites(cfg, job, worker, env, Loading, s, 0, fuel) == 0
  {
    hide GoodConfig, AnalysisRun.Valid, Stamped, EnterTry, Mine, Quiet, Next;
    AtMostOneStageWrite(cfg, job, worker, env, Loading, s, 0, fuel);
    var m := Stored(job, s);
    var s1 := env(0, s);
    CancelTurn(cfg, job, worker, env, Loading, s, 0, fuel);
    var s2 := env(1, s1);
    CancelTurn(cfg, job, worker, env, CheckQueued(m), s1, 1, fuel - 1);
    var s3 := env(2, s2);
    CancelTurn(cfg, job, worker, env, SaveQueuedCancel(m), s2, 2, fuel - 2);
    QueuedCancelSaved(cfg, job, worker, m, s3);
  }

  /** One access of an execution that will cancel a queued run. */
  lemma CancelTurn(cfg: Config, job: ExecutionJob, worker: string, env: Environment, pc: Pc, s: Shared,
                   tick: nat, fuel: nat)
    requires GoodConfig(cfg) && Quiet(job.runId, env) && Inv(cfg, job, pc, s) && Flagged(job, s) && fuel > 0
    requires Stored(job, s).status.Queued?
    requires pc == Loading || pc == CheckQueued(Stored(job, s)) || pc == SaveQueuedCancel(Stored(job, s))
    ensures var between := env(tick, s);
            var (pc', s') := Next(cfg, job, worker, pc, between);
            && Inv(cfg, job, pc, between) && Flagged(job, between) && Stored(job, between) == Stored(job, s)
            && PcOk(cfg, pc')
            && Run(cfg, job, worker, env, pc, s, tick, fuel) == Run(cfg, job, worker, env, pc', s', tick + 1, fuel - 1)
            && (pc == Loading ==> s' == between && pc' == CheckQueued(Stored(job, s)))
            && (pc == CheckQueued(Stored(job, s)) ==> s' == between && pc' == SaveQueuedCancel(Stored(job, s)))
            && Inv(cfg, job, pc', s')
  {
    hide GoodConfig, AnalysisRun.Valid, StoredOk, EnterTry, Mine;
    var between := env(tick, s);
    assert QuietStep(job.runId, s, between);
    StageEnvironment(cfg, job, pc, s, between);
    StepInv(cfg, job, worker, pc, between);
    NextOk(cfg, job, worker, pc, between);
  }

  lemma QueuedCancelSaved(cfg: Config, job: ExecutionJob, worker: string, m: AnalysisRun, s: Shared)
    requires GoodConfig(cfg) && job.runId in s.runs && Stored(job, s) == m && m.status.Queued?
    requires StoredOk(cfg, m, job.runId, s.clock)
    ensures var (pc, s') := Next(cfg, job, worker, SaveQueuedCancel(m), s);
            && pc == Done(Returned(Cancelled))
            && job.runId in s'.runs && Stored(job, s').status.Cancelled?
            && Stored(job, s').stages == m.stages && Stored(job, s').startedAt == m.startedAt
  {
    hide StageExecution.Valid;
    OwnTextSafe(cfg, QueuedCancelText);
    CancelValid(cfg, m, s.clock, QUEUED_CANCEL_REASON, m.stages);
  }
}
