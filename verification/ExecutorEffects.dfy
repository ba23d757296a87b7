/** What one access of an executor can do to the shared state, and that every execution ends. */
module ExecutorEffects {
  import opened Outcomes
  import opened Contract
  import opened Jobs
  import opened ObjectStorage
  import opened ExecutorMachine
  import Port = RepositoryPort

  // ---------------------------------------------------------------- effects

  /** At most one repository save, or one object write under the job's run. */
  ghost predicate Effect(cfg: Config, job: ExecutionJob, s: Shared, s': Shared) {
    && s'.clock == s.clock
    && (s'.runs == s.runs || exists run :: Port.Save(s.runs, run) == Ok(s'.runs))
    && (s'.objects == s.objects || exists spec :: s'.objects == WriteArtifact(cfg.sha, s.objects, job.runId, spec).1)
  }

  lemma StepEffect(cfg: Config, job: ExecutionJob, worker: string, pc: Pc, s: Shared)
    requires PcOk(cfg, pc)
    ensures Effect(cfg, job, s, Next(cfg, job, worker, pc, s).1)
  {
    hide Port.Save, AnalysisRun.Valid, WriteArtifact, AtStage, EnterTry, Building, FinalRecord, CancelRecord, FailRecord;
    match pc
    case InTry(l, point) => TryEffect(cfg, job, worker, l, point, s);
    case _ =>
  }

  lemma TryEffect(cfg: Config, job: ExecutionJob, worker: string, l: Locals, point: TryPoint, s: Shared)
    requires TryPointOk(cfg, l, point)
    ensures Effect(cfg, job, s, TryNext(cfg, job, worker, l, point, s).1)
  {
    hide Port.Save, AnalysisRun.Valid, WriteArtifact, AtStage, Building, FinalRecord, Plan, AtPublish;
  }

  /** Provenance never changes, whoever saves. */
  lemma StepKeepsOrigin(cfg: Config, job: ExecutionJob, worker: string, pc: Pc, s: Shared, id: string)
    requires PcOk(cfg, pc) && id in s.runs
    ensures var s' := Next(cfg, job, worker, pc, s).1;
            id in s'.runs && s'.runs[id].manifest.origin == s.runs[id].manifest.origin
  {
    hide AnalysisRun.Valid, WriteArtifact, Next;
    StepEffect(cfg, job, worker, pc, s);
  }

  // ---------------------------------------------------------------- every execution ends

  /** Accesses still possible before the next stage, `i`, is reached. */
  function StageBudget(l: Locals, i: nat, left: nat): int {
    6 * (|l.run.stages| - i) + left
  }

  /** Phase of the execution and what is left of it: both only ever go down. */
  function Rank(cfg: Config, pc: Pc): (int, int) {
    match pc
    case Loading => (8, 0)
    case CheckQueued(_) => (7, 0)
    case SaveQueuedCancel(_) => (6, 0)
    case SaveStart(_) => (6, 0)
    case InTry(l, point) => TryRank(cfg, l, point)
    case LoadForCancel(_) => (0, 2)
    case LoadForFail(_, _, _) => (0, 2)
    case SaveCancel(_) => (0, 1)
    case SaveFail(_) => (0, 1)
    case Done(_) => (0, 0)
  }

  function TryRank(cfg: Config, l: Locals, point: TryPoint): (int, int) {
    match point
    case SaveSkip(i) => (5, StageBudget(l, i, 1))
    case CheckBefore(i) => (5, StageBudget(l, i, 5))
    case SaveRunning(i) => (5, StageBudget(l, i, 4))
    case BuildAtDetection(i) => (5, StageBudget(l, i, 3))
    case CheckAfter(i) => (5, StageBudget(l, i, 2))
    case SaveFinished(i) => (5, StageBudget(l, i, 1))
    case BuildLate => (4, 0)
    case Publish(k) => (3, if l.payloads.Some? then |Plan(cfg, l.payloads.value)| - k else 0)
    case Verify(k) => (2, |l.artifacts| - k)
    case Reload => (1, 1)
    case SaveFinal(_) => (1, 0)
  }

  predicate Below(a: (int, int), b: (int, int)) {
    a.0 < b.0 || (a.0 == b.0 && a.1 < b.1)
  }

  lemma {:induction false} AtStageRank(cfg: Config, job: ExecutionJob, l: Locals, i: nat)
    ensures var rank := Rank(cfg, AtStage(cfg, job, l, i));
            rank.0 < 5 || (rank.0 == 5 && rank.1 <= StageBudget(l, i, 5) && i < |l.run.stages|)
    decreases |l.run.stages| - i
  {
    hide Plan;
    if i < |l.run.stages| && StageDone(l.run.stages[i]) {
      AtStageRank(cfg, job, l.(active := i), i + 1);
    }
  }

  lemma SavedStageRank(cfg: Config, job: ExecutionJob, s: Shared, l: Locals, i: nat, stage: StageExecution)
    requires i < |l.run.stages|
    ensures var pc := SavingStage(cfg, s, l, i, stage, l' => AtStage(cfg, job, l', i + 1)).0;
            Below(Rank(cfg, pc), (5, StageBudget(l, i, 1)))
  {
    hide AnalysisRun.Valid, Port.Save;
    var run := l.run.WithStages(cfg.screen, l.run.stages[i := stage]);
    if run.Ok? {
      AtStageRank(cfg, job, l.(run := run.value), i + 1);
    }
  }

  /** Every access brings the execution nearer its end. */
  lemma StepDescends(cfg: Config, job: ExecutionJob, worker: string, pc: Pc, s: Shared)
    requires PcOk(cfg, pc) && !pc.Done?
    ensures Below(Rank(cfg, Next(cfg, job, worker, pc, s).0), Rank(cfg, pc))
  {
    hide AnalysisRun.Valid, Port.Save, AtStage, CancelRecord, FailRecord, Plan;
    match pc
    case Loading =>
      if job.runId in s.runs {
        AtStageRank(cfg, job, Locals(s.runs[job.runId].manifest, -1, None, []), 0);
      }
    case SaveStart(run) =>
      var started := run.Start(cfg.screen, s.clock, run.stages);
      if started.Ok? {
        AtStageRank(cfg, job, Locals(started.value, -1, None, []), 0);
      }
    case InTry(l, point) => TryDescends(cfg, job, worker, l, point, s);
    case _ =>
  }

  lemma TryDescends(cfg: Config, job: ExecutionJob, worker: string, l: Locals, point: TryPoint, s: Shared)
    requires TryPointOk(cfg, l, point)
    ensures Below(Rank(cfg, TryNext(cfg, job, worker, l, point, s).0), TryRank(cfg, l, point))
  {
    hide AnalysisRun.Valid, Port.Save, AtStage, WriteArtifact, ReferenceIntact, InputObject, FinalRecord, Plan,
         FinishedStage, SkippedStage, RunningStage, Port.CancellationRequested;
    match point
    case SaveSkip(i) => SavedStageRank(cfg, job, s, l, i, SkippedStage(l.run.stages[i], s.clock));
    case SaveFinished(i) =>
      var stage := FinishedStage(l.run.stages[i], s.clock, cfg.metrics(job, worker, l.run.stages[i].stageName));
      SavedStageRank(cfg, job, s, l, i, stage);
    case _ =>
  }

  lemma RankBounded(cfg: Config, pc: Pc)
    requires PcOk(cfg, pc)
    ensures Rank(cfg, pc).0 >= 0 && Rank(cfg, pc).1 >= 0
  {
    hide Plan;
  }

  /** Whatever the others do, every execution ends: some number of accesses completes it. */
  lemma {:induction false} EveryExecutionEnds(cfg: Config, job: ExecutionJob, worker: string, env: Environment,
                                              pc: Pc, s: Shared, tick: nat)
    requires PcOk(cfg, pc)
    ensures exists fuel: nat :: Run(cfg, job, worker, env, pc, s, tick, fuel).0.Done?
    decreases Rank(cfg, pc).0, Rank(cfg, pc).1
  {
    hide Next, Rank;
    if pc.Done? {
      assert Run(cfg, job, worker, env, pc, s, tick, 0).0.Done?;
    } else {
      var (pc', s') := Next(cfg, job, worker, pc, env(tick, s));
      NextOk(cfg, job, worker, pc, env(tick, s));
      StepDescends(cfg, job, worker, pc, env(tick, s));
      RankBounded(cfg, pc);
      RankBounded(cfg, pc');
      EveryExecutionEnds(cfg, job, worker, env, pc', s', tick + 1);
      var rest: nat :| Run(cfg, job, worker, env, pc', s', tick + 1, rest).0.Done?;
      assert Run(cfg, job, worker, env, pc, s, tick, rest + 1).0.Done?;
    }
  }
}
