/** A set cancel flag decides: exactly which executions it still cancels, and that the others go on
    as if it were not there. */
module FlagFates {
  import opened Outcomes
  import opened Contract
  import opened Jobs
  import opened ObjectStorage
  import opened ExecutorMachine
  import opened RecordValidity
  import opened ExecutionInvariant
  import opened ExecutorEffects
  import opened CrashResume
  import opened Redelivery
  import opened CancelLatency
  import Port = RepositoryPort

  // ---------------------------------------------------------------- which executions it cancels

  /** The last build, asked to make documents while cancellation is requested, stops. */
  predicate LateBuildCancels(cfg: Config, job: ExecutionJob, m: AnalysisRun, mine: Objects) {
    && InputObject(mine, job.runId).Ok?
    && cfg.build(job.profile, m.origin, InputObject(mine, job.runId).value.1.data, true).BuildCancelled?
  }

  /** The build inside the detection stage has a checkpoint behind it: only a failure escapes that. */
  predicate DetectionCancels(cfg: Config, job: ExecutionJob, m: AnalysisRun, mine: Objects) {
    && InputObject(mine, job.runId).Ok?
    && !cfg.build(job.profile, m.origin, InputObject(mine, job.runId).value.1.data, true).BuildFailed?
  }

  /** From the top of stage `i`: a stage still to be started is cancelled, otherwise the last build
      decides, if it is still to come. */
  predicate StagesCancel(cfg: Config, job: ExecutionJob, m: AnalysisRun, i: nat, payloads: Option<seq<Payload>>,
                         mine: Objects)
  {
    PendingFrom(job, m.stages, i) || (payloads.None? && LateBuildCancels(cfg, job, m, mine))
  }

  predicate PointCancels(cfg: Config, job: ExecutionJob, l: Locals, point: TryPoint, mine: Objects) {
    match point
    case SaveSkip(i) => StagesCancel(cfg, job, l.run, i + 1, l.payloads, mine)
    case CheckBefore(_) => true
    case SaveRunning(i) =>
      i < |l.run.stages| && job.profile.V1Compat? && l.run.stages[i].stageName.Detection? ==>
        DetectionCancels(cfg, job, l.run, mine)
    case BuildAtDetection(_) => DetectionCancels(cfg, job, l.run, mine)
    case CheckAfter(_) => true
    case SaveFinished(i) => StagesCancel(cfg, job, l.run, i + 1, l.payloads, mine)
    case BuildLate => LateBuildCancels(cfg, job, l.run, mine)
    case _ => false
  }

  /** Readable from the program point, the stored manifest and the stored input: a flagged execution
      ends cancelled. */
  predicate FlagCancels(cfg: Config, job: ExecutionJob, pc: Pc, m: AnalysisRun, mine: Objects) {
    match pc
    case Loading =>
      || m.status in {Queued, Cancelled}
      || (m.status.Running? && Duration(cfg, m.origin.parameters).Ok? && StagesCancel(cfg, job, m, 0, None, mine))
    case SaveStart(run) =>
      Duration(cfg, run.origin.parameters).Ok? && StagesCancel(cfg, job, run, 0, None, mine)
    case InTry(l, point) => PointCancels(cfg, job, l, point, mine)
    case LoadForFail(_, _, _) => false
    case SaveFail(_) => false
    case Done(Returned(status)) => status.Cancelled?
    case Done(Raised(_)) => false
    case _ => true
  }

  predicate CancelsIn(cfg: Config, job: ExecutionJob, pc: Pc, s: Shared)
    requires job.runId in s.runs
  {
    FlagCancels(cfg, job, pc, Stored(job, s), Mine(s.objects, job.runId))
  }

  // ---------------------------------------------------------------- each step keeps the verdict

  lemma {:induction false} AtStageCancels(cfg: Config, job: ExecutionJob, l: Locals, i: nat, m: AnalysisRun, mine: Objects)
    ensures FlagCancels(cfg, job, AtStage(cfg, job, l, i), m, mine)
        <==> StagesCancel(cfg, job, l.run, i, l.payloads, mine)
    decreases |l.run.stages| - i
  {
    hide LateBuildCancels, DetectionCancels, Plan, Duration;
    var stages := l.run.stages;
    if i >= |stages| {
      assert !PendingFrom(job, stages, i);
    } else {
      PendingHead(job, stages, i);
      if StageDone(stages[i]) {
        AtStageCancels(cfg, job, l.(active := i), i + 1, m, mine);
      }
    }
  }

  lemma PendingHead(job: ExecutionJob, stages: seq<StageExecution>, i: nat)
    requires i < |stages|
    ensures PendingFrom(job, stages, i) <==> Pending(job, stages, i) || PendingFrom(job, stages, i + 1)
  {
  }

  lemma EnterCancels(cfg: Config, job: ExecutionJob, run: AnalysisRun, m: AnalysisRun, mine: Objects)
    ensures FlagCancels(cfg, job, EnterTry(cfg, job, run), m, mine)
        <==> Duration(cfg, run.origin.parameters).Ok? && StagesCancel(cfg, job, run, 0, None, mine)
  {
    hide Duration, StagesCancel, LateBuildCancels, DetectionCancels;
    if Duration(cfg, run.origin.parameters).Ok? {
      AtStageCancels(cfg, job, Locals(run, -1, None, []), 0, m, mine);
    }
  }

  /** The same input and the same later stages make the same verdict. */
  lemma SameVerdict(cfg: Config, job: ExecutionJob, m: AnalysisRun, m': AnalysisRun, i: nat,
                    payloads: Option<seq<Payload>>, mine: Objects)
    requires m'.origin == m.origin && |m'.stages| == |m.stages|
    requires forall j :: i <= j < |m.stages| ==> m'.stages[j] == m.stages[j]
    ensures StagesCancel(cfg, job, m', i, payloads, mine) <==> StagesCancel(cfg, job, m, i, payloads, mine)
  {
    if PendingFrom(job, m.stages, i) {
      var j :| i <= j < |m.stages| && Pending(job, m.stages, j);
      assert Pending(job, m'.stages, j);
    }
    if PendingFrom(job, m'.stages, i) {
      var j :| i <= j < |m'.stages| && Pending(job, m'.stages, j);
      assert Pending(job, m.stages, j);
    }
  }

  ghost predicate KeepsVerdict(cfg: Config, job: ExecutionJob, worker: string, pc: Pc, s: Shared)
    requires PcOk(cfg, pc) && job.runId in s.runs
  {
    var (pc', s') := Next(cfg, job, worker, pc, s);
    job.runId in s'.runs && (CancelsIn(cfg, job, pc', s') <==> CancelsIn(cfg, job, pc, s))
  }

  lemma StartVerdict(cfg: Config, job: ExecutionJob, worker: string, pc: Pc, s: Shared)
    requires GoodConfig(cfg) && PcOk(cfg, pc) && Inv(cfg, job, pc, s) && Flagged(job, s)
    requires pc.Loading? || pc.CheckQueued? || pc.SaveStart?
    ensures KeepsVerdict(cfg, job, worker, pc, s)
  {
    hide StageExecution.Valid, Duration, GoodConfig, StagesCancel, Mine;
    var m, mine := Stored(job, s), Mine(s.objects, job.runId);
    if pc.Loading? && m.status.Running? {
      EnterCancels(cfg, job, m, m, mine);
    } else if pc.SaveStart? {
      StartValid(cfg, m, s.clock);
      var started := m.(status := Running, startedAt := Some(s.clock));
      Replaced(cfg, job, s, started);
      EnterCancels(cfg, job, started, started, mine);
      SameVerdict(cfg, job, m, started, 0, None, mine);
    }
  }

  lemma FinishingVerdict(cfg: Config, job: ExecutionJob, worker: string, l: Locals, point: TryPoint, s: Shared)
    requires GoodConfig(cfg) && PcOk(cfg, InTry(l, point)) && Inv(cfg, job, InTry(l, point), s)
    requires point.SaveSkip? || point.SaveFinished?
    ensures KeepsVerdict(cfg, job, worker, InTry(l, point), s)
  {
    hide StageExecution.Valid, AnalysisRun.Valid, GoodConfig, StagesCancel, Mine, Stamped, AtStage, Inv;
    TryFacts(cfg, job, l, point, s);
    var i := point.i;
    StageOf(cfg, l.run, job.runId, s.clock, i);
    var metrics := cfg.metrics(job, worker, l.run.stages[i].stageName);
    var stage := if point.SaveSkip? then SkippedStage(l.run.stages[i], s.clock)
                 else FinishedStage(l.run.stages[i], s.clock, metrics);
    if point.SaveSkip? {
      SkippedValid(cfg, l.run.stages[i], s.clock);
    } else {
      FinishedValid(cfg, l.run.stages[i], s.clock, metrics);
    }
    StageSaved(cfg, job, s, l, i, stage, l' => AtStage(cfg, job, l', i + 1));
    var run := l.run.(stages := l.run.stages[i := stage]);
    AtStageCancels(cfg, job, l.(run := run), i + 1, run, Mine(s.objects, job.runId));
    SameVerdict(cfg, job, l.run, run, i + 1, l.payloads, Mine(s.objects, job.runId));
  }

  lemma RunningVerdict(cfg: Config, job: ExecutionJob, worker: string, l: Locals, i: nat, s: Shared)
    requires GoodConfig(cfg) && PcOk(cfg, InTry(l, SaveRunning(i))) && Inv(cfg, job, InTry(l, SaveRunning(i)), s)
    ensures KeepsVerdict(cfg, job, worker, InTry(l, SaveRunning(i)), s)
  {
    hide StageExecution.Valid, AnalysisRun.Valid, GoodConfig, StagesCancel, Mine, Stamped, Inv, InputObject;
    TryFacts(cfg, job, l, SaveRunning(i), s);
    StageOf(cfg, l.run, job.runId, s.clock, i);
    var stage := RunningStage(l.run.stages[i], s.clock);
    RunningValid(cfg, l.run.stages[i], s.clock);
    StageSaved(cfg, job, s, l, i, stage, l' =>
      if job.profile.V1Compat? && l.run.stages[i].stageName.Detection? then InTry(l', BuildAtDetection(i))
      else InTry(l', CheckAfter(i)));
  }

  lemma BuildVerdict(cfg: Config, job: ExecutionJob, worker: string, l: Locals, point: TryPoint, s: Shared)
    requires PcOk(cfg, InTry(l, point)) && Inv(cfg, job, InTry(l, point), s) && Flagged(job, s)
    requires point.BuildLate? || point.BuildAtDetection?
    ensures KeepsVerdict(cfg, job, worker, InTry(l, point), s)
  {
    hide AnalysisRun.Valid, StagesCancel, Mine, Inv, InputObject, AtPublish;
    TryFacts(cfg, job, l, point, s);
    MineInputs(s.objects, job.runId);
    InputsDecide(s.objects, Mine(s.objects, job.runId), job.runId);
    forall payloads: seq<Payload>
      ensures var pc := AtPublish(cfg, l.(payloads := Some(payloads)), 0);
              pc.LoadForFail? || (pc.InTry? && pc.point.Publish?)
    {
      AtPublishCalm(cfg, l.(payloads := Some(payloads)));
    }
  }

  lemma TryVerdict(cfg: Config, job: ExecutionJob, worker: string, l: Locals, point: TryPoint, s: Shared)
    requires GoodConfig(cfg) && PcOk(cfg, InTry(l, point)) && Inv(cfg, job, InTry(l, point), s) && Flagged(job, s)
    ensures KeepsVerdict(cfg, job, worker, InTry(l, point), s)
  {
    hide GoodConfig, KeepsVerdict, Inv;
    match point
    case SaveSkip(_) => FinishingVerdict(cfg, job, worker, l, point, s);
    case SaveFinished(_) => FinishingVerdict(cfg, job, worker, l, point, s);
    case SaveRunning(i) => RunningVerdict(cfg, job, worker, l, i, s);
    case BuildLate => BuildVerdict(cfg, job, worker, l, point, s);
    case BuildAtDetection(_) => BuildVerdict(cfg, job, worker, l, point, s);
    case CheckBefore(_) => CheckVerdict(cfg, job, worker, l, point, s);
    case CheckAfter(_) => CheckVerdict(cfg, job, worker, l, point, s);
    case _ => LateVerdict(cfg, job, worker, InTry(l, point), s);
  }

  lemma CheckVerdict(cfg: Config, job: ExecutionJob, worker: string, l: Locals, point: TryPoint, s: Shared)
    requires PcOk(cfg, InTry(l, point)) && Inv(cfg, job, InTry(l, point), s) && Flagged(job, s)
    requires point.CheckBefore? || point.CheckAfter?
    ensures KeepsVerdict(cfg, job, worker, InTry(l, point), s)
  {
    hide StoredOk, Mine, PointInv;
  }

  /** Publication and the failure handler never lead to a cancelled end. */
  lemma LateVerdict(cfg: Config, job: ExecutionJob, worker: string, pc: Pc, s: Shared)
    requires PcOk(cfg, pc) && Inv(cfg, job, pc, s) && PastLastCheck(pc)
    ensures KeepsVerdict(cfg, job, worker, pc, s)
  {
    hide StoredOk, PcInv, Next, Mine;
    StepStaysPast(cfg, job, worker, pc, s);
    StepKeepsOrigin(cfg, job, worker, pc, s, job.runId);
    PastNeverCancels(cfg, job, pc);
    PastNeverCancels(cfg, job, Next(cfg, job, worker, pc, s).0);
  }

  lemma PastNeverCancels(cfg: Config, job: ExecutionJob, pc: Pc)
    requires PastLastCheck(pc)
    ensures forall m, mine :: !FlagCancels(cfg, job, pc, m, mine)
  {
  }

  lemma HandlerVerdict(cfg: Config, job: ExecutionJob, worker: string, pc: Pc, s: Shared)
    requires GoodConfig(cfg) && PcOk(cfg, pc) && Inv(cfg, job, pc, s)
    requires pc.SaveQueuedCancel? || pc.LoadForCancel? || pc.SaveCancel?
    ensures KeepsVerdict(cfg, job, worker, pc, s)
  {
    hide StageExecution.Valid, Mine, CancelRecord;
    match pc
    case SaveQueuedCancel(run) => QueuedCancelSaved(cfg, job, worker, run, s);
    case LoadForCancel(active) => CancelOutcome(cfg, job, Stored(job, s), active, s.clock);
    case SaveCancel(c) => TerminalSaved(cfg, job, s, c);
  }

  lemma StepVerdict(cfg: Config, job: ExecutionJob, worker: string, pc: Pc, s: Shared)
    requires GoodConfig(cfg) && PcOk(cfg, pc) && Inv(cfg, job, pc, s) && Flagged(job, s)
    ensures KeepsVerdict(cfg, job, worker, pc, s)
  {
    hide GoodConfig, KeepsVerdict, PcInv, StoredOk;
    match pc
    case Loading => StartVerdict(cfg, job, worker, pc, s);
    case CheckQueued(_) => StartVerdict(cfg, job, worker, pc, s);
    case SaveStart(_) => StartVerdict(cfg, job, worker, pc, s);
    case SaveQueuedCancel(_) => HandlerVerdict(cfg, job, worker, pc, s);
    case LoadForCancel(_) => HandlerVerdict(cfg, job, worker, pc, s);
    case SaveCancel(_) => HandlerVerdict(cfg, job, worker, pc, s);
    case InTry(l, point) => TryVerdict(cfg, job, worker, l, point, s);
    case LoadForFail(_, _, _) => LateVerdict(cfg, job, worker, pc, s);
    case SaveFail(_) => LateVerdict(cfg, job, worker, pc, s);
    case Done(_) => DoneVerdict(cfg, job, worker, pc, s);
  }

  lemma DoneVerdict(cfg: Config, job: ExecutionJob, worker: string, pc: Pc, s: Shared)
    requires pc.Done? && job.runId in s.runs
    ensures KeepsVerdict(cfg, job, worker, pc, s)
  {
    hide Mine;
  }

  /** A flagged execution that ends ends cancelled if and only if `FlagCancels` says so, at whichever
      program point the flag is found set. */
  lemma {:induction false} FlagDecides(cfg: Config, job: ExecutionJob, worker: string, env: Environment, pc: Pc,
                                       s: Shared, tick: nat, fuel: nat)
    requires GoodConfig(cfg) && Quiet(job.runId, env) && PcOk(cfg, pc) && Inv(cfg, job, pc, s) && Flagged(job, s)
    ensures var (pc', s') := Run(cfg, job, worker, env, pc, s, tick, fuel);
            && job.runId in s'.runs && Flagged(job, s')
            && (pc'.Done? ==> (Stored(job, s').status.Cancelled? <==> CancelsIn(cfg, job, pc, s)))
            && (pc'.Done? ==> (pc' == Done(Returned(Cancelled)) <==> CancelsIn(cfg, job, pc, s)))
    decreases fuel
  {
    hide GoodConfig, StoredOk, Next, QuietStep, Mine, Flagged, PointInv, FlagCancels;
    if pc.Done? {
      DoneCancels(cfg, job, pc, s);
    } else if fuel > 0 {
      var between := env(tick, s);
      assert QuietStep(job.runId, s, between);
      QuietFlag(job, s, between);
      StageEnvironment(cfg, job, pc, s, between);
      StepInv(cfg, job, worker, pc, between);
      StepVerdict(cfg, job, worker, pc, between);
      NextOk(cfg, job, worker, pc, between);
      FlagStays(cfg, job, worker, pc, between);
      var (pc', s') := Next(cfg, job, worker, pc, between);
      FlagDecides(cfg, job, worker, env, pc', s', tick + 1, fuel - 1);
    }
  }

  lemma DoneCancels(cfg: Config, job: ExecutionJob, pc: Pc, s: Shared)
    requires Inv(cfg, job, pc, s) && pc.Done?
    ensures Stored(job, s).status.Cancelled? <==> CancelsIn(cfg, job, pc, s)
    ensures pc == Done(Returned(Cancelled)) <==> CancelsIn(cfg, job, pc, s)
  {
    hide StoredOk, Mine;
  }

  // ---------------------------------------------------------------- the others ignore it

  /** The state with this run's cancel flag set to `b`. */
  function FlagTo(s: Shared, runId: string, b: bool): Shared {
    if runId in s.runs then s.(runs := s.runs[runId := s.runs[runId].(cancelRequested := b)]) else s
  }

  /** The same others, never seen to request cancellation of this run. */
  function Muted(env: Environment, runId: string): Environment {
    (k: nat, s: Shared) =>
      if Port.CancellationRequested(s.runs, runId) then env(k, s)
      else FlagTo(env(k, FlagTo(s, runId, true)), runId, false)
  }

  lemma MutedIsPeaceful(env: Environment, runId: string)
    requires Quiet(runId, env)
    ensures Peaceful(runId, Muted(env, runId))
  {
    hide Mine;
    forall k: nat, s: Shared ensures QuietStep(runId, s, Muted(env, runId)(k, s)) {
      assert QuietStep(runId, s, env(k, s));
      assert QuietStep(runId, FlagTo(s, runId, true), env(k, FlagTo(s, runId, true)));
    }
    forall k: nat, s: Shared | runId in s.runs && !s.runs[runId].cancelRequested
      ensures runId in Muted(env, runId)(k, s).runs && !Muted(env, runId)(k, s).runs[runId].cancelRequested
    {
      assert QuietStep(runId, FlagTo(s, runId, true), env(k, FlagTo(s, runId, true)));
    }
  }

  lemma SaveIgnoresFlag(s: Shared, run: AnalysisRun, runId: string, b: bool)
    ensures Port.Save(s.runs, run).Ok? <==> Port.Save(FlagTo(s, runId, b).runs, run).Ok?
    ensures Port.Save(s.runs, run).Err? ==> Port.Save(FlagTo(s, runId, b).runs, run) == Port.Save(s.runs, run)
    ensures Port.Save(s.runs, run).Ok? ==>
              FlagTo(s, runId, b).(runs := Port.Save(FlagTo(s, runId, b).runs, run).value)
              == FlagTo(s.(runs := Port.Save(s.runs, run).value), runId, b)
  {
    hide AnalysisRun.Valid;
    if Port.Save(s.runs, run).Ok? {
      var left := Port.Save(FlagTo(s, runId, b).runs, run).value;
      var right := FlagTo(s.(runs := Port.Save(s.runs, run).value), runId, b).runs;
      assert left.Keys == right.Keys;
      assert forall id :: id in left ==> left[id] == right[id];
      assert left == right;
    }
  }

  /** From publication on, a step does the same whatever the flag. */
  lemma LateStepIgnoresFlag(cfg: Config, job: ExecutionJob, worker: string, pc: Pc, s: Shared, b: bool)
    requires PcOk(cfg, pc) && PastLastCheck(pc)
    ensures Next(cfg, job, worker, pc, FlagTo(s, job.runId, b))
         == (Next(cfg, job, worker, pc, s).0, FlagTo(Next(cfg, job, worker, pc, s).1, job.runId, b))
  {
    hide AnalysisRun.Valid, Port.Save, FailRecord, FinalRecord, Plan, WriteArtifact, ReferenceIntact;
    match pc
    case InTry(l, point) =>
      if point.SaveFinal? {
        SaveIgnoresFlag(s, point.final, job.runId, b);
      }
    case SaveFail(failed) => SaveIgnoresFlag(s, failed, job.runId, b);
    case _ =>
  }

  lemma FlagBack(s: Shared, runId: string)
    requires Port.CancellationRequested(s.runs, runId)
    ensures FlagTo(FlagTo(s, runId, false), runId, true) == s
    ensures !Port.CancellationRequested(FlagTo(s, runId, false).runs, runId)
  {
    assert s.runs[runId := s.runs[runId]] == s.runs;
    var off := FlagTo(s, runId, false);
    assert off.runs[runId := off.runs[runId].(cancelRequested := true)] == s.runs;
  }

  /** From publication on an execution with the flag set is, access by access, the execution without
      it: same end, same manifest, same objects. */
  lemma {:induction false} LateFlagChangesNothing(cfg: Config, job: ExecutionJob, worker: string, env: Environment, pc: Pc,
                                                  s: Shared, tick: nat, fuel: nat)
    requires GoodConfig(cfg) && Quiet(job.runId, env) && PcOk(cfg, pc) && Inv(cfg, job, pc, s)
    requires PastLastCheck(pc) && Flagged(job, s)
    ensures var (pc', s') := Run(cfg, job, worker, env, pc, s, tick, fuel);
            var (bare, plain) := Run(cfg, job, worker, Muted(env, job.runId), pc, FlagTo(s, job.runId, false), tick, fuel);
            && pc' == bare && s' == FlagTo(plain, job.runId, true)
            && job.runId in s'.runs && job.runId in plain.runs && Stored(job, s') == Stored(job, plain)
    decreases fuel
  {
    hide GoodConfig, StoredOk, Next, QuietStep, PcInv, PastLastCheck, FlagTo;
    if fuel == 0 || pc.Done? {
      FlagBack(s, job.runId);
      FlagKeepsRun(job, s);
    } else {
      var between := env(tick, s);
      assert QuietStep(job.runId, s, between);
      QuietFlag(job, s, between);
      FlagBack(s, job.runId);
      StageEnvironment(cfg, job, pc, s, between);
      StepInv(cfg, job, worker, pc, between);
      StepStaysPast(cfg, job, worker, pc, between);
      FlagStays(cfg, job, worker, pc, between);
      NextOk(cfg, job, worker, pc, between);
      LateStepIgnoresFlag(cfg, job, worker, pc, between, false);
      var (pc', s') := Next(cfg, job, worker, pc, between);
      LateFlagChangesNothing(cfg, job, worker, env, pc', s', tick + 1, fuel - 1);
    }
  }

  lemma FlagKeepsRun(job: ExecutionJob, s: Shared)
    requires job.runId in s.runs
    ensures job.runId in FlagTo(s, job.runId, false).runs
    ensures Stored(job, FlagTo(s, job.runId, false)) == Stored(job, s)
  {
  }
}
