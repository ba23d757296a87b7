/** One live executor per run: what every step of `execute` keeps, through any crash and resume. */
module ExecutionInvariant {
  import opened Outcomes
  import opened JsonValues
  import opened Contract
  import opened Jobs
  import opened Lifecycle
  import opened ObjectKeys
  import opened ObjectStorage
  import opened ExecutorMachine
  import opened RecordValidity
  import Port = RepositoryPort

  // ---------------------------------------------------------------- the stage shape

  /** Stages before `i` are done (skipped only when optional), stage `i` is queued or running, the
      rest are queued. */
  ghost predicate Shape(stages: seq<StageExecution>, i: nat) {
    && i <= |stages|
    && (forall j :: 0 <= j < i ==> StageDone(stages[j]) && (stages[j].status.StageSkipped? ==> !stages[j].required))
    && (i < |stages| ==> stages[i].status in {StageQueued, StageRunning})
    && (forall j :: i < j < |stages| ==> stages[j].status.StageQueued?)
  }

  /** The first attempt of the failing test profile never gets past its third stage. */
  predicate Blocked(job: ExecutionJob) {
    job.profile.TestFail? && job.attemptNumber == 1
  }

  ghost predicate ShapeFor(job: ExecutionJob, stages: seq<StageExecution>, i: nat) {
    Shape(stages, i) && (Blocked(job) ==> i <= 2)
  }

  ghost predicate Shaped(job: ExecutionJob, stages: seq<StageExecution>) {
    exists i :: ShapeFor(job, stages, i)
  }

  // ---------------------------------------------------------------- the invariant

  /** The stored manifest of the job's run. */
  function Stored(job: ExecutionJob, s: Shared): AnalysisRun
    requires job.runId in s.runs
  {
    s.runs[job.runId].manifest
  }

  ghost predicate PayloadsDistinct(l: Locals) {
    l.payloads.Some? ==> forall i, j :: 0 <= i < j < |l.payloads.value| ==>
      l.payloads.value[i].artifactId != l.payloads.value[j].artifactId
  }

  /** The references collected so far are those of the first `k` planned writes. */
  ghost predicate RefsMatch(cfg: Config, l: Locals, k: nat) {
    && l.payloads.Some?
    && k == |l.artifacts| <= |Plan(cfg, l.payloads.value)|
    && forall j :: 0 <= j < k ==>
         && Plan(cfg, l.payloads.value)[j].WriteIt?
         && l.artifacts[j] == ReferenceOf(cfg.sha, Plan(cfg, l.payloads.value)[j].spec)
         && l.artifacts[j].Valid()
  }

  ghost predicate AllRefs(cfg: Config, l: Locals) {
    l.payloads.Some? && RefsMatch(cfg, l, |Plan(cfg, l.payloads.value)|)
  }

  ghost predicate PointInv(cfg: Config, job: ExecutionJob, l: Locals, point: TryPoint) {
    var stages, n := l.run.stages, |l.run.stages|;
    match point
    case SaveSkip(i) =>
      ShapeFor(job, stages, i) && i < n && l.active == i && Skips(job, stages[i]) && l.artifacts == []
    case CheckBefore(i) => ShapeFor(job, stages, i) && i < n && l.active == i && l.artifacts == []
    case SaveRunning(i) =>
      ShapeFor(job, stages, i) && i < n && l.active == i && (Blocked(job) ==> i < 2) && l.artifacts == []
    case BuildAtDetection(i) =>
      && job.profile.V1Compat? && ShapeFor(job, stages, i) && i < n && stages[i].status.StageRunning? && l.active == i
      && (Blocked(job) ==> i < 2) && l.artifacts == []
    case CheckAfter(i) =>
      && ShapeFor(job, stages, i) && i < n && stages[i].status.StageRunning? && l.active == i
      && (Blocked(job) ==> i < 2) && l.artifacts == []
    case SaveFinished(i) =>
      && ShapeFor(job, stages, i) && i < n && stages[i].status.StageRunning? && l.active == i
      && (Blocked(job) ==> i < 2) && l.artifacts == []
    case BuildLate => ShapeFor(job, stages, n) && l.active == n - 1 && l.artifacts == []
    case Publish(k) => ShapeFor(job, stages, n) && l.active == n - 1 && RefsMatch(cfg, l, k)
    case Verify(k) => ShapeFor(job, stages, n) && l.active == n - 1 && AllRefs(cfg, l)
    case Reload => ShapeFor(job, stages, n) && l.active == n - 1 && AllRefs(cfg, l)
    case SaveFinal(final) =>
      && ShapeFor(job, stages, n) && l.active == n - 1
      && final.Valid(cfg.screen) && final.origin == l.run.origin && final.status in {Succeeded, Partial}
  }

  /** The handlers' view: at most the active stage is running. */
  ghost predicate ActiveOk(job: ExecutionJob, stages: seq<StageExecution>, active: int) {
    && Shaped(job, stages)
    && -1 <= active < |stages|
    && forall j :: 0 <= j < |stages| && stages[j].status.StageRunning? ==> j == active
  }

  ghost predicate PcInv(cfg: Config, job: ExecutionJob, pc: Pc, m: AnalysisRun) {
    match pc
    case Loading => m.status.Running? ==> Shaped(job, m.stages)
    case CheckQueued(run) => run == m && m.status.Queued?
    case SaveQueuedCancel(run) => run == m && m.status.Queued?
    case SaveStart(run) => run == m && m.status.Queued?
    case InTry(l, point) => l.run == m && m.status.Running? && PayloadsDistinct(l) && PointInv(cfg, job, l, point)
    case LoadForCancel(active) => m.status.Running? && ActiveOk(job, m.stages, active)
    case LoadForFail(active, code, message) =>
      m.status.Running? && ActiveOk(job, m.stages, active) && IsIdentifier(code) && SafeText(cfg.screen, message)
    case SaveCancel(c) =>
      m.status.Running? && Shaped(job, m.stages) && c.Valid(cfg.screen) && c.origin == m.origin && c.status.Cancelled?
    case SaveFail(f) =>
      m.status.Running? && Shaped(job, m.stages) && f.Valid(cfg.screen) && f.origin == m.origin && f.status.Failed?
    case Done(Returned(status)) => m.status == status && status.IsTerminal()
    case Done(Raised(_)) => m.status.Running? && Shaped(job, m.stages) && Duration(cfg, m.origin.parameters).Err?
  }

  /** The stored manifest is contract-valid, has the stage shape while running, and is what the
      executor believes it to be. */
  ghost predicate Inv(cfg: Config, job: ExecutionJob, pc: Pc, s: Shared) {
    && job.runId in s.runs
    && StoredOk(cfg, s.runs[job.runId].manifest, job.runId, s.clock)
    && PcInv(cfg, job, pc, s.runs[job.runId].manifest)
  }

  // ---------------------------------------------------------------- control flow keeps it

  lemma HandlerInv(cfg: Config, job: ExecutionJob, m: AnalysisRun, active: int, fault: Fault)
    requires GoodConfig(cfg) && m.status.Running? && ActiveOk(job, m.stages, active)
    requires fault.ExecutionFailure? ==> IsIdentifier(fault.code) && SafeText(cfg.screen, fault.message)
    ensures PcInv(cfg, job, FailWith(active, fault), m)
  {
    FixedCodes();
    OwnTextSafe(cfg, FailedText);
    hide GoodConfig, SafeText, ActiveOk;
  }

  lemma ShapeActive(job: ExecutionJob, stages: seq<StageExecution>, i: nat, active: int)
    requires ShapeFor(job, stages, i)
    requires -1 <= active < |stages| && (i < |stages| && stages[i].status.StageRunning? ==> active == i)
    ensures ActiveOk(job, stages, active)
  {
  }

  lemma {:induction false} AtStageInv(cfg: Config, job: ExecutionJob, l: Locals, i: nat, k: nat)
    requires GoodConfig(cfg) && l.run.status.Running? && PayloadsDistinct(l) && l.artifacts == []
    requires l.active == i - 1 && i <= k && ShapeFor(job, l.run.stages, k)
    ensures PcInv(cfg, job, AtStage(cfg, job, l, i), l.run)
    decreases |l.run.stages| - i
  {
    hide GoodConfig, FailWith, AtPublish;
    if i == |l.run.stages| {
      AtPublishInv(cfg, job, l, 0);
    } else if StageDone(l.run.stages[i]) {
      AtStageInv(cfg, job, l.(active := i), i + 1, k);
    } else {
      assert i == k;
    }
  }

  lemma AtPublishInv(cfg: Config, job: ExecutionJob, l: Locals, k: nat)
    requires GoodConfig(cfg) && l.run.status.Running? && PayloadsDistinct(l)
    requires ShapeFor(job, l.run.stages, |l.run.stages|) && l.active == |l.run.stages| - 1
    requires if l.payloads.None? then l.artifacts == [] else RefsMatch(cfg, l, k)
    ensures PcInv(cfg, job, AtPublish(cfg, l, k), l.run)
  {
    hide Plan;
    ShapeActive(job, l.run.stages, |l.run.stages|, l.active);
    if l.payloads.Some? {
      var plan := Plan(cfg, l.payloads.value);
      if k < |plan| && plan[k].Raise? {
        PlanFaults(cfg, l.payloads.value, k);
        HandlerInv(cfg, job, l.run, l.active, plan[k].fault);
      }
    }
  }

  lemma PlanFaults(cfg: Config, payloads: seq<Payload>, k: nat)
    requires k < |Plan(cfg, payloads)| && Plan(cfg, payloads)[k].Raise?
    ensures !Plan(cfg, payloads)[k].fault.ExecutionFailure?
  {
  }

  // ---------------------------------------------------------------- the environment keeps it

  /** What others may do between two accesses: the clock moves on, cancellation may be requested
      (never withdrawn), other runs and their objects change freely; this run's manifest and
      objects stay. */
  ghost predicate QuietStep(runId: string, s: Shared, s': Shared) {
    && s.clock <= s'.clock
    && (runId in s.runs ==>
          && runId in s'.runs
          && s'.runs[runId].manifest == s.runs[runId].manifest
          && (s.runs[runId].cancelRequested ==> s'.runs[runId].cancelRequested))
    && Mine(s'.objects, runId) == Mine(s.objects, runId)
  }

  /** The objects under the run's prefix. */
  function Mine(objects: Objects, runId: string): Objects {
    if objects == [] then []
    else (if HasPrefix(objects[0].0, RunPrefix(runId)) then [objects[0]] else []) + Mine(objects[1..], runId)
  }

  ghost predicate Quiet(runId: string, env: Environment) {
    forall k: nat, s: Shared :: QuietStep(runId, s, env(k, s))
  }

  lemma InvQuiet(cfg: Config, job: ExecutionJob, pc: Pc, s: Shared, s': Shared)
    requires Inv(cfg, job, pc, s) && QuietStep(job.runId, s, s')
    ensures Inv(cfg, job, pc, s')
  {
    hide AnalysisRun.Valid, PcInv, Mine;
  }

  // ---------------------------------------------------------------- each step keeps it

  /** A permitted replacement is stored. */
  lemma Replaced(cfg: Config, job: ExecutionJob, s: Shared, run: AnalysisRun)
    requires job.runId in s.runs && StoredOk(cfg, s.runs[job.runId].manifest, job.runId, s.clock)
    requires run.origin == s.runs[job.runId].manifest.origin
    requires Permitted(s.runs[job.runId].manifest.status, run.status)
    requires run.Valid(cfg.screen) && Stamped(run, s.clock)
    ensures var saved := Port.Save(s.runs, run);
            && saved.Ok?
            && job.runId in saved.value && saved.value[job.runId].manifest == run
            && StoredOk(cfg, run, job.runId, s.clock)
  {
    hide AnalysisRun.Valid, Stamped;
  }

  lemma LoadingInv(cfg: Config, job: ExecutionJob, worker: string, s: Shared)
    requires GoodConfig(cfg) && Inv(cfg, job, Loading, s)
    ensures Inv(cfg, job, Next(cfg, job, worker, Loading, s).0, s)
  {
    hide AnalysisRun.Valid, EnterTry, GoodConfig;
    var m := s.runs[job.runId].manifest;
    if m.status.Running? {
      EnterInv(cfg, job, m);
    }
  }

  lemma EnterInv(cfg: Config, job: ExecutionJob, m: AnalysisRun)
    requires GoodConfig(cfg) && m.status.Running? && Shaped(job, m.stages)
    ensures PcInv(cfg, job, EnterTry(cfg, job, m), m)
  {
    hide AnalysisRun.Valid, Duration;
    var k :| ShapeFor(job, m.stages, k);
    AtStageInv(cfg, job, Locals(m, -1, None, []), 0, k);
  }

  lemma QueuedStepInv(cfg: Config, job: ExecutionJob, worker: string, pc: Pc, s: Shared)
    requires GoodConfig(cfg) && Inv(cfg, job, pc, s)
    requires pc.CheckQueued? || pc.SaveQueuedCancel? || pc.SaveStart?
    ensures var (pc', s') := Next(cfg, job, worker, pc, s); Inv(cfg, job, pc', s')
  {
    hide StageExecution.Valid, Duration;
    var m := s.runs[job.runId].manifest;
    if pc.SaveQueuedCancel? {
      OwnTextSafe(cfg, QueuedCancelText);
      CancelValid(cfg, m, s.clock, QUEUED_CANCEL_REASON, m.stages);
      var next := m.(status := Cancelled, cancellationReason := Some(QUEUED_CANCEL_REASON), completedAt := Some(s.clock));
      Replaced(cfg, job, s, next);
    } else if pc.SaveStart? {
      StartValid(cfg, m, s.clock);
      var next := m.(status := Running, startedAt := Some(s.clock));
      Replaced(cfg, job, s, next);
      assert ShapeFor(job, next.stages, 0);
      EnterInv(cfg, job, next);
    }
  }

  /** Saving one replaced stage succeeds and stores it. */
  lemma StageSaved(cfg: Config, job: ExecutionJob, s: Shared, l: Locals, i: nat, stage: StageExecution,
                   next: Locals -> Pc)
    requires job.runId in s.runs && s.runs[job.runId].manifest == l.run
    requires StoredOk(cfg, l.run, job.runId, s.clock) && l.run.status.Running?
    requires i < |l.run.stages| && stage.Valid(cfg.screen) && SameStage(l.run.stages[i], stage)
    requires stage.startedAt.Some? ==> stage.startedAt.value <= s.clock
    ensures var run := l.run.(stages := l.run.stages[i := stage]);
            var (pc', s') := SavingStage(cfg, s, l, i, stage, next);
            && pc' == next(l.(run := run))
            && s'.clock == s.clock && s'.objects == s.objects
            && job.runId in s'.runs && s'.runs[job.runId].manifest == run
            && StoredOk(cfg, run, job.runId, s.clock)
  {
    hide StageExecution.Valid;
    WithStageValid(cfg, l.run, i, stage);
    var run := l.run.(stages := l.run.stages[i := stage]);
    assert run.Valid(cfg.screen);
    assert Stamped(run, s.clock);
    Replaced(cfg, job, s, run);
  }

  lemma StageOf(cfg: Config, m: AnalysisRun, runId: string, clock: Instant, i: nat)
    requires StoredOk(cfg, m, runId, clock) && i < |m.stages| && !m.status.IsTerminal()
    ensures m.stages[i].Valid(cfg.screen)
    ensures m.stages[i].startedAt.Some? ==> m.stages[i].startedAt.value <= clock
  {
    hide StageExecution.Valid;
  }

  lemma SaveSkipInv(cfg: Config, job: ExecutionJob, worker: string, l: Locals, i: nat, s: Shared)
    requires GoodConfig(cfg) && Inv(cfg, job, InTry(l, SaveSkip(i)), s)
    ensures var (pc', s') := TryNext(cfg, job, worker, l, SaveSkip(i), s); Inv(cfg, job, pc', s')
  {
    hide AnalysisRun.Valid, StageExecution.Valid, Stamped, GoodConfig, AtStage;
    StageOf(cfg, l.run, job.runId, s.clock, i);
    var stage := SkippedStage(l.run.stages[i], s.clock);
    SkippedValid(cfg, l.run.stages[i], s.clock);
    StageSaved(cfg, job, s, l, i, stage, l' => AtStage(cfg, job, l', i + 1));
    var l' := l.(run := l.run.(stages := l.run.stages[i := stage]));
    AdvanceShape(job, l.run.stages, i, stage);
    AtStageInv(cfg, job, l', i + 1, i + 1);
  }

  /** Finishing or skipping stage `i` moves the shape one stage on. */
  lemma AdvanceShape(job: ExecutionJob, stages: seq<StageExecution>, i: nat, stage: StageExecution)
    requires ShapeFor(job, stages, i) && i < |stages|
    requires StageDone(stage) && (stage.status.StageSkipped? ==> !stage.required)
    requires Blocked(job) ==> i < 2
    ensures ShapeFor(job, stages[i := stage], i + 1)
  {
  }

  lemma SaveRunningInv(cfg: Config, job: ExecutionJob, worker: string, l: Locals, i: nat, s: Shared)
    requires GoodConfig(cfg) && Inv(cfg, job, InTry(l, SaveRunning(i)), s)
    ensures var (pc', s') := TryNext(cfg, job, worker, l, SaveRunning(i), s); Inv(cfg, job, pc', s')
  {
    hide AnalysisRun.Valid, StageExecution.Valid, Stamped;
    StageOf(cfg, l.run, job.runId, s.clock, i);
    var stage := RunningStage(l.run.stages[i], s.clock);
    RunningValid(cfg, l.run.stages[i], s.clock);
    StageSaved(cfg, job, s, l, i, stage, l' =>
      if job.profile.V1Compat? && l.run.stages[i].stageName.Detection? then InTry(l', BuildAtDetection(i))
      else InTry(l', CheckAfter(i)));
    var stages := l.run.stages[i := stage];
    assert ShapeFor(job, stages, i);
  }

  lemma SaveFinishedInv(cfg: Config, job: ExecutionJob, worker: string, l: Locals, i: nat, s: Shared)
    requires GoodConfig(cfg) && Inv(cfg, job, InTry(l, SaveFinished(i)), s)
    ensures var (pc', s') := TryNext(cfg, job, worker, l, SaveFinished(i), s); Inv(cfg, job, pc', s')
  {
    hide AnalysisRun.Valid, StageExecution.Valid, Stamped, GoodConfig, AtStage;
    StageOf(cfg, l.run, job.runId, s.clock, i);
    var metrics := cfg.metrics(job, worker, l.run.stages[i].stageName);
    var stage := FinishedStage(l.run.stages[i], s.clock, metrics);
    FinishedValid(cfg, l.run.stages[i], s.clock, metrics);
    StageSaved(cfg, job, s, l, i, stage, l' => AtStage(cfg, job, l', i + 1));
    var l' := l.(run := l.run.(stages := l.run.stages[i := stage]));
    AdvanceShape(job, l.run.stages, i, stage);
    AtStageInv(cfg, job, l', i + 1, i + 1);
  }

  lemma CheckInv(cfg: Config, job: ExecutionJob, worker: string, l: Locals, point: TryPoint, s: Shared)
    requires GoodConfig(cfg) && Inv(cfg, job, InTry(l, point), s) && (point.CheckBefore? || point.CheckAfter?)
    ensures var (pc', s') := TryNext(cfg, job, worker, l, point, s); Inv(cfg, job, pc', s')
  {
    hide AnalysisRun.Valid, GoodConfig;
    ShapeActive(job, l.run.stages, point.i, l.active);
    HandlerInv(cfg, job, l.run, l.active, TEST_FAIL) by { TestFailGood(cfg); }
  }

  lemma TestFailGood(cfg: Config)
    requires GoodConfig(cfg)
    ensures IsIdentifier(TEST_FAIL.code) && SafeText(cfg.screen, TEST_FAIL.message)
    ensures IsIdentifier(INTEGRITY_FAIL.code) && SafeText(cfg.screen, INTEGRITY_FAIL.message)
  {
    FixedCodes();
    OwnTextSafe(cfg, TestFailText);
    OwnTextSafe(cfg, IntegrityText);
    hide GoodConfig, SafeText, IsIdentifier;
  }

  lemma BuildInv(cfg: Config, job: ExecutionJob, worker: string, l: Locals, point: TryPoint, s: Shared)
    requires GoodConfig(cfg) && Inv(cfg, job, InTry(l, point), s) && (point.BuildAtDetection? || point.BuildLate?)
    ensures var (pc', s') := TryNext(cfg, job, worker, l, point, s); Inv(cfg, job, pc', s')
  {
    hide AnalysisRun.Valid, Plan, InputObject;
    var i := if point.BuildLate? then |l.run.stages| else point.i;
    ShapeActive(job, l.run.stages, i, l.active);
    var input := InputObject(s.objects, job.runId);
    if input.Err? {
      HandlerInv(cfg, job, l.run, l.active, input.fault) by { InputFault(s.objects, job.runId); }
    } else {
      var flag := Port.CancellationRequested(s.runs, job.runId);
      var built := cfg.build(job.profile, l.run.origin, input.value.1.data, flag);
      assert GoodBuild(cfg, built);
      if built.Built? && point.BuildLate? {
        AtPublishInv(cfg, job, l.(payloads := Some(built.payloads)), 0);
      }
    }
  }

  lemma InputFault(objects: Objects, runId: string)
    ensures InputObject(objects, runId).Err? ==> !InputObject(objects, runId).fault.ExecutionFailure?
  {
  }

  lemma PublishInv(cfg: Config, job: ExecutionJob, worker: string, l: Locals, k: nat, s: Shared)
    requires GoodConfig(cfg) && PcOk(cfg, InTry(l, Publish(k))) && Inv(cfg, job, InTry(l, Publish(k)), s)
    ensures var (pc', s') := TryNext(cfg, job, worker, l, Publish(k), s); Inv(cfg, job, pc', s')
  {
    hide AnalysisRun.Valid, Plan, GoodConfig;
    ShapeActive(job, l.run.stages, |l.run.stages|, l.active);
    var spec := Plan(cfg, l.payloads.value)[k].spec;
    var r := WriteArtifact(cfg.sha, s.objects, job.runId, spec).0;
    WriteOutcome(cfg.sha, s.objects, job.runId, spec);
    if r.Ok? {
      AtPublishInv(cfg, job, l.(artifacts := l.artifacts + [r.value]), k + 1);
    } else {
      HandlerInv(cfg, job, l.run, l.active, r.fault);
    }
  }

  lemma WriteOutcome(sha: Bytes -> Digest, objects: Objects, runId: string, spec: ArtifactSpec)
    ensures var r := WriteArtifact(sha, objects, runId, spec).0;
            && (r.Ok? ==> r.value == ReferenceOf(sha, spec) && r.value.Valid())
            && (r.Err? ==> !r.fault.ExecutionFailure?)
  {
    hide ArtifactReference.Valid;
  }

  lemma VerifyInv(cfg: Config, job: ExecutionJob, worker: string, l: Locals, k: nat, s: Shared)
    requires GoodConfig(cfg) && PcOk(cfg, InTry(l, Verify(k))) && Inv(cfg, job, InTry(l, Verify(k)), s)
    ensures var (pc', s') := TryNext(cfg, job, worker, l, Verify(k), s); Inv(cfg, job, pc', s')
  {
    hide AnalysisRun.Valid, Plan, GoodConfig, ReferenceIntact;
    ShapeActive(job, l.run.stages, |l.run.stages|, l.active);
    HandlerInv(cfg, job, l.run, l.active, INTEGRITY_FAIL) by { TestFailGood(cfg); }
  }

  // ---------------------------------------------------------------- the published set

  /** The planned artifacts have distinct ids, names and paths. */
  lemma PlanDistinct(cfg: Config, payloads: seq<Payload>, i: nat, j: nat)
    requires forall a, b :: 0 <= a < b < |payloads| ==> payloads[a].artifactId != payloads[b].artifactId
    requires i < j < |Plan(cfg, payloads)| && Plan(cfg, payloads)[i].WriteIt? && Plan(cfg, payloads)[j].WriteIt?
    ensures var a, b := Plan(cfg, payloads)[i].spec, Plan(cfg, payloads)[j].spec;
            a.artifactId != b.artifactId && a.name != b.name && a.relativePath != b.relativePath
  {
    var n := |payloads|;
    if j < n {
      PayloadSpecs(cfg, payloads[i], payloads[j]);
    } else if i < n {
      AliasSpecs(cfg, payloads, payloads[i]);
    } else {
      PathsDiffer("dashboard-track-summary", "dashboard-workload-advisory");
    }
  }

  lemma PayloadSpecs(cfg: Config, p: Payload, q: Payload)
    requires p.artifactId != q.artifactId && PayloadItem(cfg, p).WriteIt? && PayloadItem(cfg, q).WriteIt?
    ensures var a, b := PayloadItem(cfg, p).spec, PayloadItem(cfg, q).spec;
            a.artifactId != b.artifactId && a.name != b.name && a.relativePath != b.relativePath
  {
    NamesDiffer(p.artifactId, q.artifactId);
    PathsDiffer(p.artifactId, q.artifactId);
  }

  lemma NamesDiffer(p: string, q: string)
    requires p != q && CategoryOf(p).Some? && CategoryOf(q).Some?
    ensures CategoryOf(p).value.1 != CategoryOf(q).value.1
  {
  }

  lemma PathsDiffer(p: string, q: string)
    requires p != q
    ensures ArtifactFile(p) != ArtifactFile(q)
  {
    var a, b := ArtifactFile(p), ArtifactFile(q);
    assert a[10..|a| - 5] == p && b[10..|b| - 5] == q;
  }

  /** Neither alias shares an id, name or path with a payload artifact. */
  lemma AliasSpecs(cfg: Config, payloads: seq<Payload>, p: Payload)
    requires PayloadItem(cfg, p).WriteIt?
    ensures forall alias :: alias in {SummaryAlias(cfg, payloads), AdvisoryAlias(cfg, payloads)} && alias.WriteIt? ==>
      && alias.spec.artifactId != PayloadItem(cfg, p).spec.artifactId
      && alias.spec.name != PayloadItem(cfg, p).spec.name
      && alias.spec.relativePath != PayloadItem(cfg, p).spec.relativePath
  {
    hide CategoryOf, FindPayload;
    SummaryApart(p.artifactId);
    AdvisoryApart(p.artifactId);
  }

  lemma SummaryApart(id: string)
    requires CategoryOf(id).Some?
    ensures id != "legacy-player-summary" && CategoryOf(id).value.1 != "Dashboard track summary"
    ensures ArtifactFile(id) != ArtifactFile("dashboard-track-summary")
  {
    hide CategoryOf;
    AliasIdsUnknown();
    AliasNamesFresh(id);
    hide ArtifactFile;
    PathsDiffer(id, "dashboard-track-summary");
  }

  lemma AdvisoryApart(id: string)
    requires CategoryOf(id).Some?
    ensures id != "dashboard-workload-advisory" && CategoryOf(id).value.1 != "Dashboard workload advisory"
    ensures ArtifactFile(id) != ArtifactFile("dashboard-workload-advisory")
  {
    hide CategoryOf;
    AliasIdsUnknown();
    AliasNamesFresh(id);
    hide ArtifactFile;
    PathsDiffer(id, "dashboard-workload-advisory");
  }

  lemma AliasIdsUnknown()
    ensures CategoryOf("legacy-player-summary").None?
    ensures CategoryOf("dashboard-track-summary").None?
    ensures CategoryOf("dashboard-workload-advisory").None?
  {
  }

  lemma AliasNamesFresh(id: string)
    requires CategoryOf(id).Some?
    ensures CategoryOf(id).value.1 != "Dashboard track summary"
    ensures CategoryOf(id).value.1 != "Dashboard workload advisory"
  {
  }

  lemma AllRefsOk(cfg: Config, l: Locals)
    requires PayloadsDistinct(l) && AllRefs(cfg, l)
    ensures RefsOk(l.artifacts)
  {
    hide ArtifactReference.Valid;
    var payloads := l.payloads.value;
    forall i, j | 0 <= i < j < |l.artifacts|
      ensures l.artifacts[i].artifactId != l.artifacts[j].artifactId
      ensures l.artifacts[i].name != l.artifacts[j].name
      ensures l.artifacts[i].relativePath != l.artifacts[j].relativePath
    {
      hide Plan;
      PlanDistinct(cfg, payloads, i, j);
    }
  }

  // ---------------------------------------------------------------- endings

  lemma DoneShape(job: ExecutionJob, stages: seq<StageExecution>)
    requires ShapeFor(job, stages, |stages|)
    ensures AllDone(stages)
  {
  }

  lemma ReloadInv(cfg: Config, job: ExecutionJob, worker: string, l: Locals, s: Shared)
    requires GoodConfig(cfg) && Inv(cfg, job, InTry(l, Reload), s)
    ensures var (pc', s') := TryNext(cfg, job, worker, l, Reload, s); Inv(cfg, job, pc', s')
  {
    hide AnalysisRun.Valid, Plan, GoodConfig, FinalRecord;
    ShapeActive(job, l.run.stages, |l.run.stages|, l.active);
    FinalOutcome(cfg, job, l, s.clock);
    var final := FinalRecord(cfg, l.run, l.artifacts, s.clock);
    if final.Err? {
      HandlerInv(cfg, job, l.run, l.active, final.fault);
    }
  }

  /** Exactly when the reloaded manifest becomes a terminal record, and which. */
  lemma FinalOutcome(cfg: Config, job: ExecutionJob, l: Locals, at: Instant)
    requires GoodConfig(cfg) && l.run.Valid(cfg.screen) && l.run.status.Running? && Stamped(l.run, at)
    requires PayloadsDistinct(l) && AllRefs(cfg, l) && ShapeFor(job, l.run.stages, |l.run.stages|)
    ensures var final := FinalRecord(cfg, l.run, l.artifacts, at);
            && (final.Ok? <==> Concludes(l.run))
            && (final.Err? ==> !final.fault.ExecutionFailure?)
            && (final.Ok? ==>
                  && final.value.Valid(cfg.screen) && final.value.origin == l.run.origin
                  && final.value.artifacts == l.artifacts
                  && final.value.status == if ForcePartial(l.run) then Partial else Succeeded)
  {
    hide StageExecution.Valid, ArtifactReference.Valid, GoodConfig;
    AllRefsOk(cfg, l);
    DoneShape(job, l.run.stages);
    if l.run.stages != [] {
      if ForcePartial(l.run) {
        CompletePartialValid(cfg, l.run, at, l.artifacts);
      } else {
        SucceedValid(cfg, l.run, at, l.artifacts);
      }
    }
  }

  /** A finished stage list can be concluded: there are stages, and a forced partial end needs its
      last stage to be a required one. */
  predicate Concludes(run: AnalysisRun) {
    run.stages != [] && (ForcePartial(run) ==> run.stages[|run.stages| - 1].required)
  }

  /** A terminal record for the running manifest is saved. */
  lemma TerminalSaved(cfg: Config, job: ExecutionJob, s: Shared, run: AnalysisRun)
    requires job.runId in s.runs && StoredOk(cfg, s.runs[job.runId].manifest, job.runId, s.clock)
    requires s.runs[job.runId].manifest.status.Running?
    requires run.Valid(cfg.screen) && run.origin == s.runs[job.runId].manifest.origin && run.status.IsTerminal()
    ensures Port.Save(s.runs, run).Ok?
    ensures Port.Save(s.runs, run).value[job.runId].manifest == run
  {
    hide AnalysisRun.Valid, Stamped;
  }

  lemma HandlerStages(cfg: Config, job: ExecutionJob, m: AnalysisRun, active: int, stage: StageExecution)
    requires m.Valid(cfg.screen) && ActiveOk(job, m.stages, active)
    requires active >= 0 && m.stages[active].status.StageRunning?
    requires stage.Valid(cfg.screen) && SameStage(m.stages[active], stage) && !stage.status.StageRunning?
    ensures Settled(m.stages, m.stages[active := stage], cfg.screen)
  {
    hide StageExecution.Valid;
  }

  lemma NothingRunning(cfg: Config, job: ExecutionJob, m: AnalysisRun, active: int)
    requires m.Valid(cfg.screen) && ActiveOk(job, m.stages, active)
    requires active >= 0 ==> !m.stages[active].status.StageRunning?
    ensures Settled(m.stages, m.stages, cfg.screen)
  {
    hide StageExecution.Valid;
  }

  /** The cancellation handler always builds a valid cancelled record. */
  lemma CancelOutcome(cfg: Config, job: ExecutionJob, m: AnalysisRun, active: int, at: Instant)
    requires GoodConfig(cfg) && m.Valid(cfg.screen) && m.status.Running? && Stamped(m, at)
    requires ActiveOk(job, m.stages, active)
    ensures var c := CancelRecord(cfg, m, active, at);
            c.Ok? && c.value.Valid(cfg.screen) && c.value.origin == m.origin && c.value.status.Cancelled?
  {
    hide StageExecution.Valid, SafeText;
    OwnTextSafe(cfg, CancelText);
    if active >= 0 && m.stages[active].status.StageRunning? {
      var stage := CancelledStage(m.stages[active], at);
      CancelledValid(cfg, m.stages[active], at);
      HandlerStages(cfg, job, m, active, stage);
      CancelValid(cfg, m, at, CANCEL_REASON, m.stages[active := stage]);
    } else {
      NothingRunning(cfg, job, m, active);
      CancelValid(cfg, m, at, CANCEL_REASON, m.stages);
    }
  }

  lemma FailureDetails(cfg: Config, error: StructuredError, place: string)
    requires GoodConfig(cfg) && error.Valid(cfg.screen) && !cfg.screen.unsafeText(place)
    ensures error.(technicalDetails := Some(map[Named("stage") := Str(place)])).Valid(cfg.screen)
  {
  }

  /** The failure handler always builds a valid failed record. */
  lemma FailOutcome(cfg: Config, job: ExecutionJob, m: AnalysisRun, active: int, code: string, message: string,
                    at: Instant)
    requires GoodConfig(cfg) && m.Valid(cfg.screen) && m.status.Running? && Stamped(m, at)
    requires ActiveOk(job, m.stages, active) && IsIdentifier(code) && SafeText(cfg.screen, message)
    ensures var f := FailRecord(cfg, m, active, code, message, at);
            f.Ok? && f.value.Valid(cfg.screen) && f.value.origin == m.origin && f.value.status.Failed?
  {
    hide StageExecution.Valid;
    var error := StructuredError(code, message, true, at, None);
    var place := if active >= 0 then StageKey(m.stages[active].stageName) else "ingestion";
    var failure := error.(technicalDetails := Some(map[Named("stage") := Str(place)]));
    OwnTextSafe(cfg, IngestionText);
    FailureDetails(cfg, error, place);
    if active >= 0 && m.stages[active].status.StageRunning? {
      var stage := FailedStage(m.stages[active], at, error);
      FailedValid(cfg, m.stages[active], at, error);
      HandlerStages(cfg, job, m, active, stage);
      FailValid(cfg, m, at, failure, m.stages[active := stage]);
    } else {
      NothingRunning(cfg, job, m, active);
      FailValid(cfg, m, at, failure, m.stages);
    }
  }

  lemma EndingInv(cfg: Config, job: ExecutionJob, worker: string, pc: Pc, s: Shared)
    requires GoodConfig(cfg) && Inv(cfg, job, pc, s)
    requires pc.LoadForCancel? || pc.SaveCancel? || pc.LoadForFail? || pc.SaveFail?
    ensures var (pc', s') := Next(cfg, job, worker, pc, s); Inv(cfg, job, pc', s')
  {
    hide AnalysisRun.Valid, GoodConfig, CancelRecord, FailRecord, Stamped;
    var m := s.runs[job.runId].manifest;
    match pc
    case LoadForCancel(active) => CancelOutcome(cfg, job, m, active, s.clock);
    case LoadForFail(active, code, message) => FailOutcome(cfg, job, m, active, code, message, s.clock);
    case SaveCancel(c) => TerminalSaved(cfg, job, s, c);
    case SaveFail(f) => TerminalSaved(cfg, job, s, f);
  }

  lemma SaveFinalInv(cfg: Config, job: ExecutionJob, worker: string, l: Locals, final: AnalysisRun, s: Shared)
    requires GoodConfig(cfg) && Inv(cfg, job, InTry(l, SaveFinal(final)), s)
    ensures var (pc', s') := TryNext(cfg, job, worker, l, SaveFinal(final), s); Inv(cfg, job, pc', s')
  {
    hide AnalysisRun.Valid, GoodConfig, Stamped;
    TerminalSaved(cfg, job, s, final);
  }

  // ---------------------------------------------------------------- main results

  lemma TryStepInv(cfg: Config, job: ExecutionJob, worker: string, l: Locals, point: TryPoint, s: Shared)
    requires GoodConfig(cfg) && PcOk(cfg, InTry(l, point)) && Inv(cfg, job, InTry(l, point), s)
    ensures var (pc', s') := TryNext(cfg, job, worker, l, point, s); Inv(cfg, job, pc', s')
  {
    hide AnalysisRun.Valid, GoodConfig, PcInv, Stamped, TryNext;
    match point
    case SaveSkip(i) => SaveSkipInv(cfg, job, worker, l, i, s);
    case CheckBefore(i) => CheckInv(cfg, job, worker, l, point, s);
    case SaveRunning(i) => SaveRunningInv(cfg, job, worker, l, i, s);
    case BuildAtDetection(i) => BuildInv(cfg, job, worker, l, point, s);
    case CheckAfter(i) => CheckInv(cfg, job, worker, l, point, s);
    case SaveFinished(i) => SaveFinishedInv(cfg, job, worker, l, i, s);
    case BuildLate => BuildInv(cfg, job, worker, l, point, s);
    case Publish(k) => PublishInv(cfg, job, worker, l, k, s);
    case Verify(k) => VerifyInv(cfg, job, worker, l, k, s);
    case Reload => ReloadInv(cfg, job, worker, l, s);
    case SaveFinal(final) => SaveFinalInv(cfg, job, worker, l, final, s);
  }

  /** Every step keeps the invariant. */
  lemma StepInv(cfg: Config, job: ExecutionJob, worker: string, pc: Pc, s: Shared)
    requires GoodConfig(cfg) && PcOk(cfg, pc) && Inv(cfg, job, pc, s)
    ensures var (pc', s') := Next(cfg, job, worker, pc, s); Inv(cfg, job, pc', s')
  {
    hide AnalysisRun.Valid, GoodConfig, PcInv, Stamped, TryNext;
    match pc
    case Loading => LoadingInv(cfg, job, worker, s);
    case CheckQueued(_) => QueuedStepInv(cfg, job, worker, pc, s);
    case SaveQueuedCancel(_) => QueuedStepInv(cfg, job, worker, pc, s);
    case SaveStart(_) => QueuedStepInv(cfg, job, worker, pc, s);
    case InTry(l, point) => TryStepInv(cfg, job, worker, l, point, s);
    case Done(_) =>
    case _ => EndingInv(cfg, job, worker, pc, s);
  }

  /** Any part of an execution, under any quiet environment, keeps the invariant. */
  lemma {:induction false} RunInv(cfg: Config, job: ExecutionJob, worker: string, env: Environment, pc: Pc,
                                  s: Shared, tick: nat, fuel: nat)
    requires GoodConfig(cfg) && Quiet(job.runId, env) && PcOk(cfg, pc) && Inv(cfg, job, pc, s)
    ensures var (pc', s') := Run(cfg, job, worker, env, pc, s, tick, fuel); Inv(cfg, job, pc', s')
    decreases fuel
  {
    hide AnalysisRun.Valid, GoodConfig, PcInv, Stamped, Next, Inv, QuietStep;
    if fuel > 0 && !pc.Done? {
      assert QuietStep(job.runId, s, env(tick, s));
      InvQuiet(cfg, job, pc, s, env(tick, s));
      StepInv(cfg, job, worker, pc, env(tick, s));
      NextOk(cfg, job, worker, pc, env(tick, s));
      var (pc', s') := Next(cfg, job, worker, pc, env(tick, s));
      RunInv(cfg, job, worker, env, pc', s', tick + 1, fuel - 1);
    }
  }

  /** Wherever the process died, a redelivered job starts again from a good state. */
  lemma ResumeInv(cfg: Config, job: ExecutionJob, pc: Pc, s: Shared)
    requires Inv(cfg, job, pc, s)
    ensures Inv(cfg, job, Loading, s)
  {
    hide AnalysisRun.Valid, Stamped;
    var m := s.runs[job.runId].manifest;
    if m.status.Running? && pc.InTry? {
      PointShaped(cfg, job, pc.locals, pc.point);
    }
  }

  lemma PointShaped(cfg: Config, job: ExecutionJob, l: Locals, point: TryPoint)
    requires PointInv(cfg, job, l, point)
    ensures Shaped(job, l.run.stages)
  {
    hide AnalysisRun.Valid;
  }

  /** One delivery of the job: the worker, its environment, and the access it dies at, if it does. */
  datatype Delivery = Delivery(worker: string, env: Environment, crashAt: nat)

  /** The state and last program point after a sequence of deliveries, one after the other. */
  function Deliver(cfg: Config, job: ExecutionJob, s: Shared, ds: seq<Delivery>): (r: (Pc, Shared))
    ensures PcOk(cfg, r.0)
  {
    if ds == [] then (Loading, s)
    else
      var (_, before) := Deliver(cfg, job, s, ds[..|ds| - 1]);
      var d := ds[|ds| - 1];
      Run(cfg, job, d.worker, d.env, Loading, before, 0, d.crashAt)
  }

  ghost predicate AllQuiet(runId: string, ds: seq<Delivery>) {
    forall i :: 0 <= i < |ds| ==> Quiet(runId, ds[i].env)
  }

  /** Stage-shape theorem. Through any number of crashes and redeliveries of one job, with one live
      executor: the stored manifest is contract-valid, a running one has the stage shape, and no
      execution ever raises unless the probe duration cannot be read; whatever it returns is the
      stored terminal status. */
  lemma {:induction false} DeliveriesKeepShape(cfg: Config, job: ExecutionJob, s: Shared, ds: seq<Delivery>)
    requires GoodConfig(cfg) && AllQuiet(job.runId, ds) && Inv(cfg, job, Loading, s)
    ensures var (pc, s') := Deliver(cfg, job, s, ds);
            && Inv(cfg, job, pc, s')
            && job.runId in s'.runs
            && var m := s'.runs[job.runId].manifest;
               && m.Valid(cfg.screen)
               && (m.status.Running? ==> Shaped(job, m.stages))
               && (pc.Done? && pc.ending.Raised? ==> Duration(cfg, m.origin.parameters).Err?)
               && (pc.Done? && pc.ending.Returned? ==> m.status == pc.ending.status && m.status.IsTerminal())
  {
    hide AnalysisRun.Valid, GoodConfig, Stamped, Quiet;
    if ds == [] {
      ResumeInv(cfg, job, Loading, s);
    } else {
      var (pc, before) := Deliver(cfg, job, s, ds[..|ds| - 1]);
      DeliveriesKeepShape(cfg, job, s, ds[..|ds| - 1]);
      ResumeInv(cfg, job, pc, before);
      var d := ds[|ds| - 1];
      RunInv(cfg, job, d.worker, d.env, Loading, before, 0, d.crashAt);
      var (pc', s') := Run(cfg, job, d.worker, d.env, Loading, before, 0, d.crashAt);
      ResumeInv(cfg, job, pc', s');
    }
  }
}
