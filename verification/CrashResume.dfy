/** Crash and resume: with no cancellation an execution's outcome is a function of what is stored
    when it starts, so a crash before the first artifact write changes nothing, and a crash after
    it can only end in failure. */
module CrashResume {
  import opened Outcomes
  import opened Contract
  import opened Jobs
  import opened ObjectKeys
  import opened ObjectStorage
  import opened ExecutorMachine
  import opened RecordValidity
  import opened ExecutionInvariant

  // ---------------------------------------------------------------- a run only sees its own objects

  lemma MineStep(objects: Objects, runId: string)
    requires objects != []
    ensures if HasPrefix(objects[0].0, RunPrefix(runId))
            then Mine(objects, runId) != [] && Mine(objects, runId)[0] == objects[0]
                 && Mine(objects, runId)[1..] == Mine(objects[1..], runId)
            else Mine(objects, runId) == Mine(objects[1..], runId)
  {
  }

  lemma {:induction false} MineInputs(objects: Objects, runId: string)
    ensures Inputs(Mine(objects, runId), runId) == Inputs(objects, runId)
  {
    if objects != [] {
      MineInputs(objects[1..], runId);
      InputUnderRun(objects[0], runId);
      MineStep(objects, runId);
    }
  }

  lemma InputUnderRun(entry: (string, StoredObject), runId: string)
    ensures IsInputOf(entry, runId) ==> HasPrefix(entry.0, RunPrefix(runId))
  {
    if IsInputOf(entry, runId) {
      assert RunPrefix(runId) == InputPrefix(runId)[..|RunPrefix(runId)|];
    }
  }

  lemma ArtifactUnderRun(entry: (string, StoredObject), runId: string, artifactId: string)
    ensures IsArtifactOf(entry, runId, artifactId) ==> HasPrefix(entry.0, RunPrefix(runId))
  {
    if IsArtifactOf(entry, runId, artifactId) {
      assert RunPrefix(runId) == ArtifactPrefix(runId)[..|RunPrefix(runId)|];
    }
  }

  lemma {:induction false} MineResolve(objects: Objects, runId: string, artifactId: string)
    ensures Resolve(Mine(objects, runId), runId, artifactId) == Resolve(objects, runId, artifactId)
  {
    if objects != [] {
      MineResolve(objects[1..], runId, artifactId);
      ArtifactUnderRun(objects[0], runId, artifactId);
      MineStep(objects, runId);
    }
  }

  lemma {:induction false} MineHasKey(objects: Objects, runId: string, key: string)
    requires HasPrefix(key, RunPrefix(runId))
    ensures HasKey(Mine(objects, runId), key) <==> HasKey(objects, key)
  {
    if objects != [] {
      MineHasKey(objects[1..], runId, key);
      HasKeyCons(objects, key);
      MineStep(objects, runId);
      if HasPrefix(objects[0].0, RunPrefix(runId)) {
        HasKeyCons(Mine(objects, runId), key);
      }
    }
  }

  lemma HasKeyCons(objects: Objects, key: string)
    requires objects != []
    ensures HasKey(objects, key) <==> objects[0].0 == key || HasKey(objects[1..], key)
  {
    if HasKey(objects, key) {
      var i :| 0 <= i < |objects| && objects[i].0 == key;
      assert i > 0 ==> objects[1..][i - 1].0 == key;
    }
    if HasKey(objects[1..], key) {
      var i :| 0 <= i < |objects[1..]| && objects[1..][i].0 == key;
      assert objects[i + 1].0 == key;
    }
  }

  lemma {:induction false} MineAppend(objects: Objects, entry: (string, StoredObject), runId: string)
    ensures Mine(objects + [entry], runId)
         == Mine(objects, runId) + (if HasPrefix(entry.0, RunPrefix(runId)) then [entry] else [])
  {
    hide HasPrefix;
    var all := objects + [entry];
    var last := if HasPrefix(entry.0, RunPrefix(runId)) then [entry] else [];
    if objects == [] {
      assert all == [entry] && all[1..] == [];
      assert Mine(all, runId) == last + Mine(all[1..], runId);
    } else {
      assert all[0] == objects[0] && all[1..] == objects[1..] + [entry];
      var head := if HasPrefix(objects[0].0, RunPrefix(runId)) then [objects[0]] else [];
      MineAppend(objects[1..], entry, runId);
      assert Mine(all, runId) == head + Mine(all[1..], runId);
      assert Mine(objects, runId) == head + Mine(objects[1..], runId);
      assert head + (Mine(objects[1..], runId) + last) == (head + Mine(objects[1..], runId)) + last;
    }
  }

  /** The executor's storage accesses work on the run's own objects alone. */
  lemma MineWrite(sha: Bytes -> Digest, objects: Objects, runId: string, spec: ArtifactSpec)
    ensures var (r, after) := WriteArtifact(sha, objects, runId, spec);
            var (r', mine') := WriteArtifact(sha, Mine(objects, runId), runId, spec);
            r == r' && Mine(after, runId) == mine'
  {
    hide ArtifactReference.Valid;
    if ArtifactKey(runId, spec.relativePath).Ok? {
      var key := ArtifactKey(runId, spec.relativePath).value;
      KeyRest(runId, spec.relativePath);
      MineHasKey(objects, runId, key);
      MineAppend(objects, (key, ObjectOf(sha, spec)), runId);
    }
  }

  lemma MineReads(sha: Bytes -> Digest, objects: Objects, runId: string, ref: ArtifactReference)
    ensures InputObject(objects, runId) == InputObject(Mine(objects, runId), runId)
    ensures ReferenceIntact(sha, objects, runId, ref) <==> ReferenceIntact(sha, Mine(objects, runId), runId, ref)
  {
    MineInputs(objects, runId);
    MineResolve(objects, runId, ref.artifactId);
  }

  // ---------------------------------------------------------------- the closed form

  /** How an execution will end: the status, the published references, and the run's objects then. */
  datatype Fate = Fate(status: RunStatus, artifacts: seq<ArtifactReference>, objects: Objects)

  const FAILURE := Fate(Failed, [], [])

  function KeyOf(runId: string, spec: ArtifactSpec): string {
    RunPrefix(runId) + spec.relativePath
  }

  /** Item `j` of the plan is a write that the store, holding `mine`, would accept. */
  predicate Writable(cfg: Config, runId: string, mine: Objects, item: PlanItem) {
    && item.WriteIt?
    && ArtifactKey(runId, item.spec.relativePath).Ok?
    && !HasKey(mine, KeyOf(runId, item.spec))
    && ReferenceOf(cfg.sha, item.spec).Valid()
  }

  predicate CanWrite(cfg: Config, runId: string, mine: Objects, plan: seq<PlanItem>, k: nat) {
    forall j :: k <= j < |plan| ==> Writable(cfg, runId, mine, plan[j])
  }

  function RefOf(cfg: Config, item: PlanItem): ArtifactReference
    requires item.WriteIt?
  {
    ReferenceOf(cfg.sha, item.spec)
  }

  function EntryOf(cfg: Config, runId: string, item: PlanItem): (string, StoredObject)
    requires item.WriteIt?
  {
    (KeyOf(runId, item.spec), ObjectOf(cfg.sha, item.spec))
  }

  function PlanRefs(cfg: Config, plan: seq<PlanItem>): seq<ArtifactReference>
    requires forall j :: 0 <= j < |plan| ==> plan[j].WriteIt?
  {
    seq(|plan|, j requires 0 <= j < |plan| => RefOf(cfg, plan[j]))
  }

  function PlanEntries(cfg: Config, runId: string, plan: seq<PlanItem>): Objects
    requires forall j :: 0 <= j < |plan| ==> plan[j].WriteIt?
  {
    seq(|plan|, j requires 0 <= j < |plan| => EntryOf(cfg, runId, plan[j]))
  }

  function EndStatus(m: AnalysisRun): RunStatus {
    if ForcePartial(m) then Partial else Succeeded
  }

  /** With the first `k` items written and their references collected. */
  function PublishFate(cfg: Config, runId: string, m: AnalysisRun, mine: Objects, plan: seq<PlanItem>, k: nat,
                       refs: seq<ArtifactReference>): Fate
    requires k <= |plan|
  {
    if CanWrite(cfg, runId, mine, plan, k) && Concludes(m) then
      Fate(EndStatus(m), refs + PlanRefs(cfg, plan[k..]), mine + PlanEntries(cfg, runId, plan[k..]))
    else FAILURE
  }

  function BuildFate(cfg: Config, job: ExecutionJob, m: AnalysisRun, mine: Objects): Fate {
    match InputObject(mine, job.runId)
    case Err(_) => FAILURE
    case Ok((_, input)) =>
      match cfg.build(job.profile, m.origin, input.data, false)
      case Built(payloads) => PublishFate(cfg, job.runId, m, mine, Plan(cfg, payloads), 0, [])
      case BuildFailed(_, _) => FAILURE
      case BuildCancelled => FAILURE
  }

  /** The outcome of a complete, uncancelled execution, from what is stored at its start. */
  function StartFate(cfg: Config, job: ExecutionJob, m: AnalysisRun, mine: Objects): Fate {
    if m.status.IsTerminal() then EndFate(m, mine)
    else if Blocked(job) && |m.stages| > 2 then FAILURE
    else BuildFate(cfg, job, m, mine)
  }

  function EndFate(m: AnalysisRun, mine: Objects): Fate {
    Fate(m.status, m.artifacts, if m.status in {Succeeded, Partial} then mine else [])
  }

  /** The fate from any program point. */
  function FateOf(cfg: Config, job: ExecutionJob, pc: Pc, m: AnalysisRun, mine: Objects): Fate {
    match pc
    case InTry(l, point) =>
      if point.Publish? && l.payloads.Some? && point.k <= |Plan(cfg, l.payloads.value)| then
        PublishFate(cfg, job.runId, m, mine, Plan(cfg, l.payloads.value), point.k, l.artifacts)
      else if point.Verify? || point.Reload? then
        (if Concludes(m) then Fate(EndStatus(m), l.artifacts, mine) else FAILURE)
      else if point.SaveFinal? then Fate(point.final.status, point.final.artifacts, mine)
      else StartFate(cfg, job, m, mine)
    case SaveCancel(_) => Fate(Cancelled, [], [])
    case LoadForCancel(_) => Fate(Cancelled, [], [])
    case LoadForFail(_, _, _) => FAILURE
    case SaveFail(_) => FAILURE
    case _ => StartFate(cfg, job, m, mine)
  }

  // ---------------------------------------------------------------- assumptions of the fate

  /** Adapters observe a cancellation only when one is requested. */
  ghost predicate CancelsOnlyOnRequest(cfg: Config) {
    forall p, o, b :: !cfg.build(p, o, b, false).BuildCancelled?
  }

  /** The path at which publication stores an artifact of this id. */
  function PathOf(artifactId: string): string {
    if artifactId == "legacy-player-summary" then ArtifactFile("dashboard-track-summary")
    else if artifactId == "dashboard-workload-advisory" then ArtifactFile("dashboard-workload-advisory")
    else ArtifactFile(artifactId)
  }

  /** Every artifact object of the run sits at the path its id determines. */
  ghost predicate OwnPaths(mine: Objects, runId: string) {
    forall i :: 0 <= i < |mine| && HasPrefix(mine[i].0, ArtifactPrefix(runId)) && mine[i].1.artifactId.Some? ==>
      mine[i].0 == RunPrefix(runId) + PathOf(mine[i].1.artifactId.value)
  }

  /** The stored objects, and the references verified or to be verified. */
  ghost predicate ObjectsInv(cfg: Config, job: ExecutionJob, pc: Pc, mine: Objects) {
    && KeysUnique(mine) && OwnPaths(mine, job.runId)
    && (pc.InTry? && (pc.point.Publish? || pc.point.Verify? || pc.point.Reload?) ==>
          forall j :: 0 <= j < |pc.locals.artifacts| ==>
            ReferenceIntact(cfg.sha, mine, job.runId, pc.locals.artifacts[j]))
  }

  /** Payloads in hand are the ones the stored input builds. */
  ghost predicate PayloadInv(cfg: Config, job: ExecutionJob, pc: Pc, m: AnalysisRun, mine: Objects) {
    pc.InTry? && pc.locals.payloads.Some? ==>
      && InputObject(mine, job.runId).Ok?
      && cfg.build(job.profile, m.origin, InputObject(mine, job.runId).value.1.data, false)
         == Built(pc.locals.payloads.value)
  }

  /** A good state of an execution nobody cancels. */
  ghost predicate Calm(cfg: Config, job: ExecutionJob, pc: Pc, s: Shared) {
    && Inv(cfg, job, pc, s)
    && !s.runs[job.runId].cancelRequested
    && !pc.SaveQueuedCancel? && !pc.LoadForCancel? && !pc.SaveCancel?
    && ObjectsInv(cfg, job, pc, Mine(s.objects, job.runId))
    && PayloadInv(cfg, job, pc, s.runs[job.runId].manifest, Mine(s.objects, job.runId))
    && Duration(cfg, s.runs[job.runId].manifest.origin.parameters).Ok?
  }

  function FateIn(cfg: Config, job: ExecutionJob, pc: Pc, s: Shared): Fate
    requires job.runId in s.runs
  {
    FateOf(cfg, job, pc, s.runs[job.runId].manifest, Mine(s.objects, job.runId))
  }

  /** One more reason an environment is quiet: it requests no cancellation of this run. */
  ghost predicate Peaceful(runId: string, env: Environment) {
    && Quiet(runId, env)
    && forall k: nat, s: Shared :: runId in s.runs && !s.runs[runId].cancelRequested ==>
         runId in env(k, s).runs && !env(k, s).runs[runId].cancelRequested
  }

  /** Nobody else is there. */
  function Alone(): Environment {
    (k: nat, s: Shared) => s
  }

  lemma AloneIsPeaceful(runId: string)
    ensures Quiet(runId, Alone()) && Peaceful(runId, Alone())
  {
    hide Mine;
  }

  // ---------------------------------------------------------------- the fate is preserved

  /** What the fate of an unfinished run depends on. */
  ghost predicate SameSkeleton(m: AnalysisRun, m': AnalysisRun) {
    && m.origin == m'.origin && |m.stages| == |m'.stages|
    && (forall i :: 0 <= i < |m.stages| ==> m.stages[i].required == m'.stages[i].required)
    && !m.status.IsTerminal() && !m'.status.IsTerminal()
  }

  lemma SkeletonFate(cfg: Config, job: ExecutionJob, m: AnalysisRun, m': AnalysisRun, mine: Objects)
    requires SameSkeleton(m, m')
    ensures StartFate(cfg, job, m, mine) == StartFate(cfg, job, m', mine)
  {
    hide Plan, CanWrite, InputObject;
  }

  lemma AtPublishFate(cfg: Config, job: ExecutionJob, l: Locals, k: nat, mine: Objects)
    requires l.payloads.Some? && k <= |Plan(cfg, l.payloads.value)|
    ensures FateOf(cfg, job, AtPublish(cfg, l, k), l.run, mine)
         == PublishFate(cfg, job.runId, l.run, mine, Plan(cfg, l.payloads.value), k, l.artifacts)
  {
    hide Plan;
    var plan := Plan(cfg, l.payloads.value);
    if k == |plan| {
      assert plan[k..] == [];
      assert l.artifacts + PlanRefs(cfg, plan[k..]) == l.artifacts;
      assert mine + PlanEntries(cfg, job.runId, plan[k..]) == mine;
    } else if plan[k].Raise? {
      assert !Writable(cfg, job.runId, mine, plan[k]);
    }
  }

  lemma {:induction false} AtStageFate(cfg: Config, job: ExecutionJob, l: Locals, i: nat, k: nat, mine: Objects)
    requires l.artifacts == [] && l.run.status.Running? && i <= k && ShapeFor(job, l.run.stages, k)
    requires PayloadInv(cfg, job, InTry(l, BuildLate), l.run, mine)
    ensures FateOf(cfg, job, AtStage(cfg, job, l, i), l.run, mine) == StartFate(cfg, job, l.run, mine)
    decreases |l.run.stages| - i
  {
    hide Plan, CanWrite, InputObject;
    if i >= |l.run.stages| {
      if l.payloads.Some? {
        AtPublishFate(cfg, job, l, 0, mine);
      }
    } else if StageDone(l.run.stages[i]) {
      AtStageFate(cfg, job, l.(active := i), i + 1, k, mine);
    }
  }

  lemma EnterFate(cfg: Config, job: ExecutionJob, m: AnalysisRun, mine: Objects)
    requires m.status.Running? && Shaped(job, m.stages) && Duration(cfg, m.origin.parameters).Ok?
    ensures FateOf(cfg, job, EnterTry(cfg, job, m), m, mine) == StartFate(cfg, job, m, mine)
  {
    hide Plan, CanWrite, InputObject, Duration, AnalysisRun.Valid;
    var k: nat :| ShapeFor(job, m.stages, k);
    AtStageFate(cfg, job, Locals(m, -1, None, []), 0, k, mine);
  }

  // ---------------------------------------------------------------- each step preserves it

  /** The next state is calm again and heads for the same fate. */
  ghost predicate KeepsFate(cfg: Config, job: ExecutionJob, worker: string, pc: Pc, s: Shared)
    requires PcOk(cfg, pc) && job.runId in s.runs
  {
    var (pc', s') := Next(cfg, job, worker, pc, s);
    && Calm(cfg, job, pc', s')
    && FateIn(cfg, job, pc', s') == FateIn(cfg, job, pc, s)
  }

  lemma TryFacts(cfg: Config, job: ExecutionJob, l: Locals, point: TryPoint, s: Shared)
    requires Inv(cfg, job, InTry(l, point), s)
    ensures job.runId in s.runs && l.run == s.runs[job.runId].manifest && l.run.status.Running?
    ensures PayloadsDistinct(l) && IsUuid4(job.runId)
    ensures StoredOk(cfg, l.run, job.runId, s.clock) && PointInv(cfg, job, l, point)
  {
    hide AnalysisRun.ComponentsValid, PointInv, Stamped;
  }

  lemma StartKeepsFate(cfg: Config, job: ExecutionJob, worker: string, pc: Pc, s: Shared)
    requires GoodConfig(cfg) && PcOk(cfg, pc) && Calm(cfg, job, pc, s)
    requires pc.Loading? || pc.CheckQueued? || pc.SaveStart?
    ensures KeepsFate(cfg, job, worker, pc, s)
  {
    hide Plan, CanWrite, InputObject, Duration, StageExecution.Valid, GoodConfig;
    StepInv(cfg, job, worker, pc, s);
    var m, mine := s.runs[job.runId].manifest, Mine(s.objects, job.runId);
    match pc
    case Loading =>
      if m.status.Running? {
        EnterFate(cfg, job, m, mine);
        EnterCalm(cfg, job, m);
      }
    case CheckQueued(_) =>
    case SaveStart(run) =>
      StartValid(cfg, m, s.clock);
      var next := m.(status := Running, startedAt := Some(s.clock));
      SkeletonFate(cfg, job, m, next, mine);
      assert ShapeFor(job, next.stages, 0);
      EnterFate(cfg, job, next, mine);
      EnterCalm(cfg, job, next);
  }

  /** Entering the try block leads to a stage, to the build, or nowhere else. */
  lemma EnterCalm(cfg: Config, job: ExecutionJob, m: AnalysisRun)
    requires Duration(cfg, m.origin.parameters).Ok?
    ensures var pc := EnterTry(cfg, job, m);
            pc.InTry? && pc.locals.payloads.None? && !pc.point.Publish? && !pc.point.Verify? && !pc.point.Reload?
  {
    hide Duration;
    AtStageCalm(cfg, job, Locals(m, -1, None, []), 0);
  }

  lemma {:induction false} AtStageCalm(cfg: Config, job: ExecutionJob, l: Locals, i: nat)
    requires l.artifacts == []
    ensures var pc := AtStage(cfg, job, l, i);
            && (pc.InTry? ==> pc.locals.payloads == l.payloads && pc.locals.artifacts == [])
            && (pc.LoadForFail? || (pc.InTry? && !pc.point.Verify? && !pc.point.Reload?))
            && (l.payloads.None? ==> pc.InTry? && !pc.point.Publish?)
    decreases |l.run.stages| - i
  {
    if i < |l.run.stages| && StageDone(l.run.stages[i]) {
      AtStageCalm(cfg, job, l.(active := i), i + 1);
    }
  }

  lemma StageKeepsFate(cfg: Config, job: ExecutionJob, l: Locals, i: nat, mine: Objects, stage: StageExecution,
                       advances: bool)
    requires l.run.status.Running? && l.artifacts == [] && i < |l.run.stages|
    requires KeysUnique(mine) && OwnPaths(mine, job.runId) && PayloadInv(cfg, job, InTry(l, BuildLate), l.run, mine)
    requires SameStage(l.run.stages[i], stage)
    requires advances ==> ShapeFor(job, l.run.stages[i := stage], i + 1)
    ensures var l' := l.(run := l.run.(stages := l.run.stages[i := stage]));
            && StartFate(cfg, job, l'.run, mine) == StartFate(cfg, job, l.run, mine)
            && (advances ==> FateOf(cfg, job, AtStage(cfg, job, l', i + 1), l'.run, mine) == StartFate(cfg, job, l.run, mine))
            && PayloadInv(cfg, job, InTry(l', BuildLate), l'.run, mine)
            && ObjectsInv(cfg, job, AtStage(cfg, job, l', i + 1), mine)
            && PayloadInv(cfg, job, AtStage(cfg, job, l', i + 1), l'.run, mine)
            && (AtStage(cfg, job, l', i + 1).InTry? || AtStage(cfg, job, l', i + 1).LoadForFail?)
  {
    hide Plan, CanWrite, InputObject, StartFate, FateOf;
    var l' := l.(run := l.run.(stages := l.run.stages[i := stage]));
    SkeletonFate(cfg, job, l.run, l'.run, mine);
    AtStageCalm(cfg, job, l', i + 1);
    if advances {
      AtStageFate(cfg, job, l', i + 1, i + 1, mine);
    }
  }

  lemma SkipKeepsFate(cfg: Config, job: ExecutionJob, worker: string, l: Locals, i: nat, s: Shared)
    requires GoodConfig(cfg) && PcOk(cfg, InTry(l, SaveSkip(i))) && Calm(cfg, job, InTry(l, SaveSkip(i)), s)
    ensures KeepsFate(cfg, job, worker, InTry(l, SaveSkip(i)), s)
  {
    hide Inv, Plan, CanWrite, InputObject, Duration, StageExecution.Valid, GoodConfig, StartFate, AnalysisRun.Valid,
         Stamped, AtStage, ShapeFor, PayloadsDistinct, SafeText, OwnPaths, KeysUnique;
    TryFacts(cfg, job, l, SaveSkip(i), s);
    StepInv(cfg, job, worker, InTry(l, SaveSkip(i)), s);
    StageOf(cfg, l.run, job.runId, s.clock, i);
    var stage := SkippedStage(l.run.stages[i], s.clock);
    SkippedValid(cfg, l.run.stages[i], s.clock);
    StageSaved(cfg, job, s, l, i, stage, l' => AtStage(cfg, job, l', i + 1));
    AdvanceShape(job, l.run.stages, i, stage);
    StageKeepsFate(cfg, job, l, i, Mine(s.objects, job.runId), stage, true);
  }

  lemma RunningKeepsFate(cfg: Config, job: ExecutionJob, worker: string, l: Locals, i: nat, s: Shared)
    requires GoodConfig(cfg) && PcOk(cfg, InTry(l, SaveRunning(i))) && Calm(cfg, job, InTry(l, SaveRunning(i)), s)
    ensures KeepsFate(cfg, job, worker, InTry(l, SaveRunning(i)), s)
  {
    hide Inv, Plan, CanWrite, InputObject, Duration, StageExecution.Valid, GoodConfig, StartFate, AnalysisRun.Valid,
         Stamped, AtStage, ShapeFor, PayloadsDistinct, SafeText, OwnPaths, KeysUnique;
    TryFacts(cfg, job, l, SaveRunning(i), s);
    StepInv(cfg, job, worker, InTry(l, SaveRunning(i)), s);
    StageOf(cfg, l.run, job.runId, s.clock, i);
    var stage := RunningStage(l.run.stages[i], s.clock);
    RunningValid(cfg, l.run.stages[i], s.clock);
    StageSaved(cfg, job, s, l, i, stage, l' =>
      if job.profile.V1Compat? && l.run.stages[i].stageName.Detection? then InTry(l', BuildAtDetection(i))
      else InTry(l', CheckAfter(i)));
    StageKeepsFate(cfg, job, l, i, Mine(s.objects, job.runId), stage, false);
  }

  lemma FinishedKeepsFate(cfg: Config, job: ExecutionJob, worker: string, l: Locals, i: nat, s: Shared)
    requires GoodConfig(cfg) && PcOk(cfg, InTry(l, SaveFinished(i))) && Calm(cfg, job, InTry(l, SaveFinished(i)), s)
    ensures KeepsFate(cfg, job, worker, InTry(l, SaveFinished(i)), s)
  {
    hide Inv, Plan, CanWrite, InputObject, Duration, StageExecution.Valid, GoodConfig, StartFate, AnalysisRun.Valid,
         Stamped, AtStage, ShapeFor, PayloadsDistinct, SafeText, OwnPaths, KeysUnique;
    TryFacts(cfg, job, l, SaveFinished(i), s);
    StepInv(cfg, job, worker, InTry(l, SaveFinished(i)), s);
    StageOf(cfg, l.run, job.runId, s.clock, i);
    var metrics := cfg.metrics(job, worker, l.run.stages[i].stageName);
    var stage := FinishedStage(l.run.stages[i], s.clock, metrics);
    FinishedValid(cfg, l.run.stages[i], s.clock, metrics);
    StageSaved(cfg, job, s, l, i, stage, l' => AtStage(cfg, job, l', i + 1));
    AdvanceShape(job, l.run.stages, i, stage);
    StageKeepsFate(cfg, job, l, i, Mine(s.objects, job.runId), stage, true);
  }

  lemma ChecksKeepFate(cfg: Config, job: ExecutionJob, worker: string, l: Locals, point: TryPoint, s: Shared)
    requires GoodConfig(cfg) && PcOk(cfg, InTry(l, point)) && Calm(cfg, job, InTry(l, point), s)
    requires point.CheckBefore? || point.CheckAfter?
    ensures KeepsFate(cfg, job, worker, InTry(l, point), s)
  {
    hide Inv, Plan, CanWrite, InputObject, Duration, StageExecution.Valid, GoodConfig, AnalysisRun.Valid;
    TryFacts(cfg, job, l, point, s);
    StepInv(cfg, job, worker, InTry(l, point), s);
  }

  lemma BuildsKeepFate(cfg: Config, job: ExecutionJob, worker: string, l: Locals, point: TryPoint, s: Shared)
    requires GoodConfig(cfg) && CancelsOnlyOnRequest(cfg)
    requires PcOk(cfg, InTry(l, point)) && Calm(cfg, job, InTry(l, point), s)
    requires point.BuildLate? || point.BuildAtDetection?
    ensures KeepsFate(cfg, job, worker, InTry(l, point), s)
  {
    hide Inv, PcInv, OwnPaths, KeysUnique, Stamped, PublishFate, Plan, CanWrite, InputObject, Duration, StageExecution.Valid, GoodConfig, AnalysisRun.Valid;
    TryFacts(cfg, job, l, point, s);
    StepInv(cfg, job, worker, InTry(l, point), s);
    var mine := Mine(s.objects, job.runId);
    MineInputs(s.objects, job.runId);
    assert InputObject(s.objects, job.runId) == InputObject(mine, job.runId) by {
      MineInputs(s.objects, job.runId);
      InputsDecide(s.objects, mine, job.runId);
    }
    var input := InputObject(mine, job.runId);
    if input.Ok? {
      var built := cfg.build(job.profile, l.run.origin, input.value.1.data, false);
      if built.Built? && point.BuildLate? {
        AtPublishFate(cfg, job, l.(payloads := Some(built.payloads)), 0, mine);
        AtPublishCalm(cfg, l.(payloads := Some(built.payloads)));
      }
    }
  }

  lemma InputsDecide(a: Objects, b: Objects, runId: string)
    requires Inputs(a, runId) == Inputs(b, runId)
    ensures InputObject(a, runId) == InputObject(b, runId)
  {
  }

  lemma AtPublishCalm(cfg: Config, l: Locals)
    requires l.payloads.Some?
    ensures var pc := AtPublish(cfg, l, 0);
            pc.LoadForFail? || (pc.InTry? && pc.point.Publish? && pc.locals == l)
  {
    PlanNonEmpty(cfg, l.payloads.value);
    hide Plan;
  }

  lemma PlanNonEmpty(cfg: Config, payloads: seq<Payload>)
    ensures |Plan(cfg, payloads)| == |payloads| + 2
  {
  }

  // ---------------------------------------------------------------- publication

  lemma {:induction false} KeysAppend(mine: Objects, entry: (string, StoredObject), key: string)
    ensures HasKey(mine + [entry], key) <==> HasKey(mine, key) || entry.0 == key
  {
    var all := mine + [entry];
    if HasKey(mine, key) {
      var i :| 0 <= i < |mine| && mine[i].0 == key;
      assert all[i].0 == key;
    }
    if entry.0 == key {
      assert all[|mine|].0 == key;
    }
    if HasKey(all, key) {
      var i :| 0 <= i < |all| && all[i].0 == key;
      assert i < |mine| ==> mine[i].0 == key;
    }
  }

  /** Distinct planned writes do not get in each other's way. */
  lemma WriteNext(cfg: Config, runId: string, mine: Objects, payloads: seq<Payload>, k: nat)
    requires forall a, b :: 0 <= a < b < |payloads| ==> payloads[a].artifactId != payloads[b].artifactId
    requires k < |Plan(cfg, payloads)| && Writable(cfg, runId, mine, Plan(cfg, payloads)[k])
    ensures var plan := Plan(cfg, payloads);
            CanWrite(cfg, runId, mine, plan, k)
            <==> CanWrite(cfg, runId, mine + [EntryOf(cfg, runId, plan[k])], plan, k + 1)
  {
    hide Plan, ArtifactReference.Valid;
    var plan := Plan(cfg, payloads);
    var entry := EntryOf(cfg, runId, plan[k]);
    forall j | k < j < |plan|
      ensures Writable(cfg, runId, mine, plan[j]) <==> Writable(cfg, runId, mine + [entry], plan[j])
    {
      if plan[j].WriteIt? {
        PlanDistinct(cfg, payloads, k, j);
        PathKeysDiffer(runId, plan[k].spec.relativePath, plan[j].spec.relativePath);
        KeysAppend(mine, entry, KeyOf(runId, plan[j].spec));
      }
    }
  }

  lemma PathKeysDiffer(runId: string, p: string, q: string)
    requires p != q
    ensures RunPrefix(runId) + p != RunPrefix(runId) + q
  {
    var prefix := RunPrefix(runId);
    assert (prefix + p)[|prefix|..] == p && (prefix + q)[|prefix|..] == q;
  }

  lemma FatePeels(cfg: Config, runId: string, m: AnalysisRun, mine: Objects, plan: seq<PlanItem>, k: nat,
                  refs: seq<ArtifactReference>)
    requires k < |plan| && plan[k].WriteIt?
    requires CanWrite(cfg, runId, mine, plan, k)
         <==> CanWrite(cfg, runId, mine + [EntryOf(cfg, runId, plan[k])], plan, k + 1)
    ensures PublishFate(cfg, runId, m, mine, plan, k, refs)
         == PublishFate(cfg, runId, m, mine + [EntryOf(cfg, runId, plan[k])], plan, k + 1, refs + [RefOf(cfg, plan[k])])
  {
    hide Writable, Concludes;
    if CanWrite(cfg, runId, mine, plan, k) {
      AllWrites(cfg, runId, mine, plan, k);
      var rest, tail := plan[k..], plan[k + 1..];
      assert rest == [plan[k]] + tail;
      assert PlanRefs(cfg, rest) == [RefOf(cfg, plan[k])] + PlanRefs(cfg, tail);
      assert PlanEntries(cfg, runId, rest) == [EntryOf(cfg, runId, plan[k])] + PlanEntries(cfg, runId, tail);
      assert refs + PlanRefs(cfg, rest) == (refs + [RefOf(cfg, plan[k])]) + PlanRefs(cfg, tail);
      assert mine + PlanEntries(cfg, runId, rest)
          == (mine + [EntryOf(cfg, runId, plan[k])]) + PlanEntries(cfg, runId, tail);
    }
  }

  lemma AllWrites(cfg: Config, runId: string, mine: Objects, plan: seq<PlanItem>, k: nat)
    requires CanWrite(cfg, runId, mine, plan, k)
    ensures forall j :: k <= j < |plan| ==> plan[j].WriteIt?
  {
    forall j | k <= j < |plan| ensures plan[j].WriteIt? {
      assert Writable(cfg, runId, mine, plan[j]);
    }
  }

  /** A planned write keeps every artifact at its own path. */
  lemma PlanPath(cfg: Config, payloads: seq<Payload>, k: nat)
    requires k < |Plan(cfg, payloads)| && Plan(cfg, payloads)[k].WriteIt?
    ensures Plan(cfg, payloads)[k].spec.relativePath == PathOf(Plan(cfg, payloads)[k].spec.artifactId)
  {
    if k < |payloads| {
      AliasIdsUnknown();
      SummaryApart(payloads[k].artifactId);
      AdvisoryApart(payloads[k].artifactId);
    }
  }

  lemma OwnPathsAppend(cfg: Config, runId: string, mine: Objects, spec: ArtifactSpec)
    requires OwnPaths(mine, runId) && spec.relativePath == PathOf(spec.artifactId)
    ensures OwnPaths(mine + [(KeyOf(runId, spec), ObjectOf(cfg.sha, spec))], runId)
  {
  }

  /** Reading any earlier reference is undisturbed by a new object, and a fresh one reads back. */
  lemma {:induction false} ResolveAppend(mine: Objects, entry: (string, StoredObject), runId: string, artifactId: string)
    ensures Resolve(mine, runId, artifactId).Some? ==>
      Resolve(mine + [entry], runId, artifactId) == Resolve(mine, runId, artifactId)
    ensures Resolve(mine, runId, artifactId).None? && IsArtifactOf(entry, runId, artifactId) ==>
      Resolve(mine + [entry], runId, artifactId) == Some(entry.1)
  {
    if mine == [] {
      assert mine + [entry] == [entry];
    } else {
      assert (mine + [entry])[1..] == mine[1..] + [entry];
      if !IsArtifactOf(mine[0], runId, artifactId) {
        ResolveAppend(mine[1..], entry, runId, artifactId);
      }
    }
  }

  /** No object answers for an id whose own path is still free. */
  lemma FreeMeansUnresolved(mine: Objects, runId: string, artifactId: string)
    requires OwnPaths(mine, runId) && !HasKey(mine, RunPrefix(runId) + PathOf(artifactId))
    ensures Resolve(mine, runId, artifactId).None?
  {
    ResolveSome(mine, runId, artifactId);
  }

  lemma FreshReadsBack(cfg: Config, runId: string, mine: Objects, spec: ArtifactSpec)
    requires OwnPaths(mine, runId) && spec.relativePath == PathOf(spec.artifactId)
    requires ArtifactKey(runId, spec.relativePath).Ok? && !HasKey(mine, KeyOf(runId, spec))
    ensures ReferenceIntact(cfg.sha, mine + [(KeyOf(runId, spec), ObjectOf(cfg.sha, spec))], runId,
                            ReferenceOf(cfg.sha, spec))
  {
    var entry := (KeyOf(runId, spec), ObjectOf(cfg.sha, spec));
    FreeMeansUnresolved(mine, runId, spec.artifactId);
    ArtifactApartFromInputs(runId, spec.relativePath, runId);
    ResolveAppend(mine, entry, runId, spec.artifactId);
  }

  lemma IntactAppend(cfg: Config, runId: string, mine: Objects, entry: (string, StoredObject), ref: ArtifactReference)
    requires ReferenceIntact(cfg.sha, mine, runId, ref)
    ensures ReferenceIntact(cfg.sha, mine + [entry], runId, ref)
  {
    ResolveAppend(mine, entry, runId, ref.artifactId);
  }

  /** One successful write: what it leaves, in terms of the run's own objects. */
  lemma WriteEffect(cfg: Config, job: ExecutionJob, l: Locals, k: nat, mine: Objects)
    requires l.payloads.Some? && k < |Plan(cfg, l.payloads.value)| && Plan(cfg, l.payloads.value)[k].WriteIt?
    requires IsUuid4(job.runId) && ObjectsInv(cfg, job, InTry(l, Publish(k)), mine)
    ensures var spec := Plan(cfg, l.payloads.value)[k].spec;
            var (r, mine') := WriteArtifact(cfg.sha, mine, job.runId, spec);
            && (r.Ok? <==> Writable(cfg, job.runId, mine, Plan(cfg, l.payloads.value)[k]))
            && (r.Ok? ==>
                  && mine' == mine + [EntryOf(cfg, job.runId, Plan(cfg, l.payloads.value)[k])]
                  && r.value == ReferenceOf(cfg.sha, spec)
                  && ObjectsInv(cfg, job, InTry(l.(artifacts := l.artifacts + [r.value]), Publish(k + 1)), mine'))
            && (r.Err? ==> KeysUnique(mine') && OwnPaths(mine', job.runId))
            && InputObject(mine', job.runId) == InputObject(mine, job.runId)
  {
    hide Plan, ArtifactReference.Valid, Resolve, InputObject;
    var item := Plan(cfg, l.payloads.value)[k];
    var spec := item.spec;
    WriteKeepsInputs(cfg.sha, mine, job.runId, spec, job.runId);
    PlanPath(cfg, l.payloads.value, k);
    var (r, mine') := WriteArtifact(cfg.sha, mine, job.runId, spec);
    if ArtifactKey(job.runId, spec.relativePath).Ok? && !HasKey(mine, KeyOf(job.runId, spec)) {
      var entry := (KeyOf(job.runId, spec), ObjectOf(cfg.sha, spec));
      assert mine' == mine + [entry];
      OwnPathsAppend(cfg, job.runId, mine, spec);
      if r.Ok? {
        FreshReadsBack(cfg, job.runId, mine, spec);
        forall j | 0 <= j < |l.artifacts| ensures ReferenceIntact(cfg.sha, mine', job.runId, l.artifacts[j]) {
          IntactAppend(cfg, job.runId, mine, entry, l.artifacts[j]);
        }
      }
    }
  }

  lemma PublishKeepsFate(cfg: Config, job: ExecutionJob, worker: string, l: Locals, k: nat, s: Shared)
    requires GoodConfig(cfg) && PcOk(cfg, InTry(l, Publish(k))) && Calm(cfg, job, InTry(l, Publish(k)), s)
    ensures KeepsFate(cfg, job, worker, InTry(l, Publish(k)), s)
  {
    hide Plan, CanWrite, Writable, InputObject, Duration, StageExecution.Valid, GoodConfig, Stamped, ReferenceIntact,
         WriteArtifact, PublishFate, OwnPaths, ArtifactReference.Valid, Inv, StartFate, Concludes, ArtifactKey,
         ReferenceOf, KeysUnique;
    TryFacts(cfg, job, l, Publish(k), s);
    StepInv(cfg, job, worker, InTry(l, Publish(k)), s);
    var mine := Mine(s.objects, job.runId);
    var payloads := l.payloads.value;
    var item := Plan(cfg, payloads)[k];
    MineWrite(cfg.sha, s.objects, job.runId, item.spec);
    WriteEffect(cfg, job, l, k, mine);
    var (r, mine') := WriteArtifact(cfg.sha, mine, job.runId, item.spec);
    if r.Ok? {
      WriteNext(cfg, job.runId, mine, payloads, k);
      FatePeels(cfg, job.runId, l.run, mine, Plan(cfg, payloads), k, l.artifacts);
      AtPublishFate(cfg, job, l.(artifacts := l.artifacts + [r.value]), k + 1, mine');
    } else {
      Unpublishable(cfg, job, l.run, mine, Plan(cfg, payloads), k, l.artifacts);
    }
  }

  lemma Unpublishable(cfg: Config, job: ExecutionJob, m: AnalysisRun, mine: Objects, plan: seq<PlanItem>, k: nat,
                      refs: seq<ArtifactReference>)
    requires k < |plan| && !Writable(cfg, job.runId, mine, plan[k])
    ensures PublishFate(cfg, job.runId, m, mine, plan, k, refs) == FAILURE
  {
    hide Writable;
  }

  lemma VerifyKeepsFate(cfg: Config, job: ExecutionJob, worker: string, l: Locals, k: nat, s: Shared)
    requires GoodConfig(cfg) && PcOk(cfg, InTry(l, Verify(k))) && Calm(cfg, job, InTry(l, Verify(k)), s)
    ensures KeepsFate(cfg, job, worker, InTry(l, Verify(k)), s)
  {
    hide Inv, Plan, CanWrite, InputObject, Duration, StageExecution.Valid, GoodConfig, Stamped, ReferenceIntact, OwnPaths;
    TryFacts(cfg, job, l, Verify(k), s);
    StepInv(cfg, job, worker, InTry(l, Verify(k)), s);
    MineReads(cfg.sha, s.objects, job.runId, l.artifacts[k]);
  }

  lemma ConcludeKeepsFate(cfg: Config, job: ExecutionJob, worker: string, l: Locals, point: TryPoint, s: Shared)
    requires GoodConfig(cfg) && Calm(cfg, job, InTry(l, point), s) && (point.Reload? || point.SaveFinal?)
    ensures KeepsFate(cfg, job, worker, InTry(l, point), s)
  {
    hide Inv, Plan, CanWrite, InputObject, Duration, StageExecution.Valid, GoodConfig, ReferenceIntact, OwnPaths,
         FinalRecord, Stamped, ArtifactReference.Valid;
    TryFacts(cfg, job, l, point, s);
    StepInv(cfg, job, worker, InTry(l, point), s);
    match point
    case Reload =>
      FinalOutcome(cfg, job, l, s.clock);
    case SaveFinal(final) =>
      TerminalSaved(cfg, job, s, final);
  }

  lemma FailureKeepsFate(cfg: Config, job: ExecutionJob, worker: string, pc: Pc, s: Shared)
    requires GoodConfig(cfg) && Calm(cfg, job, pc, s) && (pc.LoadForFail? || pc.SaveFail?)
    ensures KeepsFate(cfg, job, worker, pc, s)
  {
    hide Plan, CanWrite, InputObject, Duration, StageExecution.Valid, GoodConfig, OwnPaths, FailRecord, Stamped;
    StepInv(cfg, job, worker, pc, s);
    match pc
    case LoadForFail(active, code, message) =>
      FailOutcome(cfg, job, s.runs[job.runId].manifest, active, code, message, s.clock);
    case SaveFail(failed) =>
      TerminalSaved(cfg, job, s, failed);
  }

  lemma TryKeepsFate(cfg: Config, job: ExecutionJob, worker: string, l: Locals, point: TryPoint, s: Shared)
    requires GoodConfig(cfg) && CancelsOnlyOnRequest(cfg)
    requires PcOk(cfg, InTry(l, point)) && Calm(cfg, job, InTry(l, point), s)
    ensures KeepsFate(cfg, job, worker, InTry(l, point), s)
  {
    hide GoodConfig, Calm, KeepsFate, CancelsOnlyOnRequest;
    match point
    case SaveSkip(i) => SkipKeepsFate(cfg, job, worker, l, i, s);
    case CheckBefore(i) => ChecksKeepFate(cfg, job, worker, l, point, s);
    case SaveRunning(i) => RunningKeepsFate(cfg, job, worker, l, i, s);
    case BuildAtDetection(i) => BuildsKeepFate(cfg, job, worker, l, point, s);
    case CheckAfter(i) => ChecksKeepFate(cfg, job, worker, l, point, s);
    case SaveFinished(i) => FinishedKeepsFate(cfg, job, worker, l, i, s);
    case BuildLate => BuildsKeepFate(cfg, job, worker, l, point, s);
    case Publish(k) => PublishKeepsFate(cfg, job, worker, l, k, s);
    case Verify(k) => VerifyKeepsFate(cfg, job, worker, l, k, s);
    case Reload => ConcludeKeepsFate(cfg, job, worker, l, point, s);
    case SaveFinal(_) => ConcludeKeepsFate(cfg, job, worker, l, point, s);
  }

  // ---------------------------------------------------------------- whole executions preserve it

  /** Every step of a calm execution heads for the same outcome. */
  lemma StepKeepsFate(cfg: Config, job: ExecutionJob, worker: string, pc: Pc, s: Shared)
    requires GoodConfig(cfg) && CancelsOnlyOnRequest(cfg) && PcOk(cfg, pc) && Calm(cfg, job, pc, s)
    ensures KeepsFate(cfg, job, worker, pc, s)
  {
    hide GoodConfig, KeepsFate, CancelsOnlyOnRequest, Inv, ObjectsInv, PayloadInv, Duration;
    match pc
    case InTry(l, point) => TryKeepsFate(cfg, job, worker, l, point, s);
    case LoadForFail(_, _, _) => FailureKeepsFate(cfg, job, worker, pc, s);
    case SaveFail(_) => FailureKeepsFate(cfg, job, worker, pc, s);
    case Done(_) => DoneKeepsFate(cfg, job, worker, pc, s);
    case _ => StartKeepsFate(cfg, job, worker, pc, s);
  }

  lemma DoneKeepsFate(cfg: Config, job: ExecutionJob, worker: string, pc: Pc, s: Shared)
    requires PcOk(cfg, pc) && Calm(cfg, job, pc, s) && pc.Done?
    ensures KeepsFate(cfg, job, worker, pc, s)
  {
    hide Inv, ObjectsInv, PayloadInv, Duration, StartFate;
  }

  lemma PeaceKeepsFate(cfg: Config, job: ExecutionJob, pc: Pc, s: Shared, s': Shared)
    requires Calm(cfg, job, pc, s) && QuietStep(job.runId, s, s')
    requires job.runId in s'.runs && !s'.runs[job.runId].cancelRequested
    ensures Calm(cfg, job, pc, s') && FateIn(cfg, job, pc, s') == FateIn(cfg, job, pc, s)
  {
    hide PcInv, StoredOk, ObjectsInv, PayloadInv, Duration, FateOf, Mine;
    assert Inv(cfg, job, pc, s') by {
      InvQuiet(cfg, job, pc, s, s');
    }
  }

  lemma {:induction false} RunKeepsFate(cfg: Config, job: ExecutionJob, worker: string, env: Environment, pc: Pc,
                                        s: Shared, tick: nat, fuel: nat)
    requires GoodConfig(cfg) && CancelsOnlyOnRequest(cfg) && Peaceful(job.runId, env)
    requires PcOk(cfg, pc) && Calm(cfg, job, pc, s)
    ensures var (pc', s') := Run(cfg, job, worker, env, pc, s, tick, fuel);
            && Calm(cfg, job, pc', s')
            && FateIn(cfg, job, pc', s') == FateIn(cfg, job, pc, s)
    decreases fuel
  {
    hide GoodConfig, CancelsOnlyOnRequest, PcInv, StoredOk, ObjectsInv, PayloadInv, Duration, FateOf, Next, QuietStep,
         Mine;
    if fuel > 0 && !pc.Done? {
      var between := env(tick, s);
      assert QuietStep(job.runId, s, between);
      PeaceKeepsFate(cfg, job, pc, s, between);
      StepKeepsFate(cfg, job, worker, pc, between);
      NextOk(cfg, job, worker, pc, between);
      var (pc', s') := Next(cfg, job, worker, pc, between);
      RunKeepsFate(cfg, job, worker, env, pc', s', tick + 1, fuel - 1);
    }
  }

  function OutcomeFrom(cfg: Config, job: ExecutionJob, s: Shared): Fate
    requires job.runId in s.runs
  {
    StartFate(cfg, job, Stored(job, s), Mine(s.objects, job.runId))
  }

  /** A delivery nobody cancels and that is not interrupted ends as foretold from its first state:
      terminal status, published references, and the run's objects, byte for byte. */
  lemma UninterruptedOutcome(cfg: Config, job: ExecutionJob, s: Shared, d: Delivery)
    requires GoodConfig(cfg) && CancelsOnlyOnRequest(cfg) && Peaceful(job.runId, d.env) && Calm(cfg, job, Loading, s)
    ensures var (pc, s') := Run(cfg, job, d.worker, d.env, Loading, s, 0, d.crashAt);
            && job.runId in s.runs && job.runId in s'.runs
            && (pc.Done? ==>
                  && Stored(job, s').status.IsTerminal()
                  && pc == Done(Returned(Stored(job, s').status))
                  && EndFate(Stored(job, s'), Mine(s'.objects, job.runId)) == OutcomeFrom(cfg, job, s))
  {
    hide GoodConfig, CancelsOnlyOnRequest, ObjectsInv, PayloadInv, Duration, Run, StoredOk, BuildFate;
    RunKeepsFate(cfg, job, d.worker, d.env, Loading, s, 0, d.crashAt);
  }
}
