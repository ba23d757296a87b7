/** What succeeded and partial manifests list, cancellation requested or not. */
module TerminalSets {
  import opened Outcomes
  import opened Contract
  import opened Jobs
  import opened ObjectStorage
  import opened ExecutorMachine
  import opened RecordValidity
  import opened ExecutionInvariant
  import opened ExecutorEffects
  import opened CrashResume
  import opened Redelivery
  import Port = RepositoryPort

  // ---------------------------------------------------------------- one delivery

  ghost predicate AllWritten(plan: seq<PlanItem>, k: nat) {
    k <= |plan| && forall j :: 0 <= j < k ==> plan[j].WriteIt?
  }

  /** The first `k` planned objects, in order. */
  ghost function Gained(cfg: Config, runId: string, plan: seq<PlanItem>, k: nat): Objects
    requires AllWritten(plan, k)
  {
    PlanEntries(cfg, runId, plan[..k])
  }

  /** The documents are what the pipeline makes of the run's input, flagged or not. */
  ghost predicate FromBuild(cfg: Config, job: ExecutionJob, origin: Provenance, mine: Objects, payloads: seq<Payload>) {
    && InputObject(mine, job.runId).Ok?
    && exists flag: bool ::
         cfg.build(job.profile, origin, InputObject(mine, job.runId).value.1.data, flag) == Built(payloads)
  }

  /** One reference per planned artifact, and exactly those objects on top of `mine0`. */
  ghost predicate WholeSet(cfg: Config, job: ExecutionJob, origin: Provenance, refs: seq<ArtifactReference>,
                           mine: Objects, mine0: Objects, payloads: seq<Payload>)
  {
    var plan := Plan(cfg, payloads);
    && FromBuild(cfg, job, origin, mine0, payloads)
    && AllWritten(plan, |plan|)
    && refs == PlanRefs(cfg, plan)
    && mine == mine0 + PlanEntries(cfg, job.runId, plan)
  }

  ghost predicate PayloadsBuilt(cfg: Config, job: ExecutionJob, l: Locals, mine0: Objects) {
    l.payloads.Some? ==> FromBuild(cfg, job, l.run.origin, mine0, l.payloads.value)
  }

  ghost predicate PointSet(cfg: Config, job: ExecutionJob, l: Locals, point: TryPoint, mine: Objects, mine0: Objects) {
    match point
    case Publish(k) =>
      && l.payloads.Some? && PayloadsBuilt(cfg, job, l, mine0)
      && var plan := Plan(cfg, l.payloads.value);
         AllWritten(plan, k) && mine == mine0 + Gained(cfg, job.runId, plan, k)
    case Verify(_) =>
      l.payloads.Some? && WholeSet(cfg, job, l.run.origin, l.artifacts, mine, mine0, l.payloads.value)
    case Reload =>
      l.payloads.Some? && WholeSet(cfg, job, l.run.origin, l.artifacts, mine, mine0, l.payloads.value)
    case SaveFinal(final) => exists p :: WholeSet(cfg, job, final.origin, final.artifacts, mine, mine0, p)
    case _ => mine == mine0 && PayloadsBuilt(cfg, job, l, mine0)
  }

  /** What has been written since the delivery began, and what a terminal record may list. */
  ghost predicate SetInv(cfg: Config, job: ExecutionJob, pc: Pc, s: Shared, mine0: Objects)
    requires job.runId in s.runs
  {
    var m, mine := Stored(job, s), Mine(s.objects, job.runId);
    match pc
    case Loading => mine == mine0 && !m.status.IsTerminal()
    case CheckQueued(_) => mine == mine0
    case SaveQueuedCancel(_) => mine == mine0
    case SaveStart(_) => mine == mine0
    case InTry(l, point) => PointSet(cfg, job, l, point, mine, mine0)
    case Done(Returned(status)) =>
      status in {Succeeded, Partial} ==> exists p :: WholeSet(cfg, job, m.origin, m.artifacts, mine, mine0, p)
    case _ => true
  }

  // ---------------------------------------------------------------- steps

  lemma NothingGained(cfg: Config, runId: string, plan: seq<PlanItem>, mine: Objects)
    ensures AllWritten(plan, 0) && mine == mine + Gained(cfg, runId, plan, 0)
  {
    assert plan[..0] == [];
  }

  lemma OneMoreGained(cfg: Config, runId: string, plan: seq<PlanItem>, k: nat, mine0: Objects)
    requires AllWritten(plan, k) && k < |plan| && plan[k].WriteIt?
    ensures AllWritten(plan, k + 1)
    ensures (mine0 + Gained(cfg, runId, plan, k)) + [EntryOf(cfg, runId, plan[k])]
         == mine0 + Gained(cfg, runId, plan, k + 1)
  {
    hide EntryOf;
    assert plan[..k + 1] == plan[..k] + [plan[k]];
    assert Gained(cfg, runId, plan, k + 1) == Gained(cfg, runId, plan, k) + [EntryOf(cfg, runId, plan[k])];
  }

  /** Not past the first item of publication. */
  predicate Early(pc: Pc) {
    pc.InTry? ==>
      && !LatePublish(pc) && !pc.point.Verify? && !pc.point.Reload? && !pc.point.SaveFinal?
      && (pc.point.Publish? ==> pc.locals.payloads.Some?)
  }

  /** Where a step of the `try` block before publication can lead. */
  predicate StaysEarly(pc: Pc) {
    (pc.InTry? || pc.LoadForFail? || pc.LoadForCancel?) && Early(pc)
  }

  /** Before publication nothing is written, and publication starts at its first item. */
  lemma EntersPublication(cfg: Config, job: ExecutionJob, pc: Pc, s: Shared, mine0: Objects)
    requires job.runId in s.runs && Mine(s.objects, job.runId) == mine0
    requires Early(pc) && !pc.Loading? && !(pc.Done? && pc.ending.Returned?)
    requires pc.InTry? ==> PayloadsBuilt(cfg, job, pc.locals, mine0)
    ensures SetInv(cfg, job, pc, s, mine0)
  {
    hide Mine, Plan;
    if pc.InTry? && pc.point.Publish? {
      NothingGained(cfg, job.runId, Plan(cfg, pc.locals.payloads.value), mine0);
    }
  }

  lemma {:induction false} AtStageEnters(cfg: Config, job: ExecutionJob, l: Locals, i: nat)
    requires l.artifacts == []
    ensures StaysEarly(AtStage(cfg, job, l, i))
    ensures var pc := AtStage(cfg, job, l, i);
            pc.InTry? ==> pc.locals.payloads == l.payloads && pc.locals.run == l.run
    decreases |l.run.stages| - i
  {
    if i < |l.run.stages| && StageDone(l.run.stages[i]) {
      AtStageEnters(cfg, job, l.(active := i), i + 1);
    }
  }

  lemma EnterSets(cfg: Config, job: ExecutionJob, m: AnalysisRun, s: Shared, mine0: Objects)
    requires job.runId in s.runs && Mine(s.objects, job.runId) == mine0
    ensures SetInv(cfg, job, EnterTry(cfg, job, m), s, mine0)
  {
    hide Mine, Duration, SetInv;
    AtStageEnters(cfg, job, Locals(m, -1, None, []), 0);
    EntersPublication(cfg, job, EnterTry(cfg, job, m), s, mine0);
  }

  lemma StartSets(cfg: Config, job: ExecutionJob, worker: string, pc: Pc, s: Shared, mine0: Objects)
    requires Inv(cfg, job, pc, s) && SetInv(cfg, job, pc, s, mine0)
    requires pc.Loading? || pc.CheckQueued? || pc.SaveQueuedCancel? || pc.SaveStart?
    ensures var (pc', s') := Next(cfg, job, worker, pc, s); job.runId in s'.runs && SetInv(cfg, job, pc', s', mine0)
  {
    hide AnalysisRun.Valid, Mine, EnterTry, StoredOk;
    var (pc', s') := Next(cfg, job, worker, pc, s);
    if pc.Loading? && Stored(job, s).status.Running? {
      EnterSets(cfg, job, Stored(job, s), s, mine0);
    } else if pc.SaveStart? {
      var started := pc.run.Start(cfg.screen, s.clock, pc.run.stages);
      if started.Ok? && Port.Save(s.runs, started.value).Ok? {
        EnterSets(cfg, job, started.value, s', mine0);
      }
    }
  }

  lemma SavedStageEarly(cfg: Config, job: ExecutionJob, s: Shared, l: Locals, i: nat, stage: StageExecution)
    requires i < |l.run.stages| && l.artifacts == []
    ensures var pc := SavingStage(cfg, s, l, i, stage, l' => AtStage(cfg, job, l', i + 1)).0;
            StaysEarly(pc) && SamePayloads(pc, l)
  {
    hide AnalysisRun.Valid, StaysEarly, AtStage, Port.Save;
    var run := l.run.WithStages(cfg.screen, l.run.stages[i := stage]);
    if run.Ok? {
      AtStageEnters(cfg, job, l.(run := run.value), i + 1);
    }
    HandlerEarly(l);
  }

  predicate SamePayloads(pc: Pc, l: Locals) {
    pc.InTry? ==> pc.locals.payloads == l.payloads && pc.locals.run.origin == l.run.origin
  }

  lemma HandlerEarly(l: Locals)
    ensures forall fault :: StaysEarly(FailWith(l.active, fault)) && !FailWith(l.active, fault).InTry?
  {
  }

  /** What the build puts in hand comes from the input stored now. */
  ghost predicate BuiltNow(cfg: Config, job: ExecutionJob, pc: Pc, l: Locals, objects: Objects) {
    pc.InTry? ==>
      && pc.locals.payloads.Some? && pc.locals.run == l.run
      && FromBuild(cfg, job, l.run.origin, objects, pc.locals.payloads.value)
  }

  lemma BuildEarly(cfg: Config, job: ExecutionJob, s: Shared, l: Locals)
    ensures var pc := Building(cfg, job, s, l, l' => AtPublish(cfg, l', 0));
            StaysEarly(pc) && BuiltNow(cfg, job, pc, l, s.objects)
  {
    hide InputObject, AtPublish;
    forall payloads: seq<Payload>
      ensures var pc := AtPublish(cfg, l.(payloads := Some(payloads)), 0);
              StaysEarly(pc) && (pc.InTry? ==> pc.locals == l.(payloads := Some(payloads)))
    {
      AtPublishCalm(cfg, l.(payloads := Some(payloads)));
      AtPublishFirst(cfg, l.(payloads := Some(payloads)));
    }
  }

  lemma DetectionBuild(cfg: Config, job: ExecutionJob, s: Shared, l: Locals, i: nat)
    ensures var pc := Building(cfg, job, s, l, l' => InTry(l', CheckAfter(i)));
            StaysEarly(pc) && BuiltNow(cfg, job, pc, l, s.objects)
  {
    hide InputObject;
  }

  lemma AtPublishFirst(cfg: Config, l: Locals)
    requires l.payloads.Some?
    ensures !LatePublish(AtPublish(cfg, l, 0))
  {
    hide Plan;
  }

  predicate BeforePublication(point: TryPoint) {
    !point.Publish? && !point.Verify? && !point.Reload? && !point.SaveFinal?
  }

  lemma TryEarly(cfg: Config, job: ExecutionJob, worker: string, l: Locals, point: TryPoint, s: Shared)
    requires TryPointOk(cfg, l, point) && l.artifacts == [] && BeforePublication(point)
    ensures var pc := TryNext(cfg, job, worker, l, point, s).0;
            StaysEarly(pc) && (SamePayloads(pc, l) || BuiltNow(cfg, job, pc, l, s.objects))
  {
    hide AnalysisRun.Valid, AtStage, FromBuild, InputObject, Plan, Port.CancellationRequested, Port.Save;
    match point
    case SaveSkip(i) => SavedStageEarly(cfg, job, s, l, i, SkippedStage(l.run.stages[i], s.clock));
    case SaveFinished(i) =>
      var stage := FinishedStage(l.run.stages[i], s.clock, cfg.metrics(job, worker, l.run.stages[i].stageName));
      SavedStageEarly(cfg, job, s, l, i, stage);
    case BuildLate => BuildEarly(cfg, job, s, l);
    case BuildAtDetection(i) => DetectionBuild(cfg, job, s, l, i);
    case _ =>
  }

  lemma MineBuild(cfg: Config, job: ExecutionJob, origin: Provenance, objects: Objects, payloads: seq<Payload>)
    ensures FromBuild(cfg, job, origin, objects, payloads) ==>
              FromBuild(cfg, job, origin, Mine(objects, job.runId), payloads)
  {
    hide Mine;
    MineInputs(objects, job.runId);
    InputsDecide(objects, Mine(objects, job.runId), job.runId);
  }

  lemma EarlySets(cfg: Config, job: ExecutionJob, worker: string, l: Locals, point: TryPoint, s: Shared, mine0: Objects)
    requires TryPointOk(cfg, l, point) && job.runId in s.runs && Mine(s.objects, job.runId) == mine0
    requires l.artifacts == [] && BeforePublication(point) && PayloadsBuilt(cfg, job, l, mine0)
    ensures var (pc', s') := TryNext(cfg, job, worker, l, point, s);
            job.runId in s'.runs && SetInv(cfg, job, pc', s', mine0)
  {
    hide Mine, SetInv, TryNext, Early, FromBuild;
    TryEarly(cfg, job, worker, l, point, s);
    forall payloads: seq<Payload>
      ensures FromBuild(cfg, job, l.run.origin, s.objects, payloads) ==> FromBuild(cfg, job, l.run.origin, mine0, payloads)
    {
      MineBuild(cfg, job, l.run.origin, s.objects, payloads);
    }
    StepFresh(cfg, job, worker, InTry(l, point), s);
    StepKeepsOrigin(cfg, job, worker, InTry(l, point), s, job.runId);
    var (pc', s') := TryNext(cfg, job, worker, l, point, s);
    EntersPublication(cfg, job, pc', s', mine0);
  }

  lemma PublishSets(cfg: Config, job: ExecutionJob, worker: string, l: Locals, k: nat, s: Shared, mine0: Objects)
    requires Inv(cfg, job, InTry(l, Publish(k)), s) && TryPointOk(cfg, l, Publish(k))
    requires SetInv(cfg, job, InTry(l, Publish(k)), s, mine0)
    ensures var (pc', s') := TryNext(cfg, job, worker, l, Publish(k), s);
            job.runId in s'.runs && SetInv(cfg, job, pc', s', mine0)
  {
    hide AnalysisRun.Valid, Mine, Plan, WriteArtifact, StoredOk, ShapeFor, PayloadsDistinct, ReferenceOf;
    var plan := Plan(cfg, l.payloads.value);
    var spec := plan[k].spec;
    var mine := Mine(s.objects, job.runId);
    MineWrite(cfg.sha, s.objects, job.runId, spec);
    WriteAppends(cfg, job.runId, mine, plan[k]);
    var (r, objects) := WriteArtifact(cfg.sha, s.objects, job.runId, spec);
    if r.Ok? {
      OneMoreGained(cfg, job.runId, plan, k, mine0);
      var l' := l.(artifacts := l.artifacts + [r.value]);
      PublishedNext(cfg, job, l', k + 1, s.(objects := objects), mine0);
    }
  }

  lemma WriteAppends(cfg: Config, runId: string, mine: Objects, item: PlanItem)
    requires item.WriteIt?
    ensures var (r, after) := WriteArtifact(cfg.sha, mine, runId, item.spec);
            r.Ok? ==> after == mine + [EntryOf(cfg, runId, item)] && r.value == RefOf(cfg, item)
  {
    hide ArtifactReference.Valid, HasKey;
  }

  /** Publication goes on, or all of the plan is written and about to be verified. */
  lemma PublishedNext(cfg: Config, job: ExecutionJob, l: Locals, k: nat, s: Shared, mine0: Objects)
    requires job.runId in s.runs && l.payloads.Some? && AllWritten(Plan(cfg, l.payloads.value), k)
    requires PayloadsBuilt(cfg, job, l, mine0)
    requires k == |l.artifacts| > 0
    requires forall j :: 0 <= j < k ==> l.artifacts[j] == RefOf(cfg, Plan(cfg, l.payloads.value)[j])
    requires Mine(s.objects, job.runId) == mine0 + Gained(cfg, job.runId, Plan(cfg, l.payloads.value), k)
    ensures SetInv(cfg, job, AtPublish(cfg, l, k), s, mine0)
  {
    hide Plan, Mine, RefOf, EntryOf;
    var plan := Plan(cfg, l.payloads.value);
    if k == |plan| {
      assert plan[..k] == plan;
      assert l.artifacts == PlanRefs(cfg, plan);
    }
  }

  lemma VerifySets(cfg: Config, job: ExecutionJob, worker: string, l: Locals, k: nat, s: Shared, mine0: Objects)
    requires job.runId in s.runs && TryPointOk(cfg, l, Verify(k)) && SetInv(cfg, job, InTry(l, Verify(k)), s, mine0)
    ensures var (pc', s') := TryNext(cfg, job, worker, l, Verify(k), s);
            job.runId in s'.runs && SetInv(cfg, job, pc', s', mine0)
  {
    hide WholeSet, Mine, ReferenceIntact;
  }

  lemma ConcludeSets(cfg: Config, job: ExecutionJob, worker: string, l: Locals, point: TryPoint, s: Shared, mine0: Objects)
    requires GoodConfig(cfg) && Inv(cfg, job, InTry(l, point), s) && (point.Reload? || point.SaveFinal?)
    requires SetInv(cfg, job, InTry(l, point), s, mine0)
    ensures var (pc', s') := TryNext(cfg, job, worker, l, point, s);
            job.runId in s'.runs && SetInv(cfg, job, pc', s', mine0)
  {
    hide AnalysisRun.Valid, WholeSet, Mine, GoodConfig, FinalRecord, StageExecution.Valid, Stamped, AllRefs;
    if point.Reload? {
      FinalOutcome(cfg, job, l, s.clock);
    } else {
      TerminalSaved(cfg, job, s, point.final);
      var (_, s') := TryNext(cfg, job, worker, l, point, s);
      assert Stored(job, s') == point.final && s'.objects == s.objects;
    }
  }

  lemma TrySets(cfg: Config, job: ExecutionJob, worker: string, l: Locals, point: TryPoint, s: Shared, mine0: Objects)
    requires GoodConfig(cfg) && PcOk(cfg, InTry(l, point)) && Inv(cfg, job, InTry(l, point), s)
    requires SetInv(cfg, job, InTry(l, point), s, mine0)
    ensures var (pc', s') := TryNext(cfg, job, worker, l, point, s);
            job.runId in s'.runs && SetInv(cfg, job, pc', s', mine0)
  {
    hide GoodConfig, StoredOk, Mine, TryNext, ShapeFor, Plan;
    match point
    case Publish(k) => PublishSets(cfg, job, worker, l, k, s, mine0);
    case Verify(k) => VerifySets(cfg, job, worker, l, k, s, mine0);
    case Reload => ConcludeSets(cfg, job, worker, l, point, s, mine0);
    case SaveFinal(_) => ConcludeSets(cfg, job, worker, l, point, s, mine0);
    case _ => EarlySets(cfg, job, worker, l, point, s, mine0);
  }

  lemma HandlerSets(cfg: Config, job: ExecutionJob, worker: string, pc: Pc, s: Shared, mine0: Objects)
    requires Inv(cfg, job, pc, s)
    requires pc.LoadForCancel? || pc.SaveCancel? || pc.LoadForFail? || pc.SaveFail?
    ensures var (pc', s') := Next(cfg, job, worker, pc, s);
            job.runId in s'.runs && SetInv(cfg, job, pc', s', mine0)
  {
    hide AnalysisRun.Valid, Mine, StoredOk, CancelRecord, FailRecord, ActiveOk, Shaped;
  }

  lemma StepSets(cfg: Config, job: ExecutionJob, worker: string, pc: Pc, s: Shared, mine0: Objects)
    requires GoodConfig(cfg) && PcOk(cfg, pc) && Inv(cfg, job, pc, s) && SetInv(cfg, job, pc, s, mine0)
    ensures var (pc', s') := Next(cfg, job, worker, pc, s);
            job.runId in s'.runs && SetInv(cfg, job, pc', s', mine0)
  {
    hide GoodConfig, StoredOk, PcInv, Mine, TryNext, PointSet;
    match pc
    case Loading => StartSets(cfg, job, worker, pc, s, mine0);
    case CheckQueued(_) => StartSets(cfg, job, worker, pc, s, mine0);
    case SaveQueuedCancel(_) => StartSets(cfg, job, worker, pc, s, mine0);
    case SaveStart(_) => StartSets(cfg, job, worker, pc, s, mine0);
    case InTry(l, point) => TrySets(cfg, job, worker, l, point, s, mine0);
    case Done(_) =>
    case _ => HandlerSets(cfg, job, worker, pc, s, mine0);
  }

  lemma QuietSets(cfg: Config, job: ExecutionJob, pc: Pc, s: Shared, s': Shared, mine0: Objects)
    requires job.runId in s.runs && SetInv(cfg, job, pc, s, mine0) && QuietStep(job.runId, s, s')
    ensures job.runId in s'.runs && SetInv(cfg, job, pc, s', mine0)
  {
    hide Mine, WholeSet, PointSet;
    assert Stored(job, s') == Stored(job, s) && Mine(s'.objects, job.runId) == Mine(s.objects, job.runId);
  }

  lemma {:induction false} RunSets(cfg: Config, job: ExecutionJob, worker: string, env: Environment, pc: Pc, s: Shared,
                                   tick: nat, fuel: nat, mine0: Objects)
    requires GoodConfig(cfg) && Quiet(job.runId, env) && PcOk(cfg, pc) && Inv(cfg, job, pc, s)
    requires SetInv(cfg, job, pc, s, mine0)
    ensures var (pc', s') := Run(cfg, job, worker, env, pc, s, tick, fuel);
            job.runId in s'.runs && SetInv(cfg, job, pc', s', mine0)
    decreases fuel
  {
    hide GoodConfig, PcInv, StoredOk, Next, QuietStep, SetInv;
    if fuel > 0 && !pc.Done? {
      var between := env(tick, s);
      assert QuietStep(job.runId, s, between);
      StageEnvironment(cfg, job, pc, s, between);
      QuietSets(cfg, job, pc, s, between, mine0);
      StepInv(cfg, job, worker, pc, between);
      StepSets(cfg, job, worker, pc, between, mine0);
      NextOk(cfg, job, worker, pc, between);
      var (pc', s') := Next(cfg, job, worker, pc, between);
      RunSets(cfg, job, worker, env, pc', s', tick + 1, fuel - 1, mine0);
    }
  }

  /** A delivery that takes an unfinished run to succeeded or partial writes exactly its plan. */
  lemma DeliveryWhole(cfg: Config, job: ExecutionJob, s: Shared, d: Delivery)
    requires GoodConfig(cfg) && Quiet(job.runId, d.env) && Inv(cfg, job, Loading, s)
    requires !Stored(job, s).status.IsTerminal()
    ensures var s' := Run(cfg, job, d.worker, d.env, Loading, s, 0, d.crashAt).1;
            && job.runId in s'.runs
            && (Stored(job, s').status in {Succeeded, Partial} ==>
                  exists payloads :: WholeSet(cfg, job, Stored(job, s').origin, Stored(job, s').artifacts,
                                              Mine(s'.objects, job.runId), Mine(s.objects, job.runId), payloads))
  {
    hide GoodConfig, StoredOk, Mine, Run, PointInv, Quiet, WholeSet, PointSet;
    var mine0 := Mine(s.objects, job.runId);
    RunInv(cfg, job, d.worker, d.env, Loading, s, 0, d.crashAt);
    RunSets(cfg, job, d.worker, d.env, Loading, s, 0, d.crashAt, mine0);
  }

  // ---------------------------------------------------------------- any deliveries

  /** A finished run is only reported. */
  lemma FinishedIdle(cfg: Config, job: ExecutionJob, s: Shared, d: Delivery)
    requires GoodConfig(cfg) && Quiet(job.runId, d.env) && Inv(cfg, job, Loading, s)
    requires Stored(job, s).status.IsTerminal()
    ensures var s' := Run(cfg, job, d.worker, d.env, Loading, s, 0, d.crashAt).1;
            && job.runId in s'.runs && Stored(job, s') == Stored(job, s)
            && Mine(s'.objects, job.runId) == Mine(s.objects, job.runId)
  {
    hide GoodConfig, StoredOk, Mine, PcInv, Quiet;
    RunKeepsStages(cfg, job, d.worker, d.env, Loading, s, 0, d.crashAt);
    if d.crashAt > 0 {
      var between := d.env(0, s);
      QuietAt(job.runId, d.env, 0, s);
    }
  }

  lemma QuietAt(runId: string, env: Environment, tick: nat, s: Shared)
    requires Quiet(runId, env)
    ensures QuietStep(runId, s, env(tick, s))
  {
    hide QuietStep;
  }

  /** Delivery `i` found the run unfinished, and the final manifest lists exactly the artifacts of a
      whole plan that the store gained since then. */
  ghost predicate WholeSince(cfg: Config, job: ExecutionJob, s: Shared, ds: seq<Delivery>, i: nat, s': Shared)
    requires job.runId in s'.runs
  {
    && i < |ds|
    && var before := After(cfg, job, s, ds, i);
       && job.runId in before.runs && !Stored(job, before).status.IsTerminal()
       && exists payloads :: WholeSet(cfg, job, Stored(job, s').origin, Stored(job, s').artifacts,
                                      Mine(s'.objects, job.runId), Mine(before.objects, job.runId), payloads)
  }

  /** No terminal manifest lists a partial set, cancellation requested or not: through any crashes
      and redeliveries with one live executor, a succeeded or partial run lists one reference per
      artifact of a whole plan, all of it written by the delivery that finished the run. */
  lemma {:induction false} TerminalSetWhole(cfg: Config, job: ExecutionJob, s: Shared, ds: seq<Delivery>)
    requires GoodConfig(cfg) && AllQuiet(job.runId, ds) && Inv(cfg, job, Loading, s)
    requires !Stored(job, s).status.IsTerminal()
    ensures var s' := Deliver(cfg, job, s, ds).1;
            && job.runId in s'.runs && Inv(cfg, job, Loading, s')
            && (Stored(job, s').status in {Succeeded, Partial} ==> exists i :: WholeSince(cfg, job, s, ds, i, s'))
  {
    hide GoodConfig, StoredOk, PcInv, Mine, Run, Quiet, WholeSet;
    if ds != [] {
      var init, d := ds[..|ds| - 1], ds[|ds| - 1];
      var before := Deliver(cfg, job, s, init).1;
      TerminalSetWhole(cfg, job, s, init);
      RunInv(cfg, job, d.worker, d.env, Loading, before, 0, d.crashAt);
      var (pc, s') := Run(cfg, job, d.worker, d.env, Loading, before, 0, d.crashAt);
      ResumeInv(cfg, job, pc, s');
      if Stored(job, before).status.IsTerminal() {
        FinishedIdle(cfg, job, before, d);
        if Stored(job, before).status in {Succeeded, Partial} {
          var i: nat :| WholeSince(cfg, job, s, init, i, before);
          PrefixAfter(cfg, job, s, ds, i);
          assert WholeSince(cfg, job, s, ds, i, s');
        }
      } else {
        DeliveryWhole(cfg, job, before, d);
        assert After(cfg, job, s, ds, |ds| - 1) == before;
        assert Stored(job, s').status in {Succeeded, Partial} ==> WholeSince(cfg, job, s, ds, |ds| - 1, s');
      }
    }
  }

  // ---------------------------------------------------------------- crashes after a write

  /** A requested cancellation makes the pipeline stop or makes no difference to it. */
  ghost predicate FlagOnlyCancels(cfg: Config) {
    forall p, o, b :: cfg.build(p, o, b, true).BuildCancelled? || cfg.build(p, o, b, true) == cfg.build(p, o, b, false)
  }

  lemma BuiltUnflagged(cfg: Config, job: ExecutionJob, origin: Provenance, objects: Objects, payloads: seq<Payload>)
    requires FlagOnlyCancels(cfg) && FromBuild(cfg, job, origin, objects, payloads)
    ensures var mine := Mine(objects, job.runId);
            && InputObject(mine, job.runId).Ok?
            && cfg.build(job.profile, origin, InputObject(mine, job.runId).value.1.data, false) == Built(payloads)
  {
    hide Mine;
    MineBuild(cfg, job, origin, objects, payloads);
  }

  lemma EarlySteady(cfg: Config, job: ExecutionJob, worker: string, l: Locals, point: TryPoint, s: Shared)
    requires FlagOnlyCancels(cfg) && PcOk(cfg, InTry(l, point)) && Steady(cfg, job, InTry(l, point), s)
    requires BeforePublication(point)
    ensures var (pc', s') := TryNext(cfg, job, worker, l, point, s);
            job.runId in s'.runs && PayloadInv(cfg, job, pc', Stored(job, s'), Mine(s'.objects, job.runId))
            && StaysEarly(pc')
  {
    hide Mine, TryNext, Early, FromBuild, StoredOk, ShapeFor, InputObject;
    TryEarly(cfg, job, worker, l, point, s);
    StepFresh(cfg, job, worker, InTry(l, point), s);
    StepKeepsOrigin(cfg, job, worker, InTry(l, point), s, job.runId);
    var (pc', s') := TryNext(cfg, job, worker, l, point, s);
    if pc'.InTry? && BuiltNow(cfg, job, pc', l, s.objects) {
      BuiltUnflagged(cfg, job, l.run.origin, s.objects, pc'.locals.payloads.value);
    }
  }

  lemma PublishSteady(cfg: Config, job: ExecutionJob, worker: string, l: Locals, k: nat, s: Shared)
    requires PcOk(cfg, InTry(l, Publish(k))) && Steady(cfg, job, InTry(l, Publish(k)), s)
    ensures var (pc', s') := TryNext(cfg, job, worker, l, Publish(k), s);
            job.runId in s'.runs && PayloadInv(cfg, job, pc', Stored(job, s'), Mine(s'.objects, job.runId))
  {
    hide Mine, Plan, WriteArtifact, InputObject, Inv;
    TryFacts(cfg, job, l, Publish(k), s);
    var spec := Plan(cfg, l.payloads.value)[k].spec;
    MineWrite(cfg.sha, s.objects, job.runId, spec);
    WriteKeepsInputs(cfg.sha, Mine(s.objects, job.runId), job.runId, spec, job.runId);
  }

  lemma LateSteady(cfg: Config, job: ExecutionJob, worker: string, l: Locals, point: TryPoint, s: Shared)
    requires PcOk(cfg, InTry(l, point)) && Steady(cfg, job, InTry(l, point), s)
    requires point.Verify? || point.Reload? || point.SaveFinal?
    ensures var (pc', s') := TryNext(cfg, job, worker, l, point, s);
            job.runId in s'.runs && PayloadInv(cfg, job, pc', Stored(job, s'), Mine(s'.objects, job.runId))
  {
    hide Mine, InputObject, StoredOk, ReferenceIntact, FinalRecord, ShapeFor, Port.Save, AllRefs;
    StepKeepsOrigin(cfg, job, worker, InTry(l, point), s, job.runId);
  }

  lemma OutsideSteady(cfg: Config, job: ExecutionJob, worker: string, pc: Pc, s: Shared)
    requires PcOk(cfg, pc) && Steady(cfg, job, pc, s) && !pc.InTry?
    ensures var (pc', s') := Next(cfg, job, worker, pc, s);
            && job.runId in s'.runs && Early(pc')
            && (pc'.InTry? ==> pc'.locals.payloads.None?)
  {
    hide AnalysisRun.Valid, Mine, InputObject, StoredOk, CancelRecord, FailRecord, AtStage, Early, Port.Save, Duration;
    StepKeepsOrigin(cfg, job, worker, pc, s, job.runId);
    EarlyOutside();
    if pc.Loading? {
      AtStageEnters(cfg, job, Locals(Stored(job, s), -1, None, []), 0);
    } else if pc.SaveStart? {
      var started := pc.run.Start(cfg.screen, s.clock, pc.run.stages);
      if started.Ok? {
        AtStageEnters(cfg, job, Locals(started.value, -1, None, []), 0);
      }
    }
  }

  lemma EarlyOutside()
    ensures forall pc: Pc :: !pc.InTry? ==> Early(pc)
  {
  }

  lemma StepSteady(cfg: Config, job: ExecutionJob, worker: string, pc: Pc, s: Shared)
    requires GoodConfig(cfg) && FlagOnlyCancels(cfg) && PcOk(cfg, pc) && Steady(cfg, job, pc, s)
    ensures var (pc', s') := Next(cfg, job, worker, pc, s); Steady(cfg, job, pc', s')
  {
    hide GoodConfig, FlagOnlyCancels, PcInv, StoredOk, Mine, TryNext, Early;
    StepInv(cfg, job, worker, pc, s);
    match pc
    case InTry(l, point) =>
      if point.Publish? {
        PublishSteady(cfg, job, worker, l, point.k, s);
      } else if BeforePublication(point) {
        EarlySteady(cfg, job, worker, l, point, s);
      } else {
        LateSteady(cfg, job, worker, l, point, s);
      }
    case _ => OutsideSteady(cfg, job, worker, pc, s);
  }

  /** A run that cannot reach a terminal success from here. */
  ghost predicate Doomed(pc: Pc, m: AnalysisRun) {
    Early(pc) && m.status !in {Succeeded, Partial}
  }

  /** Publication of a tainted run stops at its first item. */
  lemma TaintedPublish(cfg: Config, job: ExecutionJob, worker: string, l: Locals, s: Shared)
    requires PcOk(cfg, InTry(l, Publish(0))) && Steady(cfg, job, InTry(l, Publish(0)), s)
    requires Tainted(cfg, job, Stored(job, s).origin, Mine(s.objects, job.runId))
    ensures TryNext(cfg, job, worker, l, Publish(0), s).0.LoadForFail?
  {
    hide Mine, Plan, InputObject, Inv, ArtifactReference.Valid;
    TryFacts(cfg, job, l, Publish(0), s);
    var spec := Plan(cfg, l.payloads.value)[0].spec;
    MineWrite(cfg.sha, s.objects, job.runId, spec);
  }

  lemma StepDoomed(cfg: Config, job: ExecutionJob, worker: string, pc: Pc, s: Shared)
    requires GoodConfig(cfg) && FlagOnlyCancels(cfg) && PcOk(cfg, pc) && Steady(cfg, job, pc, s)
    requires Tainted(cfg, job, Stored(job, s).origin, Mine(s.objects, job.runId)) && Doomed(pc, Stored(job, s))
    ensures var (pc', s') := Next(cfg, job, worker, pc, s); job.runId in s'.runs && Early(pc')
  {
    hide GoodConfig, FlagOnlyCancels, PcInv, StoredOk, Mine, TryNext, Tainted;
    match pc
    case InTry(l, point) =>
      StepKeepsOrigin(cfg, job, worker, pc, s, job.runId);
      if point.Publish? {
        TaintedPublish(cfg, job, worker, l, s);
      } else {
        EarlySteady(cfg, job, worker, l, point, s);
      }
    case _ => OutsideSteady(cfg, job, worker, pc, s);
  }

  /** Only the last step of publication stores a success. */
  lemma NoSuccessStored(cfg: Config, job: ExecutionJob, worker: string, pc: Pc, s: Shared)
    requires GoodConfig(cfg) && PcOk(cfg, pc) && Inv(cfg, job, pc, s)
    requires Doomed(pc, Stored(job, s))
    ensures var s' := Next(cfg, job, worker, pc, s).1;
            job.runId in s'.runs && Stored(job, s').status !in {Succeeded, Partial}
  {
    hide GoodConfig, StoredOk, AnalysisRun.Valid, PointInv, TryNext, CancelRecord, FailRecord, EnterTry;
    StepInv(cfg, job, worker, pc, s);
    match pc
    case InTry(l, point) => TryNoSuccess(cfg, job, worker, l, point, s);
    case _ =>
  }

  lemma TryNoSuccess(cfg: Config, job: ExecutionJob, worker: string, l: Locals, point: TryPoint, s: Shared)
    requires GoodConfig(cfg) && PcOk(cfg, InTry(l, point)) && Inv(cfg, job, InTry(l, point), s) && !point.SaveFinal?
    ensures var s' := TryNext(cfg, job, worker, l, point, s).1;
            job.runId in s'.runs && Stored(job, s').status !in {Succeeded, Partial}
  {
    hide AnalysisRun.Valid, StoredOk, AtStage, AtPublish, AtVerify, Building, FinalRecord, WriteArtifact, ReferenceIntact,
         GoodConfig, PointInv, Plan;
  }

  lemma {:induction false} RunDoomed(cfg: Config, job: ExecutionJob, worker: string, env: Environment, pc: Pc, s: Shared,
                                     tick: nat, fuel: nat)
    requires GoodConfig(cfg) && FlagOnlyCancels(cfg) && Quiet(job.runId, env) && PcOk(cfg, pc)
    requires Steady(cfg, job, pc, s) && Doomed(pc, Stored(job, s))
    requires Tainted(cfg, job, Stored(job, s).origin, Mine(s.objects, job.runId))
    ensures var (pc', s') := Run(cfg, job, worker, env, pc, s, tick, fuel);
            && job.runId in s'.runs && Stored(job, s').status !in {Succeeded, Partial}
            && Tainted(cfg, job, Stored(job, s').origin, Mine(s'.objects, job.runId))
    decreases fuel
  {
    hide GoodConfig, FlagOnlyCancels, PcInv, StoredOk, Next, QuietStep, Tainted, Early, PayloadInv, Mine;
    if fuel > 0 && !pc.Done? {
      var between := env(tick, s);
      QuietAt(job.runId, env, tick, s);
      QuietSteady(cfg, job, pc, s, between);
      var mine := Mine(between.objects, job.runId);
      StepSteady(cfg, job, worker, pc, between);
      TaintStays(cfg, job, worker, pc, between);
      StepDoomed(cfg, job, worker, pc, between);
      NoSuccessStored(cfg, job, worker, pc, between);
      NextOk(cfg, job, worker, pc, between);
      var (pc', s') := Next(cfg, job, worker, pc, between);
      RunDoomed(cfg, job, worker, env, pc', s', tick + 1, fuel - 1);
    }
  }

  lemma QuietSteady(cfg: Config, job: ExecutionJob, pc: Pc, s: Shared, s': Shared)
    requires Steady(cfg, job, pc, s) && QuietStep(job.runId, s, s')
    ensures Steady(cfg, job, pc, s')
    ensures Stored(job, s') == Stored(job, s) && Mine(s'.objects, job.runId) == Mine(s.objects, job.runId)
  {
    hide PcInv, StoredOk, Mine, PayloadInv;
    StageEnvironment(cfg, job, pc, s, s');
  }

  lemma TaintStays(cfg: Config, job: ExecutionJob, worker: string, pc: Pc, s: Shared)
    requires PcOk(cfg, pc) && Steady(cfg, job, pc, s)
    requires Tainted(cfg, job, Stored(job, s).origin, Mine(s.objects, job.runId))
    ensures var s' := Next(cfg, job, worker, pc, s).1;
            && job.runId in s'.runs
            && Tainted(cfg, job, Stored(job, s').origin, Mine(s'.objects, job.runId))
  {
    hide Next, Tainted, Inv, PayloadInv, Mine;
    StepMarks(cfg, job, worker, pc, s, Mine(s.objects, job.runId));
  }

  lemma {:induction false} RunMarksQuiet(cfg: Config, job: ExecutionJob, worker: string, env: Environment, pc: Pc,
                                         s: Shared, tick: nat, fuel: nat, mine0: Objects)
    requires GoodConfig(cfg) && FlagOnlyCancels(cfg) && Quiet(job.runId, env)
    requires PcOk(cfg, pc) && Steady(cfg, job, pc, s) && Marked(cfg, job, pc, s, mine0)
    ensures var (pc', s') := Run(cfg, job, worker, env, pc, s, tick, fuel);
            Steady(cfg, job, pc', s') && Marked(cfg, job, pc', s', mine0)
    decreases fuel
  {
    hide GoodConfig, FlagOnlyCancels, PcInv, StoredOk, PayloadInv, Next, QuietStep, Mine, Tainted;
    if fuel > 0 && !pc.Done? {
      var between := env(tick, s);
      QuietAt(job.runId, env, tick, s);
      QuietMarks(cfg, job, pc, s, between, mine0);
      QuietSteady(cfg, job, pc, s, between);
      StepSteady(cfg, job, worker, pc, between);
      StepMarks(cfg, job, worker, pc, between, mine0);
      NextOk(cfg, job, worker, pc, between);
      var (pc', s') := Next(cfg, job, worker, pc, between);
      RunMarksQuiet(cfg, job, worker, env, pc', s', tick + 1, fuel - 1, mine0);
    }
  }

  /** One delivery: what it wrote and did not finish taints the run, and a tainted run stays so and
      unsuccessful. */
  lemma DeliveryTaints(cfg: Config, job: ExecutionJob, s: Shared, d: Delivery)
    requires GoodConfig(cfg) && FlagOnlyCancels(cfg) && Quiet(job.runId, d.env) && Inv(cfg, job, Loading, s)
    ensures var s' := Run(cfg, job, d.worker, d.env, Loading, s, 0, d.crashAt).1;
            var mine, mine' := Mine(s.objects, job.runId), Mine(s'.objects, job.runId);
            && Inv(cfg, job, Loading, s')
            && (Stored(job, s).status.IsTerminal() ==> Stored(job, s').status.IsTerminal())
            && (mine' == mine || Tainted(cfg, job, Stored(job, s').origin, mine'))
            && (Tainted(cfg, job, Stored(job, s).origin, mine) && Stored(job, s).status !in {Succeeded, Partial} ==>
                  && Tainted(cfg, job, Stored(job, s').origin, mine')
                  && Stored(job, s').status !in {Succeeded, Partial})
  {
    hide GoodConfig, FlagOnlyCancels, PcInv, StoredOk, Mine, Run, Quiet, Tainted;
    var mine := Mine(s.objects, job.runId);
    RunMarksQuiet(cfg, job, d.worker, d.env, Loading, s, 0, d.crashAt, mine);
    var (pc, s') := Run(cfg, job, d.worker, d.env, Loading, s, 0, d.crashAt);
    ResumeInv(cfg, job, pc, s');
    RunKeepsStages(cfg, job, d.worker, d.env, Loading, s, 0, d.crashAt);
    if Tainted(cfg, job, Stored(job, s).origin, mine) && Stored(job, s).status !in {Succeeded, Partial} {
      RunDoomed(cfg, job, d.worker, d.env, Loading, s, 0, d.crashAt);
    }
  }

  /** A crash after any artifact write can never later end in success, whole or partial, whether or
      not cancellation is requested before, between or after. */
  lemma {:induction false} CrashAfterWriteNeverSucceeds(cfg: Config, job: ExecutionJob, s: Shared, ds: seq<Delivery>)
    requires GoodConfig(cfg) && FlagOnlyCancels(cfg) && AllQuiet(job.runId, ds) && Inv(cfg, job, Loading, s)
    ensures var s' := Deliver(cfg, job, s, ds).1;
            && Inv(cfg, job, Loading, s')
            && (!CrashedBeforeWrites(cfg, job, s, ds) ==>
                  && Tainted(cfg, job, Stored(job, s').origin, Mine(s'.objects, job.runId))
                  && Stored(job, s').status !in {Succeeded, Partial} && Stored(job, s').artifacts == [])
  {
    hide GoodConfig, FlagOnlyCancels, PcInv, Mine, Run, Quiet, Tainted, CrashedBeforeWrites, AnalysisRun.Valid, Stamped;
    if ds == [] {
      NoDeliveries(cfg, job, s, ds);
    } else {
      var init, d := ds[..|ds| - 1], ds[|ds| - 1];
      var before := Deliver(cfg, job, s, init).1;
      CrashAfterWriteNeverSucceeds(cfg, job, s, init);
      DeliveryTaints(cfg, job, before, d);
      CrashedPrefix(cfg, job, s, ds);
      assert ds[..|ds|] == ds;
      var s' := Deliver(cfg, job, s, ds).1;
      if !CrashedBeforeWrites(cfg, job, s, ds) {
        if CrashedBeforeWrites(cfg, job, s, init) {
          LastUntouched(cfg, job, s, init);
        }
        ListsNone(cfg, Stored(job, s'));
      }
    }
  }

  lemma ListsNone(cfg: Config, m: AnalysisRun)
    requires m.Valid(cfg.screen) && m.status !in {Succeeded, Partial}
    ensures m.artifacts == []
  {
    hide AnalysisRun.ComponentsValid;
  }

  /** Hence the store gained exactly the listed objects since the first state. */
  lemma TerminalSetExact(cfg: Config, job: ExecutionJob, s: Shared, ds: seq<Delivery>)
    requires GoodConfig(cfg) && FlagOnlyCancels(cfg) && AllQuiet(job.runId, ds) && Inv(cfg, job, Loading, s)
    requires !Stored(job, s).status.IsTerminal()
    ensures var s' := Deliver(cfg, job, s, ds).1;
            && job.runId in s'.runs
            && (Stored(job, s').status in {Succeeded, Partial} ==>
                  exists payloads :: WholeSet(cfg, job, Stored(job, s').origin, Stored(job, s').artifacts,
                                              Mine(s'.objects, job.runId), Mine(s.objects, job.runId), payloads))
  {
    hide GoodConfig, FlagOnlyCancels, Inv, Mine, Quiet, Deliver, Tainted, WholeSet, After;
    TerminalSetWhole(cfg, job, s, ds);
    CrashAfterWriteNeverSucceeds(cfg, job, s, ds);
    var s' := Deliver(cfg, job, s, ds).1;
    if Stored(job, s').status in {Succeeded, Partial} {
      var i :| WholeSince(cfg, job, s, ds, i, s');
      assert Mine(After(cfg, job, s, ds, i).objects, job.runId) == Mine(s.objects, job.runId);
    }
  }
}
