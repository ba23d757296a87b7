/** Redelivered jobs: crashes before the first artifact write are invisible in the outcome, and a
    crash after one leaves only failure. */
module Redelivery {
  import opened Outcomes
  import opened Contract
  import opened Jobs
  import opened ObjectKeys
  import opened ObjectStorage
  import opened ExecutorMachine
  import opened RecordValidity
  import opened ExecutionInvariant
  import opened ExecutorEffects
  import opened CrashResume
  import Port = RepositoryPort

  /** The first artifact the stored input leads to is already in the store: a new execution will
      find its path taken. */
  ghost predicate Tainted(cfg: Config, job: ExecutionJob, origin: Provenance, mine: Objects) {
    && InputObject(mine, job.runId).Ok?
    && var built := cfg.build(job.profile, origin, InputObject(mine, job.runId).value.1.data, false);
       && built.Built?
       && var first := Plan(cfg, built.payloads)[0];
          first.WriteIt? && HasKey(mine, KeyOf(job.runId, first.spec))
  }

  /** Either nothing was written since `mine0`, or the run is tainted; later writes need a first one. */
  ghost predicate Marked(cfg: Config, job: ExecutionJob, pc: Pc, s: Shared, mine0: Objects)
    requires job.runId in s.runs
  {
    var mine := Mine(s.objects, job.runId);
    && (mine == mine0 || Tainted(cfg, job, Stored(job, s).origin, mine))
    && (Tainted(cfg, job, Stored(job, s).origin, mine0) ==> Tainted(cfg, job, Stored(job, s).origin, mine))
    && (pc.InTry? && pc.point.Publish? && pc.point.k > 0 ==> Tainted(cfg, job, Stored(job, s).origin, mine))
  }

  lemma TaintedFails(cfg: Config, job: ExecutionJob, m: AnalysisRun, mine: Objects)
    requires Tainted(cfg, job, m.origin, mine) && !m.status.IsTerminal()
    ensures StartFate(cfg, job, m, mine) == FAILURE
  {
    var built := cfg.build(job.profile, m.origin, InputObject(mine, job.runId).value.1.data, false);
    var plan := Plan(cfg, built.payloads);
    assert !Writable(cfg, job.runId, mine, plan[0]);
  }

  // ---------------------------------------------------------------- steps keep the mark

  predicate LatePublish(pc: Pc) {
    pc.InTry? && pc.point.Publish? && pc.point.k > 0
  }

  lemma {:induction false} AtStageFresh(cfg: Config, job: ExecutionJob, l: Locals, i: nat)
    ensures !LatePublish(AtStage(cfg, job, l, i))
    decreases |l.run.stages| - i
  {
    hide Plan;
    if i < |l.run.stages| && StageDone(l.run.stages[i]) {
      AtStageFresh(cfg, job, l.(active := i), i + 1);
    }
  }

  /** Only publication itself goes on publishing, and only publication writes objects. */
  lemma StepFresh(cfg: Config, job: ExecutionJob, worker: string, pc: Pc, s: Shared)
    requires PcOk(cfg, pc) && !(pc.InTry? && pc.point.Publish?)
    ensures var (pc', s') := Next(cfg, job, worker, pc, s); !LatePublish(pc') && s'.objects == s.objects
  {
    hide AnalysisRun.Valid, Port.Save, AtStage, CancelRecord, FailRecord, Plan;
    match pc
    case Loading =>
      if job.runId in s.runs {
        AtStageFresh(cfg, job, Locals(s.runs[job.runId].manifest, -1, None, []), 0);
      }
    case SaveStart(run) =>
      var started := run.Start(cfg.screen, s.clock, run.stages);
      if started.Ok? {
        AtStageFresh(cfg, job, Locals(started.value, -1, None, []), 0);
      }
    case InTry(l, point) => TryFresh(cfg, job, worker, l, point, s);
    case _ =>
  }

  lemma TryFresh(cfg: Config, job: ExecutionJob, worker: string, l: Locals, point: TryPoint, s: Shared)
    requires TryPointOk(cfg, l, point) && !point.Publish?
    ensures var (pc', s') := TryNext(cfg, job, worker, l, point, s); !LatePublish(pc') && s'.objects == s.objects
  {
    hide AnalysisRun.Valid, Port.Save, AtStage, ReferenceIntact, InputObject, FinalRecord, Plan;
    match point
    case SaveSkip(i) => SavedStageFresh(cfg, job, s, l, i, SkippedStage(l.run.stages[i], s.clock));
    case SaveFinished(i) =>
      var stage := FinishedStage(l.run.stages[i], s.clock, cfg.metrics(job, worker, l.run.stages[i].stageName));
      SavedStageFresh(cfg, job, s, l, i, stage);
    case _ =>
  }

  lemma SavedStageFresh(cfg: Config, job: ExecutionJob, s: Shared, l: Locals, i: nat, stage: StageExecution)
    requires i < |l.run.stages|
    ensures var (pc', s') := SavingStage(cfg, s, l, i, stage, l' => AtStage(cfg, job, l', i + 1));
            !LatePublish(pc') && s'.objects == s.objects
  {
    hide AnalysisRun.Valid, Port.Save;
    var run := l.run.WithStages(cfg.screen, l.run.stages[i := stage]);
    if run.Ok? {
      AtStageFresh(cfg, job, l.(run := run.value), i + 1);
    }
  }

  /** Once there, the first artifact stays in the way. */
  lemma TaintGrows(cfg: Config, job: ExecutionJob, origin: Provenance, mine: Objects, mine': Objects)
    requires Tainted(cfg, job, origin, mine) && mine <= mine'
    requires InputObject(mine', job.runId) == InputObject(mine, job.runId)
    ensures Tainted(cfg, job, origin, mine')
  {
    hide InputObject, Plan;
    var built := cfg.build(job.profile, origin, InputObject(mine, job.runId).value.1.data, false);
    PlanNonEmpty(cfg, built.payloads);
    var key := KeyOf(job.runId, Plan(cfg, built.payloads)[0].spec);
    var i :| 0 <= i < |mine| && mine[i].0 == key;
    assert mine'[i].0 == key;
  }

  /** A publication write grows the run's objects or leaves them, and item 0 leaves its mark. */
  lemma PublishMarks(cfg: Config, job: ExecutionJob, l: Locals, k: nat, origin: Provenance, mine: Objects)
    requires IsUuid4(job.runId) && TryPointOk(cfg, l, Publish(k))
    requires InputObject(mine, job.runId).Ok?
    requires cfg.build(job.profile, origin, InputObject(mine, job.runId).value.1.data, false) == Built(l.payloads.value)
    requires k > 0 ==> Tainted(cfg, job, origin, mine)
    ensures var mine' := WriteArtifact(cfg.sha, mine, job.runId, Plan(cfg, l.payloads.value)[k].spec).1;
            && mine <= mine'
            && InputObject(mine', job.runId) == InputObject(mine, job.runId)
            && (mine' == mine || Tainted(cfg, job, origin, mine'))
            && (WriteArtifact(cfg.sha, mine, job.runId, Plan(cfg, l.payloads.value)[k].spec).0.Ok? ==>
                  Tainted(cfg, job, origin, mine'))
  {
    hide ArtifactReference.Valid, InputObject, Plan;
    var spec := Plan(cfg, l.payloads.value)[k].spec;
    WriteKeepsInputs(cfg.sha, mine, job.runId, spec, job.runId);
    var (r, mine') := WriteArtifact(cfg.sha, mine, job.runId, spec);
    if k > 0 {
      TaintGrows(cfg, job, origin, mine, mine');
    } else if mine' != mine {
      assert mine'[|mine|].0 == KeyOf(job.runId, spec);
    }
  }

  /** Documents in hand are what the stored input leads to. */
  ghost predicate Steady(cfg: Config, job: ExecutionJob, pc: Pc, s: Shared) {
    Inv(cfg, job, pc, s) && PayloadInv(cfg, job, pc, Stored(job, s), Mine(s.objects, job.runId))
  }

  lemma StepMarks(cfg: Config, job: ExecutionJob, worker: string, pc: Pc, s: Shared, mine0: Objects)
    requires PcOk(cfg, pc) && Steady(cfg, job, pc, s) && Marked(cfg, job, pc, s, mine0)
    ensures var (pc', s') := Next(cfg, job, worker, pc, s);
            job.runId in s'.runs && Marked(cfg, job, pc', s', mine0)
            && Stored(job, s').origin == Stored(job, s).origin
  {
    hide Tainted, PcInv, StoredOk, ObjectsInv, Next, Mine;
    StepKeepsOrigin(cfg, job, worker, pc, s, job.runId);
    if pc.InTry? && pc.point.Publish? {
      PublishStepMarks(cfg, job, worker, pc.locals, pc.point.k, s, mine0);
    } else {
      StepFresh(cfg, job, worker, pc, s);
    }
  }

  lemma PublishStepMarks(cfg: Config, job: ExecutionJob, worker: string, l: Locals, k: nat, s: Shared, mine0: Objects)
    requires PcOk(cfg, InTry(l, Publish(k))) && Steady(cfg, job, InTry(l, Publish(k)), s)
    requires Marked(cfg, job, InTry(l, Publish(k)), s, mine0)
    ensures var (pc', s') := Next(cfg, job, worker, InTry(l, Publish(k)), s);
            s'.runs == s.runs && Marked(cfg, job, pc', s', mine0)
  {
    hide Tainted, Inv, ObjectsInv, Mine, Plan, WriteArtifact, InputObject;
    TryFacts(cfg, job, l, Publish(k), s);
    var mine, spec := Mine(s.objects, job.runId), Plan(cfg, l.payloads.value)[k].spec;
    MineWrite(cfg.sha, s.objects, job.runId, spec);
    PublishMarks(cfg, job, l, k, l.run.origin, mine);
    var mine' := WriteArtifact(cfg.sha, mine, job.runId, spec).1;
    if mine' != mine && Tainted(cfg, job, l.run.origin, mine) {
      TaintGrows(cfg, job, l.run.origin, mine, mine');
    }
  }

  lemma {:induction false} RunMarks(cfg: Config, job: ExecutionJob, worker: string, env: Environment, pc: Pc,
                                    s: Shared, tick: nat, fuel: nat, mine0: Objects)
    requires GoodConfig(cfg) && CancelsOnlyOnRequest(cfg) && Peaceful(job.runId, env)
    requires PcOk(cfg, pc) && Calm(cfg, job, pc, s) && Marked(cfg, job, pc, s, mine0)
    ensures var (pc', s') := Run(cfg, job, worker, env, pc, s, tick, fuel);
            && job.runId in s'.runs && Marked(cfg, job, pc', s', mine0)
            && Stored(job, s').origin == Stored(job, s).origin
    decreases fuel
  {
    hide GoodConfig, CancelsOnlyOnRequest, PcInv, StoredOk, ObjectsInv, PayloadInv, Duration, Next, QuietStep, Mine,
         Tainted;
    if fuel > 0 && !pc.Done? {
      var between := env(tick, s);
      assert QuietStep(job.runId, s, between);
      QuietMarks(cfg, job, pc, s, between, mine0);
      PeaceKeepsFate(cfg, job, pc, s, between);
      StepKeepsFate(cfg, job, worker, pc, between);
      StepMarks(cfg, job, worker, pc, between, mine0);
      NextOk(cfg, job, worker, pc, between);
      var (pc', s') := Next(cfg, job, worker, pc, between);
      RunMarks(cfg, job, worker, env, pc', s', tick + 1, fuel - 1, mine0);
    }
  }

  lemma QuietMarks(cfg: Config, job: ExecutionJob, pc: Pc, s: Shared, s': Shared, mine0: Objects)
    requires job.runId in s.runs && Marked(cfg, job, pc, s, mine0) && QuietStep(job.runId, s, s')
    ensures job.runId in s'.runs && Marked(cfg, job, pc, s', mine0) && Stored(job, s').origin == Stored(job, s).origin
  {
    hide Tainted, Mine;
  }

  // ---------------------------------------------------------------- steps keep the list of stages

  /** The same stages, each as required as before. */
  ghost predicate SameStages(m: AnalysisRun, m': AnalysisRun) {
    && m.origin == m'.origin && |m.stages| == |m'.stages|
    && (forall i :: 0 <= i < |m.stages| ==> m.stages[i].required == m'.stages[i].required)
  }

  lemma StageStepKeepsStages(cfg: Config, job: ExecutionJob, s: Shared, l: Locals, i: nat, stage: StageExecution,
                             next: Locals -> Pc)
    requires job.runId in s.runs && StoredOk(cfg, Stored(job, s), job.runId, s.clock) && l.run == Stored(job, s)
    requires i < |l.run.stages| && stage.required == l.run.stages[i].required
    ensures var s' := SavingStage(cfg, s, l, i, stage, next).1;
            job.runId in s'.runs && SameStages(l.run, Stored(job, s'))
  {
    hide AnalysisRun.Valid, Stamped;
  }

  lemma TryKeepsStages(cfg: Config, job: ExecutionJob, worker: string, l: Locals, point: TryPoint, s: Shared)
    requires GoodConfig(cfg) && PcOk(cfg, InTry(l, point)) && Inv(cfg, job, InTry(l, point), s)
    ensures var s' := TryNext(cfg, job, worker, l, point, s).1;
            && job.runId in s'.runs
            && (Stored(job, s').status.IsTerminal() || SameStages(l.run, Stored(job, s')))
  {
    hide AnalysisRun.Valid, GoodConfig, Inv, PcInv, SavingStage, StoredOk, Building, WriteArtifact, Plan, AtStage;
    TryFacts(cfg, job, l, point, s);
    match point
    case SaveSkip(i) =>
      StageStepKeepsStages(cfg, job, s, l, i, SkippedStage(l.run.stages[i], s.clock), l' => AtStage(cfg, job, l', i + 1));
    case SaveRunning(i) =>
      StageStepKeepsStages(cfg, job, s, l, i, RunningStage(l.run.stages[i], s.clock), l' =>
        if job.profile.V1Compat? && l.run.stages[i].stageName.Detection? then InTry(l', BuildAtDetection(i))
        else InTry(l', CheckAfter(i)));
    case SaveFinished(i) =>
      var stage := FinishedStage(l.run.stages[i], s.clock, cfg.metrics(job, worker, l.run.stages[i].stageName));
      StageStepKeepsStages(cfg, job, s, l, i, stage, l' => AtStage(cfg, job, l', i + 1));
    case SaveFinal(final) =>
    case _ =>
  }

  lemma StepKeepsStages(cfg: Config, job: ExecutionJob, worker: string, pc: Pc, s: Shared)
    requires GoodConfig(cfg) && PcOk(cfg, pc) && Inv(cfg, job, pc, s)
    ensures var s' := Next(cfg, job, worker, pc, s).1;
            && job.runId in s'.runs
            && (Stored(job, s').status.IsTerminal() || SameStages(Stored(job, s), Stored(job, s')))
  {
    hide AnalysisRun.Valid, GoodConfig, TryNext, EnterTry, CancelRecord, FailRecord, StoredOk, PointInv;
    match pc
    case InTry(l, point) => TryKeepsStages(cfg, job, worker, l, point, s);
    case _ =>
  }

  lemma {:induction false} RunKeepsStages(cfg: Config, job: ExecutionJob, worker: string, env: Environment, pc: Pc,
                                          s: Shared, tick: nat, fuel: nat)
    requires GoodConfig(cfg) && Quiet(job.runId, env) && PcOk(cfg, pc) && Inv(cfg, job, pc, s)
    ensures var (pc', s') := Run(cfg, job, worker, env, pc, s, tick, fuel);
            && job.runId in s'.runs
            && (Stored(job, s').status.IsTerminal() || SameStages(Stored(job, s), Stored(job, s')))
            && (Stored(job, s).status.IsTerminal() ==> Stored(job, s') == Stored(job, s))
    decreases fuel
  {
    hide GoodConfig, PcInv, StoredOk, Next, QuietStep;
    if fuel > 0 && !pc.Done? {
      var between := env(tick, s);
      assert QuietStep(job.runId, s, between);
      StageEnvironment(cfg, job, pc, s, between);
      StepInv(cfg, job, worker, pc, between);
      StepKeepsStages(cfg, job, worker, pc, between);
      TerminalStays(cfg, job, worker, pc, between);
      NextOk(cfg, job, worker, pc, between);
      var (pc', s') := Next(cfg, job, worker, pc, between);
      RunKeepsStages(cfg, job, worker, env, pc', s', tick + 1, fuel - 1);
    }
  }

  lemma StageEnvironment(cfg: Config, job: ExecutionJob, pc: Pc, s: Shared, s': Shared)
    requires Inv(cfg, job, pc, s) && QuietStep(job.runId, s, s')
    ensures Inv(cfg, job, pc, s') && Stored(job, s') == Stored(job, s)
  {
    hide PcInv, StoredOk;
    InvQuiet(cfg, job, pc, s, s');
  }

  lemma TerminalStays(cfg: Config, job: ExecutionJob, worker: string, pc: Pc, s: Shared)
    requires PcOk(cfg, pc) && Inv(cfg, job, pc, s)
    ensures var s' := Next(cfg, job, worker, pc, s).1;
            job.runId in s'.runs && (Stored(job, s).status.IsTerminal() ==> Stored(job, s') == Stored(job, s))
  {
    hide AnalysisRun.Valid, Stamped, Next;
    StepEffect(cfg, job, worker, pc, s);
  }

  // ---------------------------------------------------------------- main results

  lemma ResumeCalm(cfg: Config, job: ExecutionJob, pc: Pc, s: Shared)
    requires Calm(cfg, job, pc, s)
    ensures Calm(cfg, job, Loading, s)
  {
    hide PcInv, StoredOk, OwnPaths, Duration, Mine;
    ResumeInv(cfg, job, pc, s);
  }

  /** An execution that ended is at `Done`; an unfinished manifest means it has not. */
  lemma FinishedMeansDone(cfg: Config, job: ExecutionJob, pc: Pc, s: Shared)
    requires Calm(cfg, job, pc, s)
    ensures Stored(job, s).status.IsTerminal() ==> FateIn(cfg, job, pc, s) == OutcomeFrom(cfg, job, s)
    ensures pc.Done? ==> Stored(job, s).status.IsTerminal()
  {
    hide StoredOk, ObjectsInv, PayloadInv, StartFate, Duration, PointInv, Mine;
  }

  /** What one delivery, complete or crashed anywhere, leaves for the next one to achieve. */
  lemma DeliveryOutcome(cfg: Config, job: ExecutionJob, s: Shared, d: Delivery)
    requires GoodConfig(cfg) && CancelsOnlyOnRequest(cfg) && Peaceful(job.runId, d.env) && Calm(cfg, job, Loading, s)
    ensures var (pc, s') := Run(cfg, job, d.worker, d.env, Loading, s, 0, d.crashAt);
            var untouched := Mine(s'.objects, job.runId) == Mine(s.objects, job.runId);
            && Calm(cfg, job, Loading, s')
            && (pc.Done? ==> Stored(job, s').status.IsTerminal())
            && (Stored(job, s').status.IsTerminal() || untouched ==> OutcomeFrom(cfg, job, s') == OutcomeFrom(cfg, job, s))
            && (!Stored(job, s').status.IsTerminal() && !untouched ==> OutcomeFrom(cfg, job, s') == FAILURE)
            && (Stored(job, s).status.IsTerminal() ==> Stored(job, s').status.IsTerminal())
  {
    hide GoodConfig, CancelsOnlyOnRequest, PcInv, StoredOk, ObjectsInv, PayloadInv, Duration, Run, Tainted, Mine,
         StartFate, QuietStep;
    var mine := Mine(s.objects, job.runId);
    RunKeepsFate(cfg, job, d.worker, d.env, Loading, s, 0, d.crashAt);
    RunMarks(cfg, job, d.worker, d.env, Loading, s, 0, d.crashAt, mine);
    RunKeepsStages(cfg, job, d.worker, d.env, Loading, s, 0, d.crashAt);
    var (pc, s') := Run(cfg, job, d.worker, d.env, Loading, s, 0, d.crashAt);
    ResumeCalm(cfg, job, pc, s');
    FinishedMeansDone(cfg, job, pc, s');
    var mine' := Mine(s'.objects, job.runId);
    if !Stored(job, s').status.IsTerminal() {
      if mine' == mine {
        SkeletonFate(cfg, job, Stored(job, s), Stored(job, s'), mine);
      } else {
        TaintedFails(cfg, job, Stored(job, s'), mine');
      }
    }
  }

  ghost predicate AllPeaceful(runId: string, ds: seq<Delivery>) {
    forall i :: 0 <= i < |ds| ==> Peaceful(runId, ds[i].env)
  }

  /** The state the first `i` deliveries leave. */
  function After(cfg: Config, job: ExecutionJob, s: Shared, ds: seq<Delivery>, i: nat): Shared
    requires i <= |ds|
  {
    Deliver(cfg, job, s, ds[..i]).1
  }

  /** Every delivery that left the run unfinished also left its objects as they were. */
  ghost predicate CrashedBeforeWrites(cfg: Config, job: ExecutionJob, s: Shared, ds: seq<Delivery>) {
    forall i :: 0 <= i <= |ds| ==>
      var s' := After(cfg, job, s, ds, i);
      job.runId in s'.runs && !Stored(job, s').status.IsTerminal() ==>
        Mine(s'.objects, job.runId) == Mine(s.objects, job.runId)
  }

  lemma PrefixAfter(cfg: Config, job: ExecutionJob, s: Shared, ds: seq<Delivery>, i: nat)
    requires |ds| > 0 && i < |ds|
    ensures After(cfg, job, s, ds[..|ds| - 1], i) == After(cfg, job, s, ds, i)
  {
    assert ds[..|ds| - 1][..i] == ds[..i];
  }

  lemma CrashedPrefix(cfg: Config, job: ExecutionJob, s: Shared, ds: seq<Delivery>)
    requires |ds| > 0
    ensures CrashedBeforeWrites(cfg, job, s, ds) <==>
              && CrashedBeforeWrites(cfg, job, s, ds[..|ds| - 1])
              && var s' := After(cfg, job, s, ds, |ds|);
                 job.runId in s'.runs && !Stored(job, s').status.IsTerminal() ==>
                   Mine(s'.objects, job.runId) == Mine(s.objects, job.runId)
  {
    hide Mine, Deliver, After;
    var init := ds[..|ds| - 1];
    forall i | 0 <= i < |ds| ensures After(cfg, job, s, init, i) == After(cfg, job, s, ds, i) {
      PrefixAfter(cfg, job, s, ds, i);
    }
  }

  /** Crash-resume theorem: through any sequence of deliveries, crashed anywhere or complete, the
      outcome in prospect stays that of the first state exactly as long as every crash came
      before the first artifact write; after one that came later it is failure for good. */
  lemma {:induction false} CrashResumeOutcome(cfg: Config, job: ExecutionJob, s: Shared, ds: seq<Delivery>)
    requires GoodConfig(cfg) && CancelsOnlyOnRequest(cfg) && AllPeaceful(job.runId, ds) && Calm(cfg, job, Loading, s)
    ensures var (pc, s') := Deliver(cfg, job, s, ds);
            && Calm(cfg, job, Loading, s')
            && OutcomeFrom(cfg, job, s') == (if CrashedBeforeWrites(cfg, job, s, ds) then OutcomeFrom(cfg, job, s) else FAILURE)
            && (pc.Done? ==> Stored(job, s').status.IsTerminal())
  {
    hide GoodConfig, CancelsOnlyOnRequest, PcInv, StoredOk, ObjectsInv, PayloadInv, Duration, Run, Mine, StartFate,
         CrashedBeforeWrites, Peaceful;
    if ds == [] {
      NoDeliveries(cfg, job, s, ds);
    } else {
      var init, d := ds[..|ds| - 1], ds[|ds| - 1];
      var before := Deliver(cfg, job, s, init).1;
      CrashResumeOutcome(cfg, job, s, init);
      DeliveryOutcome(cfg, job, before, d);
      CrashedPrefix(cfg, job, s, ds);
      assert ds[..|ds|] == ds;
      if CrashedBeforeWrites(cfg, job, s, init) && !Stored(job, before).status.IsTerminal() {
        LastUntouched(cfg, job, s, init);
      }
    }
  }

  lemma LastUntouched(cfg: Config, job: ExecutionJob, s: Shared, ds: seq<Delivery>)
    requires CrashedBeforeWrites(cfg, job, s, ds)
    ensures var s' := Deliver(cfg, job, s, ds).1;
            job.runId in s'.runs && !Stored(job, s').status.IsTerminal() ==>
              Mine(s'.objects, job.runId) == Mine(s.objects, job.runId)
  {
    hide Mine, Deliver;
    assert ds[..|ds|] == ds;
    assert After(cfg, job, s, ds, |ds|) == Deliver(cfg, job, s, ds).1;
  }

  lemma NoDeliveries(cfg: Config, job: ExecutionJob, s: Shared, ds: seq<Delivery>)
    requires ds == []
    ensures CrashedBeforeWrites(cfg, job, s, ds)
  {
    hide Mine;
    assert After(cfg, job, s, ds, 0) == s;
  }

  /** A run crashed any number of times before its first artifact write ends with the status,
      references and object bytes of an execution that was never interrupted. */
  lemma CrashedRunMatchesUninterrupted(cfg: Config, job: ExecutionJob, s: Shared, ds: seq<Delivery>, straight: Delivery)
    requires GoodConfig(cfg) && CancelsOnlyOnRequest(cfg) && Calm(cfg, job, Loading, s)
    requires AllPeaceful(job.runId, ds) && Peaceful(job.runId, straight.env)
    requires CrashedBeforeWrites(cfg, job, s, ds)
    requires Deliver(cfg, job, s, ds).0.Done?
    requires Run(cfg, job, straight.worker, straight.env, Loading, s, 0, straight.crashAt).0.Done?
    ensures var crashed, whole := Deliver(cfg, job, s, ds).1,
                                  Run(cfg, job, straight.worker, straight.env, Loading, s, 0, straight.crashAt).1;
            && job.runId in crashed.runs && job.runId in whole.runs
            && var m, n := Stored(job, crashed), Stored(job, whole);
               && m.status == n.status && m.status.IsTerminal()
               && m.artifacts == n.artifacts
               && (m.status in {Succeeded, Partial} ==>
                     Mine(crashed.objects, job.runId) == Mine(whole.objects, job.runId))
  {
    hide GoodConfig, CancelsOnlyOnRequest, PcInv, StoredOk, ObjectsInv, PayloadInv, Duration, Run, Deliver, Mine,
         CrashedBeforeWrites, Peaceful, BuildFate;
    CrashResumeOutcome(cfg, job, s, ds);
    DeliveryOutcome(cfg, job, s, straight);
  }

  /** A crash after any artifact write can never later end in success, whole or partial. */
  lemma CrashAfterWriteFails(cfg: Config, job: ExecutionJob, s: Shared, ds: seq<Delivery>)
    requires GoodConfig(cfg) && CancelsOnlyOnRequest(cfg) && Calm(cfg, job, Loading, s)
    requires AllPeaceful(job.runId, ds) && !CrashedBeforeWrites(cfg, job, s, ds)
    ensures var s' := Deliver(cfg, job, s, ds).1;
            job.runId in s'.runs && (Stored(job, s').status.IsTerminal() ==>
              Stored(job, s').status.Failed? && Stored(job, s').artifacts == [])
  {
    hide GoodConfig, CancelsOnlyOnRequest, PcInv, StoredOk, ObjectsInv, PayloadInv, Duration, Run, Deliver, Mine,
         CrashedBeforeWrites, Peaceful, BuildFate;
    CrashResumeOutcome(cfg, job, s, ds);
  }

  /** No terminal manifest lists a partial set: a succeeded or partial run, however often it was
      crashed and redelivered, lists one reference per planned artifact, and the store gained
      exactly those objects. */
  lemma TerminalSetComplete(cfg: Config, job: ExecutionJob, s: Shared, ds: seq<Delivery>)
    requires GoodConfig(cfg) && CancelsOnlyOnRequest(cfg) && Calm(cfg, job, Loading, s)
    requires AllPeaceful(job.runId, ds) && !Stored(job, s).status.IsTerminal()
    ensures var s' := Deliver(cfg, job, s, ds).1;
            job.runId in s'.runs && (Stored(job, s').status in {Succeeded, Partial} ==>
              exists payloads :: WholePlanPublished(cfg, job, s, s', payloads))
  {
    hide GoodConfig, CancelsOnlyOnRequest, PcInv, StoredOk, ObjectsInv, PayloadInv, Duration, Run, Deliver, Mine,
         CrashedBeforeWrites, Peaceful, Plan, InputObject, CanWrite;
    CrashResumeOutcome(cfg, job, s, ds);
    var s' := Deliver(cfg, job, s, ds).1;
    if Stored(job, s').status in {Succeeded, Partial} {
      var mine := Mine(s.objects, job.runId);
      var built := cfg.build(job.profile, Stored(job, s).origin, InputObject(mine, job.runId).value.1.data, false);
      var plan := Plan(cfg, built.payloads);
      assert plan[0..] == plan;
      AllWrites(cfg, job.runId, mine, plan, 0);
      assert [] + PlanRefs(cfg, plan) == PlanRefs(cfg, plan);
      assert WholePlanPublished(cfg, job, s, s', built.payloads);
    }
  }

  ghost predicate WholePlanPublished(cfg: Config, job: ExecutionJob, s: Shared, s': Shared, payloads: seq<Payload>)
    requires job.runId in s'.runs
  {
    var plan := Plan(cfg, payloads);
    && (forall j :: 0 <= j < |plan| ==> plan[j].WriteIt?)
    && Stored(job, s').artifacts == PlanRefs(cfg, plan)
    && Mine(s'.objects, job.runId) == Mine(s.objects, job.runId) + PlanEntries(cfg, job.runId, plan)
  }

  /** A freshly created attempt is such a first state. */
  lemma FreshRunIsCalm(cfg: Config, job: ExecutionJob, s: Shared)
    requires job.runId in s.runs && StoredOk(cfg, Stored(job, s), job.runId, s.clock)
    requires Stored(job, s).status.Queued? && !s.runs[job.runId].cancelRequested
    requires KeysUnique(s.objects) && Duration(cfg, Stored(job, s).origin.parameters).Ok?
    requires forall i :: 0 <= i < |s.objects| ==> !HasPrefix(s.objects[i].0, ArtifactPrefix(job.runId))
    ensures Calm(cfg, job, Loading, s)
  {
    hide StoredOk, Duration, Mine;
    MineSubset(s.objects, job.runId);
    var mine := Mine(s.objects, job.runId);
    forall i | 0 <= i < |mine| ensures !HasPrefix(mine[i].0, ArtifactPrefix(job.runId)) {
      assert mine[i] in s.objects;
    }
    assert OwnPaths(mine, job.runId);
  }

  lemma {:induction false} MineSubset(objects: Objects, runId: string)
    requires KeysUnique(objects)
    ensures KeysUnique(Mine(objects, runId))
    ensures forall e :: e in Mine(objects, runId) ==> e in objects
  {
    if objects != [] {
      MineSubset(objects[1..], runId);
      MineStep(objects, runId);
      var mine, rest := Mine(objects, runId), Mine(objects[1..], runId);
      forall e | e in rest ensures e.0 != objects[0].0 {
        assert e in objects[1..];
      }
      hide Mine, HasPrefix;
      if mine != rest {
        assert mine == [objects[0]] + rest;
      }
    }
  }
}
