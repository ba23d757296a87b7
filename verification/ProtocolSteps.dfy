/** Every event of the service keeps the global invariant. */
module ProtocolSteps {
  import opened Outcomes
  import opened JsonValues
  import opened Contract
  import opened Jobs
  import opened ObjectKeys
  import opened ObjectStorage
  import opened ExecutorMachine
  import opened Protocol
  import Port = RepositoryPort

  // ---------------------------------------------------------------- control flow of one executor

  lemma AtPublishOk(cfg: Config, job: ExecutionJob, l: Locals, k: nat, s: Shared)
    requires l.run.RunId() == job.runId && AllPublished(cfg, s, job.runId, l.artifacts)
    ensures ProcessOk(cfg, job, AtPublish(cfg, l, k), s)
  {
    hide Plan, Intact;
  }

  lemma {:induction false} AtStageProcess(cfg: Config, job: ExecutionJob, l: Locals, i: nat, s: Shared)
    requires l.run.RunId() == job.runId && AllPublished(cfg, s, job.runId, l.artifacts)
    ensures ProcessOk(cfg, job, AtStage(cfg, job, l, i), s)
    decreases |l.run.stages| - i
  {
    hide Plan, AtPublish, AllPublished;
    if i >= |l.run.stages| {
      AtPublishOk(cfg, job, l, 0, s);
    } else if StageDone(l.run.stages[i]) {
      AtStageProcess(cfg, job, l.(active := i), i + 1, s);
    }
  }

  lemma EnterProcess(cfg: Config, job: ExecutionJob, run: AnalysisRun, s: Shared)
    requires run.RunId() == job.runId
    ensures ProcessOk(cfg, job, EnterTry(cfg, job, run), s)
  {
    hide Duration;
    AtStageProcess(cfg, job, Locals(run, -1, None, []), 0, s);
  }

  /** The invariant after one access. */
  ghost predicate AccessOk(cfg: Config, job: ExecutionJob, s: Shared, r: (Pc, Shared)) {
    && StoreOk(cfg, r.1) && Grows(s, r.1) && r.1.runs.Keys == s.runs.Keys
    && ProcessOk(cfg, job, r.0, r.1)
  }

  lemma Unchanged(cfg: Config, job: ExecutionJob, pc: Pc, s: Shared)
    requires StoreOk(cfg, s) && ProcessOk(cfg, job, pc, s)
    ensures AccessOk(cfg, job, s, (pc, s))
  {
    hide Sound, ProcessOk;
  }

  /** A save that goes through leads to `next`, one that is refused to `refused`. */
  lemma SavingOk(cfg: Config, job: ExecutionJob, s: Shared, run: AnalysisRun, next: Pc, refused: Fault -> Pc)
    requires StoreOk(cfg, s) && Sound(cfg, s, run) && run.RunId() == job.runId
    requires Port.Save(s.runs, run).Ok? ==>
               var s' := s.(runs := Port.Save(s.runs, run).value);
               Grows(s, s') && job.runId in s'.runs && s'.runs[job.runId].manifest == run ==> ProcessOk(cfg, job, next, s')
    requires Port.Save(s.runs, run).Err? ==> ProcessOk(cfg, job, refused(Port.Save(s.runs, run).fault), s)
    ensures AccessOk(cfg, job, s, Saving(s, run, next, refused))
  {
    hide AnalysisRun.Valid, AllIntact, ProcessOk, Port.Save, Grows, StoreOk;
    if Port.Save(s.runs, run).Ok? {
      SaveStays(cfg, s, run);
    } else {
      Unchanged(cfg, job, refused(Port.Save(s.runs, run).fault), s);
    }
  }

  lemma HandlerProcess(cfg: Config, job: ExecutionJob, active: int, fault: Fault, s: Shared)
    ensures ProcessOk(cfg, job, FailWith(active, fault), s)
  {
  }

  // ---------------------------------------------------------------- one access of one executor

  lemma NothingListed(cfg: Config, s: Shared, run: AnalysisRun)
    requires run.Valid(cfg.screen) && run.status !in {Succeeded, Partial}
    ensures Sound(cfg, s, run)
  {
    hide AnalysisRun.ComponentsValid;
  }

  lemma CancelSound(cfg: Config, s: Shared, run: AnalysisRun, at: Instant, reason: Option<string>,
                    stages: seq<StageExecution>)
    ensures var c := run.Cancel(cfg.screen, at, reason, stages);
            c.Ok? ==> Sound(cfg, s, c.value) && c.value.RunId() == run.RunId() && c.value.status.Cancelled?
  {
    hide AnalysisRun.Valid;
    var c := run.Cancel(cfg.screen, at, reason, stages);
    if c.Ok? {
      NothingListed(cfg, s, c.value);
    }
  }

  lemma FailSound(cfg: Config, s: Shared, run: AnalysisRun, at: Instant, error: StructuredError,
                  stages: seq<StageExecution>)
    ensures var f := run.Fail(cfg.screen, at, error, stages);
            f.Ok? ==> Sound(cfg, s, f.value) && f.value.RunId() == run.RunId() && f.value.status.Failed?
  {
    hide AnalysisRun.Valid;
    var f := run.Fail(cfg.screen, at, error, stages);
    if f.Ok? {
      NothingListed(cfg, s, f.value);
    }
  }

  lemma StartAccess(cfg: Config, job: ExecutionJob, worker: string, pc: Pc, s: Shared)
    requires StoreOk(cfg, s) && ProcessOk(cfg, job, pc, s)
    requires pc.Loading? || pc.CheckQueued?
    ensures AccessOk(cfg, job, s, Next(cfg, job, worker, pc, s))
  {
    hide Sound, EnterTry, Port.CancellationRequested;
    if pc.Loading? && job.runId in s.runs {
      EnterProcess(cfg, job, s.runs[job.runId].manifest, s);
    }
  }

  lemma QueuedSaveAccess(cfg: Config, job: ExecutionJob, worker: string, pc: Pc, s: Shared)
    requires StoreOk(cfg, s) && ProcessOk(cfg, job, pc, s)
    requires pc.SaveQueuedCancel? || pc.SaveStart?
    ensures AccessOk(cfg, job, s, Next(cfg, job, worker, pc, s))
  {
    hide AnalysisRun.Valid, AnalysisRun.Cancel, AnalysisRun.Start, Sound, EnterTry, Port.Save, Grows, StoreOk;
    match pc
    case SaveQueuedCancel(run) =>
      var c := run.Cancel(cfg.screen, s.clock, Some(QUEUED_CANCEL_REASON), run.stages);
      CancelSound(cfg, s, run, s.clock, Some(QUEUED_CANCEL_REASON), run.stages);
      if c.Ok? {
        SavingOk(cfg, job, s, c.value, Done(Returned(Cancelled)), f => Done(Raised(f)));
      } else {
        Unchanged(cfg, job, Done(Raised(c.fault)), s);
      }
    case SaveStart(run) =>
      var started := run.Start(cfg.screen, s.clock, run.stages);
      StartSound(cfg, s, run, s.clock, run.stages);
      if started.Ok? {
        var next := EnterTry(cfg, job, started.value);
        var saved := Port.Save(s.runs, started.value);
        if saved.Ok? {
          EnterProcess(cfg, job, started.value, s.(runs := saved.value));
        }
        SavingOk(cfg, job, s, started.value, next, f => Done(Raised(f)));
      } else {
        Unchanged(cfg, job, Done(Raised(started.fault)), s);
      }
  }

  lemma StartSound(cfg: Config, s: Shared, run: AnalysisRun, at: Instant, stages: seq<StageExecution>)
    ensures var r := run.Start(cfg.screen, at, stages);
            r.Ok? ==> Sound(cfg, s, r.value) && r.value.RunId() == run.RunId()
  {
    hide AnalysisRun.Valid;
    var r := run.Start(cfg.screen, at, stages);
    if r.Ok? {
      NothingListed(cfg, s, r.value);
    }
  }

  lemma StageSound(cfg: Config, s: Shared, run: AnalysisRun, stages: seq<StageExecution>)
    ensures var r := run.WithStages(cfg.screen, stages);
            r.Ok? ==> Sound(cfg, s, r.value) && r.value.RunId() == run.RunId()
  {
    hide AnalysisRun.Valid;
    var r := run.WithStages(cfg.screen, stages);
    if r.Ok? {
      NothingListed(cfg, s, r.value);
    }
  }

  lemma SavingStageAccess(cfg: Config, job: ExecutionJob, s: Shared, l: Locals, i: nat, stage: StageExecution,
                          next: Locals -> Pc)
    requires StoreOk(cfg, s) && i < |l.run.stages| && l.run.RunId() == job.runId
    requires AllPublished(cfg, s, job.runId, l.artifacts)
    requires forall l': Locals, s': Shared ::
               (&& l'.run.RunId() == job.runId && l'.artifacts == l.artifacts && |l'.run.stages| == |l.run.stages|
                && AllPublished(cfg, s', job.runId, l'.artifacts)) ==> ProcessOk(cfg, job, next(l'), s')
    ensures AccessOk(cfg, job, s, SavingStage(cfg, s, l, i, stage, next))
  {
    hide Sound, Port.Save, AllPublished, Grows, ProcessOk, StoreOk, AnalysisRun.Valid;
    var r := l.run.WithStages(cfg.screen, l.run.stages[i := stage]);
    StageSound(cfg, s, l.run, l.run.stages[i := stage]);
    if r.Ok? {
      var l' := l.(run := r.value);
      var saved := Port.Save(s.runs, r.value);
      if saved.Ok? {
        var s' := s.(runs := saved.value);
        assert AllPublished(cfg, s', job.runId, l'.artifacts) by {
          RefsStay(cfg, s, s', job.runId, l.artifacts, 0);
        }
        assert ProcessOk(cfg, job, next(l'), s');
      } else {
        HandlerProcess(cfg, job, l.active, saved.fault, s);
      }
      SavingOk(cfg, job, s, r.value, next(l'), f => FailWith(l.active, f));
    } else {
      HandlerProcess(cfg, job, l.active, r.fault, s);
      Unchanged(cfg, job, FailWith(l.active, r.fault), s);
    }
  }

  lemma StageAccess(cfg: Config, job: ExecutionJob, worker: string, l: Locals, point: TryPoint, s: Shared)
    requires StoreOk(cfg, s) && ProcessOk(cfg, job, InTry(l, point), s)
    requires point.SaveSkip? || point.SaveRunning? || point.SaveFinished?
    ensures AccessOk(cfg, job, s, TryNext(cfg, job, worker, l, point, s))
  {
    hide Sound, SavingStage, StoreOk, AllPublished, AtStage, AccessOk;
    var i := point.i;
    match point
    case SaveSkip(_) =>
      var next := (l': Locals) => AtStage(cfg, job, l', i + 1);
      AtStageAnywhere(cfg, job, i + 1);
      SavingStageAccess(cfg, job, s, l, i, SkippedStage(l.run.stages[i], s.clock), next);
    case SaveRunning(_) =>
      var next := (l': Locals) =>
        if job.profile.V1Compat? && l.run.stages[i].stageName.Detection? then InTry(l', BuildAtDetection(i))
        else InTry(l', CheckAfter(i));
      SavingStageAccess(cfg, job, s, l, i, RunningStage(l.run.stages[i], s.clock), next);
    case SaveFinished(_) =>
      var next := (l': Locals) => AtStage(cfg, job, l', i + 1);
      AtStageAnywhere(cfg, job, i + 1);
      var stage := FinishedStage(l.run.stages[i], s.clock, cfg.metrics(job, worker, l.run.stages[i].stageName));
      SavingStageAccess(cfg, job, s, l, i, stage, next);
  }

  lemma AtStageAnywhere(cfg: Config, job: ExecutionJob, i: nat)
    ensures forall l: Locals, s: Shared ::
              l.run.RunId() == job.runId && AllPublished(cfg, s, job.runId, l.artifacts) ==>
                ProcessOk(cfg, job, AtStage(cfg, job, l, i), s)
  {
    hide AllPublished, ProcessOk, AtStage;
    forall l: Locals, s: Shared | l.run.RunId() == job.runId && AllPublished(cfg, s, job.runId, l.artifacts)
      ensures ProcessOk(cfg, job, AtStage(cfg, job, l, i), s)
    {
      AtStageProcess(cfg, job, l, i, s);
    }
  }

  lemma ReadAccess(cfg: Config, job: ExecutionJob, worker: string, l: Locals, point: TryPoint, s: Shared)
    requires StoreOk(cfg, s) && ProcessOk(cfg, job, InTry(l, point), s)
    requires point.CheckBefore? || point.CheckAfter? || point.BuildAtDetection? || point.BuildLate? || point.Verify?
    ensures AccessOk(cfg, job, s, TryNext(cfg, job, worker, l, point, s))
  {
    hide Sound, AllPublished, AllIntact, InputObject, AtPublish, ReferenceIntact, Port.CancellationRequested, Grows, Plan;
    var r := TryNext(cfg, job, worker, l, point, s);
    assert r.1 == s;
    if point.BuildLate? {
      forall payloads | r.0 == AtPublish(cfg, l.(payloads := Some(payloads)), 0) ensures ProcessOk(cfg, job, r.0, s) {
        AtPublishOk(cfg, job, l.(payloads := Some(payloads)), 0, s);
      }
    } else if point.Verify? && ReferenceIntact(cfg.sha, s.objects, job.runId, l.artifacts[point.k]) {
      VerifiedMore(cfg, job, l, point.k, s);
    }
    Unchanged(cfg, job, r.0, s);
  }

  lemma VerifiedMore(cfg: Config, job: ExecutionJob, l: Locals, k: nat, s: Shared)
    requires ProcessOk(cfg, job, InTry(l, Verify(k)), s)
    requires ReferenceIntact(cfg.sha, s.objects, job.runId, l.artifacts[k])
    ensures ProcessOk(cfg, job, AtVerify(l, k + 1), s)
  {
    hide Published, ReferenceIntact;
  }

  /** A successful write is published under the run's own key. */
  lemma WritePublished(cfg: Config, job: ExecutionJob, s: Shared, spec: ArtifactSpec, objects: Objects)
    requires (WriteArtifact(cfg.sha, s.objects, job.runId, spec).1 == objects)
    ensures Extends(s.objects, objects)
    ensures var r := WriteArtifact(cfg.sha, s.objects, job.runId, spec).0;
            r.Ok? ==> Published(cfg.sha, objects, job.runId, r.value)
  {
    hide ArtifactReference.Valid, HasKey;
    var r := WriteArtifact(cfg.sha, s.objects, job.runId, spec).0;
    if r.Ok? {
      var entry := objects[|s.objects|];
      assert entry == (ArtifactKey(job.runId, spec.relativePath).value, ObjectOf(cfg.sha, spec));
    }
  }

  lemma PublishAccess(cfg: Config, job: ExecutionJob, worker: string, l: Locals, k: nat, s: Shared)
    requires StoreOk(cfg, s) && ProcessOk(cfg, job, InTry(l, Publish(k)), s)
    ensures AccessOk(cfg, job, s, TryNext(cfg, job, worker, l, Publish(k), s))
  {
    hide Sound, Published, WriteArtifact, AtPublish, Plan;
    var spec := Plan(cfg, l.payloads.value)[k].spec;
    var (r, objects) := WriteArtifact(cfg.sha, s.objects, job.runId, spec);
    var s' := s.(objects := objects);
    WritePublished(cfg, job, s, spec, objects);
    RefsStay(cfg, s, s', job.runId, l.artifacts, 0);
    StoreStays(cfg, s, s');
    if r.Ok? {
      AtPublishOk(cfg, job, l.(artifacts := l.artifacts + [r.value]), k + 1, s');
    }
  }

  lemma FinalSound(cfg: Config, job: ExecutionJob, s: Shared, current: AnalysisRun, refs: seq<ArtifactReference>,
                   at: Instant)
    requires current.RunId() == job.runId && AllIntact(cfg, s, job.runId, refs, |refs|)
    ensures var final := FinalRecord(cfg, current, refs, at);
            final.Ok? ==> RecordOk(cfg, s, job, final.value) && final.value.status in {Succeeded, Partial}
  {
    hide AnalysisRun.Valid, Intact, ForcePartial;
  }

  lemma ReloadAccess(cfg: Config, job: ExecutionJob, worker: string, l: Locals, s: Shared)
    requires StoreOk(cfg, s) && ProcessOk(cfg, job, InTry(l, Reload), s)
    ensures AccessOk(cfg, job, s, TryNext(cfg, job, worker, l, Reload, s))
  {
    hide Sound, AllPublished, AllIntact, FinalRecord, Grows;
    var r := TryNext(cfg, job, worker, l, Reload, s);
    if job.runId in s.runs {
      FinalSound(cfg, job, s, s.runs[job.runId].manifest, l.artifacts, s.clock);
    }
    Unchanged(cfg, job, r.0, s);
  }

  lemma SaveFinalAccess(cfg: Config, job: ExecutionJob, worker: string, l: Locals, final: AnalysisRun, s: Shared)
    requires StoreOk(cfg, s) && ProcessOk(cfg, job, InTry(l, SaveFinal(final)), s)
    ensures AccessOk(cfg, job, s, TryNext(cfg, job, worker, l, SaveFinal(final), s))
  {
    hide Sound, AllPublished, StoreOk, Port.Save, Grows;
    SavingOk(cfg, job, s, final, Done(Returned(final.status)), f => FailWith(l.active, f));
  }

  lemma HandlerAccess(cfg: Config, job: ExecutionJob, worker: string, pc: Pc, s: Shared)
    requires StoreOk(cfg, s) && ProcessOk(cfg, job, pc, s)
    requires pc.LoadForCancel? || pc.LoadForFail?
    ensures AccessOk(cfg, job, s, Next(cfg, job, worker, pc, s))
  {
    hide Sound, AnalysisRun.Cancel, AnalysisRun.Fail, Grows;
    if job.runId in s.runs {
      var m := s.runs[job.runId].manifest;
      match pc
      case LoadForCancel(active) => CancelRecordSound(cfg, s, m, active, s.clock);
      case LoadForFail(active, code, message) => FailRecordSound(cfg, s, m, active, code, message, s.clock);
    }
    Unchanged(cfg, job, Next(cfg, job, worker, pc, s).0, s);
  }

  lemma CancelRecordSound(cfg: Config, s: Shared, m: AnalysisRun, active: int, at: Instant)
    ensures var c := CancelRecord(cfg, m, active, at);
            c.Ok? ==> Sound(cfg, s, c.value) && c.value.RunId() == m.RunId() && c.value.status.Cancelled?
  {
    hide Sound, AnalysisRun.Cancel;
    if active < |m.stages| {
      var stages := if active >= 0 && m.stages[active].status.StageRunning?
                    then m.stages[active := CancelledStage(m.stages[active], at)] else m.stages;
      CancelSound(cfg, s, m, at, Some(CANCEL_REASON), stages);
    }
  }

  lemma FailRecordSound(cfg: Config, s: Shared, m: AnalysisRun, active: int, code: string, message: string, at: Instant)
    ensures var f := FailRecord(cfg, m, active, code, message, at);
            f.Ok? ==> Sound(cfg, s, f.value) && f.value.RunId() == m.RunId() && f.value.status.Failed?
  {
    hide Sound, AnalysisRun.Fail;
    if active < |m.stages| {
      var error := StructuredError(code, message, true, at, None);
      var place := if active >= 0 then StageKey(m.stages[active].stageName) else "ingestion";
      var stages := if active >= 0 && m.stages[active].status.StageRunning?
                    then m.stages[active := FailedStage(m.stages[active], at, error)] else m.stages;
      FailSound(cfg, s, m, at, error.(technicalDetails := Some(map[Named("stage") := Str(place)])), stages);
    }
  }

  lemma HandlerSaveAccess(cfg: Config, job: ExecutionJob, worker: string, pc: Pc, s: Shared)
    requires StoreOk(cfg, s) && ProcessOk(cfg, job, pc, s)
    requires pc.SaveCancel? || pc.SaveFail?
    ensures AccessOk(cfg, job, s, Next(cfg, job, worker, pc, s))
  {
    hide Sound, StoreOk, Port.Save, Grows;
    match pc
    case SaveCancel(c) => SavingOk(cfg, job, s, c, Done(Returned(Cancelled)), f => Done(Raised(f)));
    case SaveFail(failed) => SavingOk(cfg, job, s, failed, Done(Returned(Failed)), f => Done(Raised(f)));
  }

  lemma TryAccess(cfg: Config, job: ExecutionJob, worker: string, l: Locals, point: TryPoint, s: Shared)
    requires StoreOk(cfg, s) && ProcessOk(cfg, job, InTry(l, point), s)
    ensures AccessOk(cfg, job, s, TryNext(cfg, job, worker, l, point, s))
  {
    hide StoreOk, AccessOk;
    match point
    case Publish(k) => PublishAccess(cfg, job, worker, l, k, s);
    case Reload => ReloadAccess(cfg, job, worker, l, s);
    case SaveFinal(final) => SaveFinalAccess(cfg, job, worker, l, final, s);
    case SaveSkip(_) => StageAccess(cfg, job, worker, l, point, s);
    case SaveRunning(_) => StageAccess(cfg, job, worker, l, point, s);
    case SaveFinished(_) => StageAccess(cfg, job, worker, l, point, s);
    case _ => ReadAccess(cfg, job, worker, l, point, s);
  }

  /** One access of one executor, whatever the others have done since its last. */
  lemma AccessKeeps(cfg: Config, job: ExecutionJob, worker: string, pc: Pc, s: Shared)
    requires StoreOk(cfg, s) && ProcessOk(cfg, job, pc, s)
    ensures AccessOk(cfg, job, s, Next(cfg, job, worker, pc, s))
  {
    hide StoreOk, AccessOk;
    match pc
    case Loading => StartAccess(cfg, job, worker, pc, s);
    case CheckQueued(_) => StartAccess(cfg, job, worker, pc, s);
    case SaveQueuedCancel(_) => QueuedSaveAccess(cfg, job, worker, pc, s);
    case SaveStart(_) => QueuedSaveAccess(cfg, job, worker, pc, s);
    case InTry(l, point) => TryAccess(cfg, job, worker, l, point, s);
    case LoadForCancel(_) => HandlerAccess(cfg, job, worker, pc, s);
    case LoadForFail(_, _, _) => HandlerAccess(cfg, job, worker, pc, s);
    case SaveCancel(_) => HandlerSaveAccess(cfg, job, worker, pc, s);
    case SaveFail(_) => HandlerSaveAccess(cfg, job, worker, pc, s);
    case Done(_) => Unchanged(cfg, job, pc, s);
  }

  // ---------------------------------------------------------------- events

  /** What every event guarantees. */
  ghost predicate EventOk(cfg: Config, g: Global, g': Global) {
    GlobalInv(cfg, g') && Grows(g.shared, g'.shared)
  }

  /** A change of the shared state that only grows it suits everyone. */
  lemma SharedGrows(cfg: Config, g: Global, s': Shared)
    requires GlobalInv(cfg, g) && StoreOk(cfg, s') && Grows(g.shared, s') && ChainOk(s'.runs)
    ensures EventOk(cfg, g, g.(shared := s'))
  {
    hide StoreOk, Grows, ChainOk, ProcessOk, HeldOk;
    forall pid | pid in g.procs ensures ProcessOk(cfg, g.procs[pid].job, g.procs[pid].pc, s') {
      ProcessStays(cfg, g.procs[pid].job, g.procs[pid].pc, g.shared, s');
    }
    forall run | run in g.held ensures HeldOk(run, s') {
      HeldStays(run, g.shared, s');
    }
  }

  lemma GrowsSelf(s: Shared)
    ensures Grows(s, s)
  {
  }

  lemma FollowsGrows(runs: Port.Runs, runs': Port.Runs, run: AnalysisRun)
    requires Follows(runs, run)
    requires forall id :: id in runs ==> id in runs' && runs'[id] == runs[id]
    ensures Follows(runs', run)
  {
  }

  /** A new attempt that continues its chain, or starts one. */
  lemma CreateKeepsChain(runs: Port.Runs, run: AnalysisRun)
    requires ChainOk(runs) && Port.WellKeyed(runs) && run.RunId() !in runs && !Port.PairTaken(runs, run)
    requires run.origin.attemptNumber >= 1 && Follows(runs, run)
    ensures ChainOk(runs[run.RunId() := Port.Record(run, false)])
  {
    hide AnalysisRun.Valid, Follows, PairsUnique, Port.PairTaken;
    var runs' := runs[run.RunId() := Port.Record(run, false)];
    forall id | id in runs' ensures Follows(runs', runs'[id].manifest) {
      FollowsGrows(runs, runs', runs'[id].manifest);
    }
    CreateKeepsPairs(runs, run);
  }

  lemma CreateKeepsPairs(runs: Port.Runs, run: AnalysisRun)
    requires PairsUnique(runs) && run.RunId() !in runs && !Port.PairTaken(runs, run)
    ensures PairsUnique(runs[run.RunId() := Port.Record(run, false)])
  {
    hide AnalysisRun.Valid;
  }

  lemma CreatedKeeps(cfg: Config, g: Global, run: Result<AnalysisRun>)
    requires GlobalInv(cfg, g)
    requires run.Ok? ==> run.value.Valid(cfg.screen) && Follows(g.shared.runs, run.value)
    ensures EventOk(cfg, g, Created(g, run))
  {
    hide AnalysisRun.Valid, Follows, ProcessOk;
    GrowsSelf(g.shared);
    if run.Ok? && Port.Create(g.shared.runs, run.value).Ok? && !Port.PairTaken(g.shared.runs, run.value) {
      var r := run.value;
      var s' := g.shared.(runs := Port.Create(g.shared.runs, r).value);
      QueuedSound(cfg, s', r);
      CreateStore(cfg, g.shared, r);
      CreateKeepsChain(g.shared.runs, r);
      SharedGrows(cfg, g, s');
    }
  }

  lemma QueuedSound(cfg: Config, s: Shared, run: AnalysisRun)
    requires run.Valid(cfg.screen) && run.status.Queued?
    ensures Sound(cfg, s, run) && run.origin.attemptNumber >= 1
  {
    NothingListed(cfg, s, run);
  }

  lemma CreateStore(cfg: Config, s: Shared, run: AnalysisRun)
    requires StoreOk(cfg, s) && Port.Create(s.runs, run).Ok?
    requires Sound(cfg, s.(runs := Port.Create(s.runs, run).value), run)
    ensures var s' := s.(runs := Port.Create(s.runs, run).value);
            StoreOk(cfg, s') && Grows(s, s')
  {
    hide AnalysisRun.Valid, Sound;
    var s' := s.(runs := Port.Create(s.runs, run).value);
    StoreStays(cfg, s, s');
  }

  lemma SaveHeldKeeps(cfg: Config, g: Global, run: Result<AnalysisRun>)
    requires GlobalInv(cfg, g) && (run.Ok? ==> Sound(cfg, g.shared, run.value))
    ensures EventOk(cfg, g, SaveHeld(g, run))
  {
    hide Sound, Port.Save, ProcessOk, HeldOk, ChainOk, StoreOk;
    GrowsSelf(g.shared);
    if run.Ok? && Port.Save(g.shared.runs, run.value).Ok? {
      SaveStays(cfg, g.shared, run.value);
      var s' := g.shared.(runs := Port.Save(g.shared.runs, run.value).value);
      ChainStays(g.shared, s');
      SharedGrows(cfg, g, s');
    }
  }

  /** A retry continues the chain of the manifest it was built from, however stale: a terminal
      manifest is still what is stored. */
  lemma RetryFollows(cfg: Config, s: Shared, previous: AnalysisRun, overrides: Overrides, runId: string)
    requires HeldOk(previous, s)
    ensures var r := RetryFrom(cfg.screen, previous, overrides, runId, s.clock);
            r.Ok? ==> r.value.Valid(cfg.screen) && Follows(s.runs, r.value)
  {
    hide AnalysisRun.Valid;
  }

  lemma RetriedFollows(cfg: Config, s: Shared, previous: AnalysisRun, runId: string, stages: seq<StageExecution>)
    requires HeldOk(previous, s)
    ensures var r := Retried(cfg.screen, previous, runId, stages, s.clock);
            r.Ok? ==> r.value.Valid(cfg.screen) && Follows(s.runs, r.value)
  {
    hide AnalysisRun.Valid;
    RetryFollows(cfg, s, previous, KEEP, runId);
  }

  lemma NewFollows(cfg: Config, s: Shared, e: Event)
    requires e.CreateNew?
    ensures var r := NewRun(cfg.screen, e.logicalId, e.runId, e.dataOrigin, e.input, e.code, e.pipelineVersion,
                            e.parameters, e.models, e.stages, s.clock);
            r.Ok? ==> r.value.Valid(cfg.screen) && Follows(s.runs, r.value)
  {
    hide AnalysisRun.Valid;
  }

  lemma CreationKeeps(cfg: Config, g: Global, e: Event)
    requires GlobalInv(cfg, g) && (e.CreateNew? || e.RetryHeld? || e.RetryLocked?)
    ensures EventOk(cfg, g, Step(cfg, g, e))
  {
    hide StoreOk, ChainOk, ProcessOk, Created, Grows, AnalysisRun.Valid, Follows;
    GrowsSelf(g.shared);
    match e
    case CreateNew(logicalId, runId, dataOrigin, input, code, version, parameters, models, stages) =>
      NewFollows(cfg, g.shared, e);
      CreatedKeeps(cfg, g, NewRun(cfg.screen, logicalId, runId, dataOrigin, input, code, version, parameters, models,
                                  stages, g.shared.clock));
    case RetryHeld(previous, runId, stages) =>
      if previous in g.held {
        RetriedFollows(cfg, g.shared, previous, runId, stages);
        CreatedKeeps(cfg, g, Retried(cfg.screen, previous, runId, stages, g.shared.clock));
      }
    case RetryLocked(previousRunId, overrides, runId) =>
      if previousRunId in g.shared.runs {
        var previous := g.shared.runs[previousRunId].manifest;
        StoredHeld(cfg, g.shared, previousRunId);
        RetryFollows(cfg, g.shared, previous, overrides, runId);
        CreatedKeeps(cfg, g, RetryFrom(cfg.screen, previous, overrides, runId, g.shared.clock));
      }
  }

  lemma StoredHeld(cfg: Config, s: Shared, runId: string)
    requires StoreOk(cfg, s) && runId in s.runs
    ensures HeldOk(s.runs[runId].manifest, s)
  {
    hide Sound;
  }

  lemma HandlerKeeps(cfg: Config, g: Global, e: Event)
    requires GlobalInv(cfg, g) && (e.LoadRun? || e.CancelHeld? || e.FailHeld?)
    ensures EventOk(cfg, g, Step(cfg, g, e))
  {
    hide StoreOk, ChainOk, ProcessOk, Created, Grows, AnalysisRun.Cancel, AnalysisRun.Fail, Sound, HeldOk;
    GrowsSelf(g.shared);
    match e
    case LoadRun(runId) =>
      if runId in g.shared.runs {
        StoredHeld(cfg, g.shared, runId);
      }
    case CancelHeld(run, reason) =>
      CancelSound(cfg, g.shared, run, g.shared.clock, reason, run.stages);
      SaveHeldKeeps(cfg, g, run.Cancel(cfg.screen, g.shared.clock, reason, run.stages));
    case FailHeld(run, error) =>
      FailSound(cfg, g.shared, run, g.shared.clock, error, run.stages);
      SaveHeldKeeps(cfg, g, run.Fail(cfg.screen, g.shared.clock, error, run.stages));
  }

  lemma SurroundingsKeep(cfg: Config, g: Global, e: Event)
    requires GlobalInv(cfg, g) && (e.RequestCancellation? || e.StoreInput? || e.Tick?)
    ensures EventOk(cfg, g, Step(cfg, g, e))
  {
    hide Sound, ProcessOk, ChainOk, AnalysisRun.Valid, HeldOk, StoreOk, Grows;
    var s' := Step(cfg, g, e).shared;
    SurroundingsGrow(cfg, g, e);
    ChainStays(g.shared, s');
    SharedGrows(cfg, g, s');
  }

  lemma SurroundingsGrow(cfg: Config, g: Global, e: Event)
    requires StoreOk(cfg, g.shared) && (e.RequestCancellation? || e.StoreInput? || e.Tick?)
    ensures var g' := Step(cfg, g, e);
            && StoreOk(cfg, g'.shared) && Grows(g.shared, g'.shared) && g'.shared.runs.Keys == g.shared.runs.Keys
            && g' == g.(shared := g'.shared)
  {
    if e.RequestCancellation? {
      FlagGrows(cfg, g, e.runId);
    } else {
      hide Sound, AnalysisRun.Valid;
      GrowsSelf(g.shared);
      StoreStays(cfg, g.shared, Step(cfg, g, e).shared);
    }
  }

  lemma FlagGrows(cfg: Config, g: Global, runId: string)
    requires StoreOk(cfg, g.shared)
    ensures var g' := Step(cfg, g, RequestCancellation(runId));
            && StoreOk(cfg, g'.shared) && Grows(g.shared, g'.shared) && g'.shared.runs.Keys == g.shared.runs.Keys
            && g' == g.(shared := g'.shared)
  {
    hide Sound, AnalysisRun.Valid;
    GrowsSelf(g.shared);
    StoreStays(cfg, g.shared, Step(cfg, g, RequestCancellation(runId)).shared);
  }

  lemma ProcessesKeep(cfg: Config, g: Global, e: Event)
    requires GlobalInv(cfg, g) && (e.DeliverJob? || e.Access? || e.Crash?)
    ensures EventOk(cfg, g, Step(cfg, g, e))
  {
    hide StoreOk, ChainOk, Grows, Next, HeldOk;
    GrowsSelf(g.shared);
    if e.Access? && e.pid in g.procs {
      var p := g.procs[e.pid];
      AccessKeeps(cfg, p.job, p.worker, p.pc, g.shared);
      var (pc, s') := Next(cfg, p.job, p.worker, p.pc, g.shared);
      ChainStays(g.shared, s');
      SharedGrows(cfg, g, s');
    }
  }

  /** Every event of the service keeps the invariant, and only ever grows what is stored. */
  lemma StepKeeps(cfg: Config, g: Global, e: Event)
    requires GlobalInv(cfg, g)
    ensures EventOk(cfg, g, Step(cfg, g, e))
  {
    hide GlobalInv, EventOk, Step;
    match e
    case CreateNew(_, _, _, _, _, _, _, _, _) => CreationKeeps(cfg, g, e);
    case RetryHeld(_, _, _) => CreationKeeps(cfg, g, e);
    case RetryLocked(_, _, _) => CreationKeeps(cfg, g, e);
    case LoadRun(_) => HandlerKeeps(cfg, g, e);
    case CancelHeld(_, _) => HandlerKeeps(cfg, g, e);
    case FailHeld(_, _) => HandlerKeeps(cfg, g, e);
    case RequestCancellation(_) => SurroundingsKeep(cfg, g, e);
    case StoreInput(_, _, _, _) => SurroundingsKeep(cfg, g, e);
    case Tick(_) => SurroundingsKeep(cfg, g, e);
    case DeliverJob(_, _, _) => ProcessesKeep(cfg, g, e);
    case Access(_) => ProcessesKeep(cfg, g, e);
    case Crash(_) => ProcessesKeep(cfg, g, e);
  }
}
