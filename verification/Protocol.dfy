/** The whole service as a transition system: any number of executors, API handlers holding stale
    manifests, retries, clones, duplicate deliveries and crashes, interleaved one access at a time. */
module Protocol {
  import opened Outcomes
  import opened JsonValues
  import opened Contract
  import opened Jobs
  import opened Lifecycle
  import opened ObjectStorage
  import opened ExecutorMachine
  import Port = RepositoryPort

  // ---------------------------------------------------------------- states and events

  datatype Process = Process(job: ExecutionJob, worker: string, pc: Pc)

  /** `held` are manifests some API handler has loaded or created and may still act on. */
  datatype Global = Global(shared: Shared, procs: map<nat, Process>, held: set<AnalysisRun>)

  datatype Event =
    /** `AnalysisRun.new` then `create`: upload, clone or finalize. */
    | CreateNew(logicalId: string, runId: string, dataOrigin: DataOrigin, input: InputReference, code: CodeReference,
                pipelineVersion: string, parameters: map<Key, Json>, models: seq<ModelReference>,
                stages: seq<StageExecution>)
    /** `coordinator.retry`: from a manifest loaded earlier, then `create`. */
    | RetryHeld(previous: AnalysisRun, runId: string, stages: seq<StageExecution>)
    /** `create_retry_attempt`: load and create in one transaction. */
    | RetryLocked(previousRunId: string, overrides: Overrides, runId: string)
    | LoadRun(runId: string)
    /** The API's cancellation of a manifest it loaded while queued. */
    | CancelHeld(run: AnalysisRun, reason: Option<string>)
    /** The coordinator's failure record for a manifest it created. */
    | FailHeld(run: AnalysisRun, error: StructuredError)
    | RequestCancellation(runId: string)
    | StoreInput(runId: string, content: Bytes, extension: string, contentType: string)
    | Tick(to: Instant)
    /** A worker picks up a job, possibly one delivered before or running elsewhere. */
    | DeliverJob(pid: nat, job: ExecutionJob, worker: string)
    /** One shared access of one executor. */
    | Access(pid: nat)
    | Crash(pid: nat)

  /** `create` under the database's uniqueness constraint on (logical analysis, attempt). */
  function Created(g: Global, run: Result<AnalysisRun>): Global {
    match run
    case Err(_) => g
    case Ok(r) =>
      match Port.Create(g.shared.runs, r)
      case Err(_) => g
      case Ok(runs) =>
        if Port.PairTaken(g.shared.runs, r) then g
        else g.(shared := g.shared.(runs := runs), held := g.held + {r})
  }

  function SaveHeld(g: Global, run: Result<AnalysisRun>): Global {
    match run
    case Err(_) => g
    case Ok(r) =>
      match Port.Save(g.shared.runs, r)
      case Err(_) => g
      case Ok(runs) => g.(shared := g.shared.(runs := runs))
  }

  function Retried(sc: Screen, previous: AnalysisRun, runId: string, stages: seq<StageExecution>, at: Instant)
    : Result<AnalysisRun>
  {
    var retry :- RetryFrom(sc, previous, KEEP, runId, at);
    retry.WithStages(sc, stages)
  }

  /** An event that is not enabled, or is refused, changes nothing. */
  function Step(cfg: Config, g: Global, e: Event): Global {
    match e
    case CreateNew(logicalId, runId, dataOrigin, input, code, version, parameters, models, stages) =>
      Created(g, NewRun(cfg.screen, logicalId, runId, dataOrigin, input, code, version, parameters, models, stages,
                        g.shared.clock))
    case RetryHeld(previous, runId, stages) =>
      if previous !in g.held then g
      else Created(g, Retried(cfg.screen, previous, runId, stages, g.shared.clock))
    case RetryLocked(previousRunId, overrides, runId) =>
      (match Port.Load(g.shared.runs, previousRunId)
       case Err(_) => g
       case Ok(previous) => Created(g, RetryFrom(cfg.screen, previous, overrides, runId, g.shared.clock)))
    case LoadRun(runId) =>
      if runId in g.shared.runs then g.(held := g.held + {g.shared.runs[runId].manifest}) else g
    case CancelHeld(run, reason) =>
      if run in g.held && run.status.Queued? then SaveHeld(g, run.Cancel(cfg.screen, g.shared.clock, reason, run.stages))
      else g
    case FailHeld(run, error) =>
      if run in g.held && run.status.Queued? then SaveHeld(g, run.Fail(cfg.screen, g.shared.clock, error, run.stages))
      else g
    case RequestCancellation(runId) =>
      (match Port.RequestCancellation(g.shared.runs, runId)
       case Err(_) => g
       case Ok(runs) => g.(shared := g.shared.(runs := runs)))
    case StoreInput(runId, content, extension, contentType) =>
      g.(shared := g.shared.(objects := PutInput(cfg.sha, g.shared.objects, runId, content, extension, contentType).1))
    case Tick(to) => if g.shared.clock <= to then g.(shared := g.shared.(clock := to)) else g
    case DeliverJob(pid, job, worker) =>
      if pid in g.procs then g else g.(procs := g.procs[pid := Process(job, worker, Loading)])
    case Access(pid) =>
      if pid !in g.procs || !PcOk(cfg, g.procs[pid].pc) then g
      else
        var p := g.procs[pid];
        var (pc, s) := Next(cfg, p.job, p.worker, p.pc, g.shared);
        g.(shared := s, procs := g.procs[pid := p.(pc := pc)])
    case Crash(pid) => g.(procs := g.procs - {pid})
  }

  /** The state after the first `n` events. */
  function Reach(cfg: Config, g: Global, events: seq<Event>, n: nat): Global
    requires n <= |events|
  {
    if n == 0 then g else Step(cfg, Reach(cfg, g, events, n - 1), events[n - 1])
  }

  const EMPTY := Global(Shared(map[], [], 0), map[], {})

  // ---------------------------------------------------------------- invariants

  /** The bytes are stored under the run's own key, and reading the artifact id back finds them. */
  ghost predicate Intact(cfg: Config, s: Shared, runId: string, ref: ArtifactReference) {
    Published(cfg.sha, s.objects, runId, ref) && ReferenceIntact(cfg.sha, s.objects, runId, ref)
  }

  ghost predicate AllIntact(cfg: Config, s: Shared, runId: string, refs: seq<ArtifactReference>, n: nat) {
    forall j :: 0 <= j < n && j < |refs| ==> Intact(cfg, s, runId, refs[j])
  }

  ghost predicate AllPublished(cfg: Config, s: Shared, runId: string, refs: seq<ArtifactReference>) {
    forall j :: 0 <= j < |refs| ==> Published(cfg.sha, s.objects, runId, refs[j])
  }

  /** A manifest fit to be stored: contract-valid, and what it lists is there. */
  ghost predicate Sound(cfg: Config, s: Shared, run: AnalysisRun) {
    run.Valid(cfg.screen) && AllIntact(cfg, s, run.RunId(), run.artifacts, |run.artifacts|)
  }

  ghost predicate StoreOk(cfg: Config, s: Shared) {
    && Port.WellKeyed(s.runs)
    && forall id :: id in s.runs ==> Sound(cfg, s, s.runs[id].manifest)
  }

  /** `later` still has every object and an evolution of every run of `earlier`. */
  ghost predicate Grows(earlier: Shared, later: Shared) {
    && Extends(earlier.objects, later.objects)
    && forall id :: id in earlier.runs ==>
         && id in later.runs
         && Evolves(earlier.runs[id].manifest, later.runs[id].manifest)
  }

  /** A record an executor is about to save. */
  ghost predicate RecordOk(cfg: Config, s: Shared, job: ExecutionJob, run: AnalysisRun) {
    run.RunId() == job.runId && Sound(cfg, s, run)
  }

  ghost predicate ProcessOk(cfg: Config, job: ExecutionJob, pc: Pc, s: Shared) {
    && PcOk(cfg, pc)
    && match pc
       case CheckQueued(run) => run.RunId() == job.runId
       case SaveQueuedCancel(run) => run.RunId() == job.runId
       case SaveStart(run) => run.RunId() == job.runId
       case InTry(l, point) =>
         && l.run.RunId() == job.runId
         && AllPublished(cfg, s, job.runId, l.artifacts)
         && (point.Verify? ==> AllIntact(cfg, s, job.runId, l.artifacts, point.k))
         && (point.Reload? ==> AllIntact(cfg, s, job.runId, l.artifacts, |l.artifacts|))
         && (point.SaveFinal? ==> RecordOk(cfg, s, job, point.final) && point.final.status in {Succeeded, Partial})
       case SaveCancel(c) => RecordOk(cfg, s, job, c) && c.status.Cancelled?
       case SaveFail(f) => RecordOk(cfg, s, job, f) && f.status.Failed?
       case Done(Returned(status)) =>
         job.runId in s.runs && s.runs[job.runId].manifest.status == status && status.IsTerminal()
       case _ => true
  }

  ghost predicate HeldOk(run: AnalysisRun, s: Shared) {
    run.RunId() in s.runs && Evolves(run, s.runs[run.RunId()].manifest)
  }

  /** The attempt before `run` in its chain. */
  ghost predicate Follows(runs: Port.Runs, run: AnalysisRun) {
    run.origin.attemptNumber > 1 ==>
      && run.origin.previousAttemptRunId.Some?
      && run.origin.previousAttemptRunId.value in runs
      && var previous := runs[run.origin.previousAttemptRunId.value].manifest;
         && previous.origin.logicalAnalysisId == run.origin.logicalAnalysisId
         && previous.origin.attemptNumber == run.origin.attemptNumber - 1
         && previous.origin.input == run.origin.input && previous.origin.dataOrigin == run.origin.dataOrigin
         && previous.status in {Failed, Partial}
  }

  ghost predicate PairsUnique(runs: Port.Runs) {
    forall a, b :: a in runs && b in runs && a != b ==>
      || runs[a].manifest.origin.logicalAnalysisId != runs[b].manifest.origin.logicalAnalysisId
      || runs[a].manifest.origin.attemptNumber != runs[b].manifest.origin.attemptNumber
  }

  ghost predicate ChainOk(runs: Port.Runs) {
    && PairsUnique(runs)
    && forall id :: id in runs ==> Follows(runs, runs[id].manifest) && runs[id].manifest.origin.attemptNumber >= 1
  }

  ghost predicate GlobalInv(cfg: Config, g: Global) {
    && StoreOk(cfg, g.shared)
    && ChainOk(g.shared.runs)
    && (forall pid :: pid in g.procs ==> ProcessOk(cfg, g.procs[pid].job, g.procs[pid].pc, g.shared))
    && (forall run :: run in g.held ==> HeldOk(run, g.shared))
  }

  // ---------------------------------------------------------------- growth keeps what was true

  lemma {:induction false} ResolveStays(objects: Objects, later: Objects, runId: string, artifactId: string)
    requires Extends(objects, later) && Resolve(objects, runId, artifactId).Some?
    ensures Resolve(later, runId, artifactId) == Resolve(objects, runId, artifactId)
  {
    if !IsArtifactOf(objects[0], runId, artifactId) {
      assert objects[1..] <= later[1..];
      ResolveStays(objects[1..], later[1..], runId, artifactId);
    }
  }

  lemma IntactStays(cfg: Config, s: Shared, s': Shared, runId: string, ref: ArtifactReference)
    requires Extends(s.objects, s'.objects)
    ensures Published(cfg.sha, s.objects, runId, ref) ==> Published(cfg.sha, s'.objects, runId, ref)
    ensures Intact(cfg, s, runId, ref) ==> Intact(cfg, s', runId, ref)
  {
    hide Published, Resolve;
    if Published(cfg.sha, s.objects, runId, ref) {
      PublishedForever(cfg.sha, s.objects, s'.objects, runId, ref);
    }
    if Intact(cfg, s, runId, ref) {
      ResolveStays(s.objects, s'.objects, runId, ref.artifactId);
    }
  }

  lemma RefsStay(cfg: Config, s: Shared, s': Shared, runId: string, refs: seq<ArtifactReference>, n: nat)
    requires Extends(s.objects, s'.objects)
    ensures AllPublished(cfg, s, runId, refs) ==> AllPublished(cfg, s', runId, refs)
    ensures AllIntact(cfg, s, runId, refs, n) ==> AllIntact(cfg, s', runId, refs, n)
  {
    hide Published, Intact;
    forall j | 0 <= j < |refs|
      ensures Published(cfg.sha, s.objects, runId, refs[j]) ==> Published(cfg.sha, s'.objects, runId, refs[j])
      ensures Intact(cfg, s, runId, refs[j]) ==> Intact(cfg, s', runId, refs[j])
    {
      IntactStays(cfg, s, s', runId, refs[j]);
    }
  }

  lemma SoundStays(cfg: Config, s: Shared, s': Shared, run: AnalysisRun)
    requires Extends(s.objects, s'.objects) && Sound(cfg, s, run)
    ensures Sound(cfg, s', run)
  {
    hide AnalysisRun.Valid, AllIntact;
    RefsStay(cfg, s, s', run.RunId(), run.artifacts, |run.artifacts|);
  }

  /** Whatever the others do, a process keeps its invariant: stale locals included. */
  lemma ProcessStays(cfg: Config, job: ExecutionJob, pc: Pc, s: Shared, s': Shared)
    requires ProcessOk(cfg, job, pc, s) && Grows(s, s')
    ensures ProcessOk(cfg, job, pc, s')
  {
    hide AnalysisRun.Valid, AllIntact, AllPublished, Sound, TryPointOk, Extends;
    match pc
    case InTry(l, point) =>
      RefsStay(cfg, s, s', job.runId, l.artifacts, if point.Verify? then point.k else |l.artifacts|);
      if point.SaveFinal? {
        SoundStays(cfg, s, s', point.final);
      }
    case SaveCancel(c) => SoundStays(cfg, s, s', c);
    case SaveFail(f) => SoundStays(cfg, s, s', f);
    case _ =>
  }

  lemma HeldStays(run: AnalysisRun, s: Shared, s': Shared)
    requires HeldOk(run, s) && Grows(s, s')
    ensures HeldOk(run, s')
  {
    hide Extends;
  }

  lemma ChainStays(s: Shared, s': Shared)
    requires ChainOk(s.runs) && Grows(s, s') && s'.runs.Keys == s.runs.Keys
    ensures ChainOk(s'.runs)
  {
    hide Extends;
    forall id | id in s'.runs ensures Follows(s'.runs, s'.runs[id].manifest) && s'.runs[id].manifest.origin.attemptNumber >= 1 {
      assert Follows(s.runs, s.runs[id].manifest);
      assert Evolves(s.runs[id].manifest, s'.runs[id].manifest);
    }
  }

  lemma StoreStays(cfg: Config, s: Shared, s': Shared)
    requires StoreOk(cfg, s) && Extends(s.objects, s'.objects)
    requires Port.WellKeyed(s'.runs)
    requires forall id :: id in s'.runs ==>
               Sound(cfg, s', s'.runs[id].manifest) || (id in s.runs && s'.runs[id].manifest == s.runs[id].manifest)
    ensures StoreOk(cfg, s')
  {
    hide Sound, Extends;
    forall id | id in s'.runs ensures Sound(cfg, s', s'.runs[id].manifest) {
      if id in s.runs && s'.runs[id].manifest == s.runs[id].manifest {
        SoundStays(cfg, s, s', s.runs[id].manifest);
      }
    }
  }

  /** A save of a sound record. */
  lemma SaveStays(cfg: Config, s: Shared, run: AnalysisRun)
    requires StoreOk(cfg, s) && Sound(cfg, s, run) && Port.Save(s.runs, run).Ok?
    ensures var s' := s.(runs := Port.Save(s.runs, run).value);
            && StoreOk(cfg, s') && Grows(s, s') && s'.runs.Keys == s.runs.Keys
            && run.RunId() in s'.runs && s'.runs[run.RunId()].manifest == run
  {
    hide AnalysisRun.Valid, AllIntact;
    var s' := s.(runs := Port.Save(s.runs, run).value);
    SoundStays(cfg, s, s', run);
    StoreStays(cfg, s, s');
  }
}
