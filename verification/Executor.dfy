/** `execution/executor.py` in its own imperative shape, proved to perform exactly the steps of
    the machine in ExecutorMachine under any interference and with a crash at any access. */
module Executor {
  import opened Outcomes
  import opened JsonValues
  import opened Contract
  import opened Jobs
  import opened ObjectStorage
  import opened ExecutorMachine
  import Port = RepositoryPort

  /** The repository and the object store as one executor meets them: others interfere before each
      of its accesses, and the process dies when `crashAt` accesses have been made. */
  class Planes {
    const env: Environment
    const crashAt: nat
    var runs: Port.Runs
    var objects: Objects
    var clock: Instant
    var ticks: nat

    constructor (env: Environment, crashAt: nat, s: Shared)
      ensures Now() == s && ticks == 0 && this.env == env && this.crashAt == crashAt
    {
      this.env, this.crashAt := env, crashAt;
      runs, objects, clock, ticks := s.runs, s.objects, s.clock, 0;
    }

    ghost function Now(): Shared
      reads this
    {
      Shared(runs, objects, clock)
    }

    predicate Alive()
      reads this
    {
      ticks < crashAt
    }

    method Interfere()
      requires Alive()
      modifies this
      ensures Now() == env(old(ticks), old(Now())) && ticks == old(ticks) + 1
    {
      var s := env(ticks, Shared(runs, objects, clock));
      runs, objects, clock, ticks := s.runs, s.objects, s.clock, ticks + 1;
    }

    method Load(runId: string) returns (r: Result<AnalysisRun>)
      requires Alive()
      modifies this
      ensures Now() == env(old(ticks), old(Now())) && ticks == old(ticks) + 1
      ensures r == Port.Load(runs, runId)
    {
      Interfere();
      r := Port.Load(runs, runId);
    }

    method CancellationRequested(runId: string) returns (requested: bool)
      requires Alive()
      modifies this
      ensures Now() == env(old(ticks), old(Now())) && ticks == old(ticks) + 1
      ensures requested == Port.CancellationRequested(runs, runId)
    {
      Interfere();
      requested := Port.CancellationRequested(runs, runId);
    }

    /** Build a record from the current time and save it. */
    method Save(next: Instant -> Result<AnalysisRun>) returns (r: Result<AnalysisRun>)
      requires Alive()
      modifies this
      ensures var s := env(old(ticks), old(Now()));
              && ticks == old(ticks) + 1
              && (next(s.clock).Err? ==> r == next(s.clock) && Now() == s)
              && (next(s.clock).Ok? ==>
                    match Port.Save(s.runs, next(s.clock).value)
                    case Ok(runs') => r == next(s.clock) && Now() == s.(runs := runs')
                    case Err(f) => r == Err(f) && Now() == s)
    {
      Interfere();
      r := next(clock);
      if r.Ok? {
        var saved := Port.Save(runs, r.value);
        if saved.Ok? {
          runs := saved.value;
        } else {
          r := Err(saved.fault);
        }
      }
    }

    method Input(runId: string) returns (input: Result<(string, StoredObject)>, requested: bool)
      requires Alive()
      modifies this
      ensures Now() == env(old(ticks), old(Now())) && ticks == old(ticks) + 1
      ensures input == InputObject(objects, runId)
      ensures requested == Port.CancellationRequested(runs, runId)
    {
      Interfere();
      input := InputObject(objects, runId);
      requested := Port.CancellationRequested(runs, runId);
    }

    method Write(sha: Bytes -> Digest, runId: string, spec: ArtifactSpec) returns (r: Result<ArtifactReference>)
      requires Alive()
      modifies this
      ensures ticks == old(ticks) + 1
      ensures var s := env(old(ticks), old(Now()));
              && r == WriteArtifact(sha, s.objects, runId, spec).0
              && Now() == s.(objects := WriteArtifact(sha, s.objects, runId, spec).1)
    {
      Interfere();
      var (result, objects') := WriteArtifact(sha, objects, runId, spec);
      r, objects := result, objects';
    }

    method Integrity(sha: Bytes -> Digest, runId: string, ref: ArtifactReference) returns (ok: bool)
      requires Alive()
      modifies this
      ensures Now() == env(old(ticks), old(Now())) && ticks == old(ticks) + 1
      ensures ok == ReferenceIntact(sha, objects, runId, ref)
    {
      Interfere();
      ok := ReferenceIntact(sha, objects, runId, ref);
    }

    method LoadAt(runId: string) returns (r: Result<AnalysisRun>, at: Instant)
      requires Alive()
      modifies this
      ensures Now() == env(old(ticks), old(Now())) && ticks == old(ticks) + 1
      ensures r == Port.Load(runs, runId) && at == clock
    {
      Interfere();
      r, at := Port.Load(runs, runId), clock;
    }
  }

  /** How the `try` block of `execute` is left. */
  datatype Exit = Finished(status: RunStatus) | CancelObserved | Failing(fault: Fault) | Died

  /** How the handling of a queued run ends. */
  datatype Begun = Over(ending: Option<Ending>) | Started(run: AnalysisRun)

  class AnalysisExecutor {
    const cfg: Config
    const planes: Planes
    const job: ExecutionJob
    const worker: string

    constructor (cfg: Config, planes: Planes, job: ExecutionJob, worker: string)
      ensures this.cfg == cfg && this.planes == planes && this.job == job && this.worker == worker
    {
      this.cfg, this.planes, this.job, this.worker := cfg, planes, job, worker;
    }

    /** Where the execution ends up from program point `pc` and the current state. */
    ghost function Destination(pc: Pc): (Pc, Shared)
      requires PcOk(cfg, pc) && planes.ticks <= planes.crashAt
      reads planes
    {
      Run(cfg, job, worker, planes.env, pc, planes.Now(), planes.ticks, planes.crashAt - planes.ticks)
    }

    ghost predicate Heading(pc: Pc, goal: (Pc, Shared))
      reads planes
    {
      planes.ticks <= planes.crashAt && PcOk(cfg, pc) && Destination(pc) == goal
    }

    /** The program point a left `try` block continues at. */
    ghost predicate Left(exit: Exit, active: int, goal: (Pc, Shared))
      reads planes
    {
      match exit
      case Finished(status) => Heading(Done(Returned(status)), goal)
      case CancelObserved => Heading(LoadForCancel(active), goal)
      case Failing(fault) => Heading(FailWith(active, fault), goal)
      case Died => planes.ticks == planes.crashAt && !goal.0.Done? && goal.1 == planes.Now()
    }

    /** One access: the destination is that of the next program point in the next state. */
    lemma Step(pc: Pc, goal: (Pc, Shared))
      requires Heading(pc, goal) && !pc.Done? && planes.Alive()
      ensures var (pc', s') := Next(cfg, job, worker, pc, planes.env(planes.ticks, planes.Now()));
              && PcOk(cfg, pc')
              && goal == Run(cfg, job, worker, planes.env, pc', s', planes.ticks + 1, planes.crashAt - planes.ticks - 1)
    {
      NextOk(cfg, job, worker, pc, planes.env(planes.ticks, planes.Now()));
    }

    /** The process dies at `pc`: the goal is right here. */
    lemma Dies(pc: Pc, goal: (Pc, Shared))
      requires Heading(pc, goal) && !pc.Done? && !planes.Alive()
      ensures goal == (pc, planes.Now())
    {
    }

    lemma Arrives(ending: Ending, goal: (Pc, Shared))
      requires Heading(Done(ending), goal)
      ensures goal == (Done(ending), planes.Now())
    {
    }

    /** A queued run: cancelled when that was requested, started otherwise. */
    method BeginQueued(run: AnalysisRun, ghost goal: (Pc, Shared)) returns (begun: Begun)
      requires Heading(CheckQueued(run), goal)
      modifies planes
      ensures match begun
              case Over(ending) => ending == EndingOf(goal.0) && planes.Now() == goal.1
              case Started(started) => Heading(EnterTry(cfg, job, started), goal)
    {
      hide AnalysisRun.Valid, AnalysisRun.Start, AnalysisRun.Cancel, Run, AtStage, TryNext, Duration, Port.Save;
      if !planes.Alive() {
        Dies(CheckQueued(run), goal);
        return Over(None);
      }
      Step(CheckQueued(run), goal);
      var requested := planes.CancellationRequested(job.runId);
      if requested {
        if !planes.Alive() {
          Dies(SaveQueuedCancel(run), goal);
          return Over(None);
        }
        Step(SaveQueuedCancel(run), goal);
        var cancelled := planes.Save(at => run.Cancel(cfg.screen, at, Some(QUEUED_CANCEL_REASON), run.stages));
        var ending := if cancelled.Ok? then Returned(Cancelled) else Raised(cancelled.fault);
        Arrives(ending, goal);
        return Over(Some(ending));
      }
      if !planes.Alive() {
        Dies(SaveStart(run), goal);
        return Over(None);
      }
      Step(SaveStart(run), goal);
      var started := planes.Save(at => run.Start(cfg.screen, at, run.stages));
      if started.Err? {
        Arrives(Raised(started.fault), goal);
        return Over(Some(Raised(started.fault)));
      }
      EnterTryOk(cfg, job, started.value);
      begun := Started(started.value);
    }

    /** The whole of `execute`: an ending, or none when the process died on the way. */
    method Execute() returns (ending: Option<Ending>)
      requires planes.ticks <= planes.crashAt
      modifies planes
      ensures ending == EndingOf(old(Destination(Loading)).0)
      ensures planes.Now() == old(Destination(Loading)).1
    {
      hide AnalysisRun.Valid, AnalysisRun.Start, AnalysisRun.Cancel, Plan, Run, AtStage, TryNext, Duration, CancelRecord,
           FailRecord, Port.Save;
      ghost var goal := Destination(Loading);
      if !planes.Alive() {
        Dies(Loading, goal);
        return None;
      }
      Step(Loading, goal);
      var loaded := planes.Load(job.runId);
      if loaded.Err? {
        Arrives(Raised(loaded.fault), goal);
        return Some(Raised(loaded.fault));
      }
      var run := loaded.value;
      if run.status.IsTerminal() {
        Arrives(Returned(run.status), goal);
        return Some(Returned(run.status));
      }
      if run.status.Queued? {
        var begun := BeginQueued(run, goal);
        if begun.Over? {
          return begun.ending;
        }
        run := begun.run;
      }
      EnterTryOk(cfg, job, run);
      assert Heading(EnterTry(cfg, job, run), goal);
      var duration := Duration(cfg, run.origin.parameters);
      if duration.Err? {
        Arrives(Raised(duration.fault), goal);
        return Some(Raised(duration.fault));
      }
      var exit, active := TryBlock(run, goal);
      match exit
      case Finished(status) =>
        Arrives(Returned(status), goal);
        ending := Some(Returned(status));
      case Died => ending := None;
      case CancelObserved => ending := OnCancellation(active, goal);
      case Failing(fault) => ending := OnFailure(active, fault, goal);
    }

    /** `except CancellationObserved`. */
    method OnCancellation(active: int, ghost goal: (Pc, Shared)) returns (ending: Option<Ending>)
      requires Heading(LoadForCancel(active), goal)
      modifies planes
      ensures ending == EndingOf(goal.0) && planes.Now() == goal.1
    {
      hide AnalysisRun.Valid, Run;
      if !planes.Alive() {
        Dies(LoadForCancel(active), goal);
        return None;
      }
      Step(LoadForCancel(active), goal);
      var current, at := planes.LoadAt(job.runId);
      if current.Err? {
        Arrives(Raised(current.fault), goal);
        return Some(Raised(current.fault));
      }
      var cancelled := CancelRecord(cfg, current.value, active, at);
      if cancelled.Err? {
        Arrives(Raised(cancelled.fault), goal);
        return Some(Raised(cancelled.fault));
      }
      if !planes.Alive() {
        Dies(SaveCancel(cancelled.value), goal);
        return None;
      }
      Step(SaveCancel(cancelled.value), goal);
      var saved := planes.Save(_ => Ok(cancelled.value));
      ending := Some(if saved.Ok? then Returned(Cancelled) else Raised(saved.fault));
      Arrives(ending.value, goal);
    }

    /** `except Exception`. */
    method OnFailure(active: int, fault: Fault, ghost goal: (Pc, Shared)) returns (ending: Option<Ending>)
      requires Heading(FailWith(active, fault), goal)
      modifies planes
      ensures ending == EndingOf(goal.0) && planes.Now() == goal.1
    {
      hide AnalysisRun.Valid, Run;
      if !planes.Alive() {
        Dies(FailWith(active, fault), goal);
        return None;
      }
      Step(FailWith(active, fault), goal);
      var current, at := planes.LoadAt(job.runId);
      if current.Err? {
        Arrives(Raised(current.fault), goal);
        return Some(Raised(current.fault));
      }
      if current.value.status.IsTerminal() {
        Arrives(Returned(current.value.status), goal);
        return Some(Returned(current.value.status));
      }
      var code := if fault.ExecutionFailure? then fault.code else FAILED_CODE;
      var message := if fault.ExecutionFailure? then fault.message else FAILED_MESSAGE;
      var failed := FailRecord(cfg, current.value, active, code, message, at);
      if failed.Err? {
        Arrives(Raised(failed.fault), goal);
        return Some(Raised(failed.fault));
      }
      if !planes.Alive() {
        Dies(SaveFail(failed.value), goal);
        return None;
      }
      Step(SaveFail(failed.value), goal);
      var saved := planes.Save(_ => Ok(failed.value));
      ending := Some(if saved.Ok? then Returned(Failed) else Raised(saved.fault));
      Arrives(ending.value, goal);
    }

    /** The `try` block: the stage loop, the build, publication, verification, the terminal save. */
    method TryBlock(run: AnalysisRun, ghost goal: (Pc, Shared)) returns (exit: Exit, active: int)
      requires Heading(AtStage(cfg, job, Locals(run, -1, None, []), 0), goal)
      modifies planes
      ensures Left(exit, active, goal)
    {
      hide AnalysisRun.Valid, Plan, Run;
      var l := Locals(run, -1, None, []);
      var left := None;
      var index := 0;
      while index < |l.run.stages|
        invariant index <= |l.run.stages|
        invariant Heading(AtStage(cfg, job, l, index), goal)
        decreases |l.run.stages| - index
      {
        var stage := l.run.stages[index];
        l := l.(active := index);
        if !StageDone(stage) {
          if Skips(job, stage) {
            left, l := SkipStage(l, index, goal);
          } else {
            left, l := RunStage(l, index, goal);
          }
          if left.Some? {
            return left.value, l.active;
          }
        }
        index := index + 1;
      }
      if l.payloads.None? {
        left, l := BuildPayloads(l, BuildLate, goal);
        if left.Some? {
          return left.value, l.active;
        }
      }
      left, l := PublishAll(l, goal);
      if left.Some? {
        return left.value, l.active;
      }
      left := VerifyAll(l, goal);
      if left.Some? {
        return left.value, l.active;
      }
      exit := Conclude(l, goal);
      active := l.active;
    }

    /** An optional stage the V1-compatible profile does not support. */
    method SkipStage(l0: Locals, i: nat, ghost goal: (Pc, Shared)) returns (left: Option<Exit>, l: Locals)
      requires i < |l0.run.stages| && Heading(InTry(l0, SaveSkip(i)), goal)
      modifies planes
      ensures l.active == l0.active && |l.run.stages| == |l0.run.stages|
      ensures left.None? ==> Heading(AtStage(cfg, job, l, i + 1), goal)
      ensures left.Some? ==> Left(left.value, l.active, goal)
    {
      hide AnalysisRun.Valid, Run, AtStage;
      l := l0;
      if !planes.Alive() {
        Dies(InTry(l, SaveSkip(i)), goal);
        return Some(Died), l;
      }
      Step(InTry(l, SaveSkip(i)), goal);
      var saved := planes.Save(at => l0.run.WithStages(cfg.screen, l0.run.stages[i := SkippedStage(l0.run.stages[i], at)]));
      if saved.Err? {
        return Some(Failing(saved.fault)), l;
      }
      l, left := l.(run := saved.value), None;
    }

    /** One executed stage: checkpoint, mark running, build at detection, checkpoint, mark finished. */
    method RunStage(l0: Locals, i: nat, ghost goal: (Pc, Shared)) returns (left: Option<Exit>, l: Locals)
      requires i < |l0.run.stages| && Heading(InTry(l0, CheckBefore(i)), goal)
      modifies planes
      ensures l.active == l0.active && |l.run.stages| == |l0.run.stages|
      ensures left.None? ==> Heading(AtStage(cfg, job, l, i + 1), goal)
      ensures left.Some? ==> Left(left.value, l.active, goal)
    {
      hide AnalysisRun.Valid, Run, AtStage;
      l := l0;
      left := Checkpoint(l, CheckBefore(i), goal);
      if left.Some? {
        return;
      }
      if job.profile.TestFail? && job.attemptNumber == 1 && i == 2 {
        return Some(Failing(TEST_FAIL)), l;
      }
      if !planes.Alive() {
        Dies(InTry(l, SaveRunning(i)), goal);
        return Some(Died), l;
      }
      Step(InTry(l, SaveRunning(i)), goal);
      var running := planes.Save(at => l0.run.WithStages(cfg.screen, l0.run.stages[i := RunningStage(l0.run.stages[i], at)]));
      if running.Err? {
        return Some(Failing(running.fault)), l;
      }
      l := l.(run := running.value);
      if job.profile.V1Compat? && l0.run.stages[i].stageName.Detection? {
        left, l := BuildPayloads(l, BuildAtDetection(i), goal);
        if left.Some? {
          return;
        }
      }
      left := Checkpoint(l, CheckAfter(i), goal);
      if left.Some? {
        return;
      }
      left, l := FinishStage(l, i, goal);
    }

    method Checkpoint(l: Locals, point: TryPoint, ghost goal: (Pc, Shared)) returns (left: Option<Exit>)
      requires point.CheckBefore? || point.CheckAfter?
      requires point.i < |l.run.stages| && Heading(InTry(l, point), goal)
      modifies planes
      ensures left.Some? ==> Left(left.value, l.active, goal)
      ensures left.None? && point.CheckAfter? ==> Heading(InTry(l, SaveFinished(point.i)), goal)
      ensures left.None? && point.CheckBefore? ==>
                Heading(if job.profile.TestFail? && job.attemptNumber == 1 && point.i == 2
                        then FailWith(l.active, TEST_FAIL) else InTry(l, SaveRunning(point.i)), goal)
    {
      hide AnalysisRun.Valid, Run;
      if !planes.Alive() {
        Dies(InTry(l, point), goal);
        return Some(Died);
      }
      Step(InTry(l, point), goal);
      var requested := planes.CancellationRequested(job.runId);
      left := if requested then Some(CancelObserved) else None;
    }

    method FinishStage(l0: Locals, i: nat, ghost goal: (Pc, Shared)) returns (left: Option<Exit>, l: Locals)
      requires i < |l0.run.stages| && Heading(InTry(l0, SaveFinished(i)), goal)
      modifies planes
      ensures l.active == l0.active && |l.run.stages| == |l0.run.stages|
      ensures left.None? ==> Heading(AtStage(cfg, job, l, i + 1), goal)
      ensures left.Some? ==> Left(left.value, l.active, goal)
    {
      hide AnalysisRun.Valid, Run, AtStage;
      l := l0;
      if !planes.Alive() {
        Dies(InTry(l, SaveFinished(i)), goal);
        return Some(Died), l;
      }
      Step(InTry(l, SaveFinished(i)), goal);
      var stage, metrics := l0.run.stages[i], cfg.metrics(job, worker, l0.run.stages[i].stageName);
      var finished := planes.Save(at => l0.run.WithStages(cfg.screen, l0.run.stages[i := FinishedStage(stage, at, metrics)]));
      if finished.Err? {
        return Some(Failing(finished.fault)), l;
      }
      l, left := l.(run := finished.value), None;
    }

    /** Materialize the input and run the adapter. */
    method BuildPayloads(l0: Locals, point: TryPoint, ghost goal: (Pc, Shared))
      returns (left: Option<Exit>, l: Locals)
      requires point.BuildAtDetection? || point.BuildLate?
      requires Heading(InTry(l0, point), goal)
      modifies planes
      ensures l.active == l0.active && l.run == l0.run
      ensures left.Some? ==> Left(left.value, l.active, goal)
      ensures left.None? ==> l.payloads.Some?
      ensures left.None? ==>
                Heading(if point.BuildLate? then AtPublish(cfg, l, 0) else InTry(l, CheckAfter(point.i)), goal)
    {
      hide AnalysisRun.Valid, Run, Plan, InputObject;
      l := l0;
      if !planes.Alive() {
        Dies(InTry(l, point), goal);
        return Some(Died), l;
      }
      Step(InTry(l, point), goal);
      var input, requested := planes.Input(job.runId);
      if input.Err? {
        return Some(Failing(input.fault)), l;
      }
      match cfg.build(job.profile, l.run.origin, input.value.1.data, requested)
      case Built(payloads) =>
        l, left := l.(payloads := Some(payloads)), None;
      case BuildFailed(code, message) => left := Some(Failing(ExecutionFailure(code, message)));
      case BuildCancelled => left := Some(CancelObserved);
    }

    /** Write every planned artifact in order, collecting the references. */
    method PublishAll(l0: Locals, ghost goal: (Pc, Shared)) returns (left: Option<Exit>, l: Locals)
      requires l0.payloads.Some? && Heading(AtPublish(cfg, l0, 0), goal)
      modifies planes
      ensures l.active == l0.active
      ensures left.None? ==> Heading(AtVerify(l, 0), goal)
      ensures left.Some? ==> Left(left.value, l.active, goal)
    {
      hide AnalysisRun.Valid, Run, Plan, WriteArtifact;
      l := l0;
      var plan := Plan(cfg, l.payloads.value);
      for k := 0 to |plan|
        invariant l == l0.(artifacts := l.artifacts)
        invariant Heading(AtPublish(cfg, l, k), goal)
      {
        if plan[k].Raise? {
          return Some(Failing(plan[k].fault)), l;
        }
        if !planes.Alive() {
          Dies(InTry(l, Publish(k)), goal);
          return Some(Died), l;
        }
        Step(InTry(l, Publish(k)), goal);
        var ref := planes.Write(cfg.sha, job.runId, plan[k].spec);
        if ref.Err? {
          return Some(Failing(ref.fault)), l;
        }
        l := l.(artifacts := l.artifacts + [ref.value]);
      }
      left := None;
    }

    /** Every published artifact must read back byte for byte. */
    method VerifyAll(l: Locals, ghost goal: (Pc, Shared)) returns (left: Option<Exit>)
      requires Heading(AtVerify(l, 0), goal)
      modifies planes
      ensures left.None? ==> Heading(InTry(l, Reload), goal)
      ensures left.Some? ==> Left(left.value, l.active, goal)
    {
      hide AnalysisRun.Valid, Run, ReferenceIntact;
      for k := 0 to |l.artifacts|
        invariant Heading(AtVerify(l, k), goal)
      {
        if !planes.Alive() {
          Dies(InTry(l, Verify(k)), goal);
          return Some(Died);
        }
        Step(InTry(l, Verify(k)), goal);
        var ok := planes.Integrity(cfg.sha, job.runId, l.artifacts[k]);
        if !ok {
          return Some(Failing(INTEGRITY_FAIL));
        }
      }
      left := None;
    }

    /** Reload the manifest, build the terminal record and save it. */
    method Conclude(l: Locals, ghost goal: (Pc, Shared)) returns (exit: Exit)
      requires Heading(InTry(l, Reload), goal)
      modifies planes
      ensures Left(exit, l.active, goal)
    {
      hide AnalysisRun.Valid, Run, FinalRecord;
      if !planes.Alive() {
        Dies(InTry(l, Reload), goal);
        return Died;
      }
      Step(InTry(l, Reload), goal);
      var current, at := planes.LoadAt(job.runId);
      if current.Err? {
        return Failing(current.fault);
      }
      var final := FinalRecord(cfg, current.value, l.artifacts, at);
      if final.Err? {
        return Failing(final.fault);
      }
      if !planes.Alive() {
        Dies(InTry(l, SaveFinal(final.value)), goal);
        return Died;
      }
      Step(InTry(l, SaveFinal(final.value)), goal);
      var saved := planes.Save(_ => Ok(final.value));
      exit := if saved.Ok? then Finished(final.value.status) else Failing(saved.fault);
    }
  }

  function EndingOf(pc: Pc): Option<Ending> {
    if pc.Done? then Some(pc.ending) else None
  }
}
