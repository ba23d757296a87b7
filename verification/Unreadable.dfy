/** Runs whose probe duration cannot be read: exactly when `execute` raises, and what is left. */
module Unreadable {
  import opened Outcomes
  import opened JsonValues
  import opened Contract
  import opened Jobs
  import opened ExecutorMachine
  import opened RecordValidity
  import opened ExecutionInvariant
  import opened CrashResume
  import opened Redelivery
  import opened CancelLatency
  import opened ExecutorEffects
  import opened ExactSuccess
  import Port = RepositoryPort

  /** The parameters hold a probe with a duration that is null, an array, an object, a timestamp's
      text, or a text that is no number. */
  predicate DurationUnreadable(cfg: Config, m: AnalysisRun) {
    && Named("video_probe") in m.origin.parameters && m.origin.parameters[Named("video_probe")].Obj?
    && var probe := m.origin.parameters[Named("video_probe")].fields;
    && Named("duration_seconds") in probe
    && var value := probe[Named("duration_seconds")];
    && (value.Null? || value.Arr? || value.Obj? || value.Stamp?
        || (value.Str? && cfg.parseNumber(value.chars).None?))
  }

  lemma UnreadableIs(cfg: Config, m: AnalysisRun)
    ensures DurationUnreadable(cfg, m) <==> Duration(cfg, m.origin.parameters).Err?
  {
  }

  /** The state in which a queued run's cancel flag is looked at. */
  function AtCheck(env: Environment, s: Shared): Shared {
    env(1, env(0, s))
  }

  /** What decides beforehand whether a delivery raises: the duration cannot be read, and the run is
      running already, or queued and not cancelled at the check that precedes its start. */
  predicate Raises(cfg: Config, job: ExecutionJob, env: Environment, s: Shared)
    requires job.runId in s.runs
  {
    var m := Stored(job, s);
    && DurationUnreadable(cfg, m)
    && (m.status.Running? || (m.status.Queued? && !Flagged(job, AtCheck(env, s))))
  }

  /** The stored manifest a raise leaves: running, its stages as they were. */
  ghost predicate LeftRunning(m: AnalysisRun, m': AnalysisRun) {
    && m'.status.Running? && m'.stages == m.stages && m'.origin == m.origin
    && (m.status.Running? ==> m' == m)
  }

  // ---------------------------------------------------------------- single accesses

  /** One access of a run, under a quiet environment. */
  lemma Turn(cfg: Config, job: ExecutionJob, worker: string, env: Environment, pc: Pc, s: Shared, tick: nat, fuel: nat)
    requires GoodConfig(cfg) && Quiet(job.runId, env) && PcOk(cfg, pc) && Inv(cfg, job, pc, s) && !pc.Done? && fuel > 0
    ensures var between := env(tick, s);
            var (pc', s') := Next(cfg, job, worker, pc, between);
            && QuietStep(job.runId, s, between)
            && Inv(cfg, job, pc, between) && Stored(job, between) == Stored(job, s)
            && PcOk(cfg, pc') && Inv(cfg, job, pc', s')
            && Run(cfg, job, worker, env, pc, s, tick, fuel) == Run(cfg, job, worker, env, pc', s', tick + 1, fuel - 1)
  {
    hide GoodConfig, PcInv, StoredOk, Next, QuietStep;
    var between := env(tick, s);
    assert QuietStep(job.runId, s, between);
    StageEnvironment(cfg, job, pc, s, between);
    StepInv(cfg, job, worker, pc, between);
    NextOk(cfg, job, worker, pc, between);
  }

  lemma RunningRaises(cfg: Config, job: ExecutionJob, worker: string, s: Shared)
    requires job.runId in s.runs && Stored(job, s).status.Running? && DurationUnreadable(cfg, Stored(job, s))
    ensures var (pc, s') := Next(cfg, job, worker, Loading, s); pc.Done? && pc.ending.Raised? && s' == s
  {
    UnreadableIs(cfg, Stored(job, s));
    hide DurationUnreadable, Duration;
  }

  /** Starting a queued run whose duration cannot be read stores it as running and raises. */
  lemma StartRaises(cfg: Config, job: ExecutionJob, worker: string, s: Shared)
    requires GoodConfig(cfg) && job.runId in s.runs && StoredOk(cfg, Stored(job, s), job.runId, s.clock)
    requires Stored(job, s).status.Queued? && DurationUnreadable(cfg, Stored(job, s))
    ensures var (pc, s') := Next(cfg, job, worker, SaveStart(Stored(job, s)), s);
            && pc.Done? && pc.ending.Raised?
            && job.runId in s'.runs && LeftRunning(Stored(job, s), Stored(job, s')) && s'.objects == s.objects
  {
    UnreadableIs(cfg, Stored(job, s));
    hide DurationUnreadable, StageExecution.Valid, Duration, GoodConfig;
    StartValid(cfg, Stored(job, s), s.clock);
    var started := Stored(job, s).(status := Running, startedAt := Some(s.clock));
    Replaced(cfg, job, s, started);
  }

  lemma Stops(cfg: Config, job: ExecutionJob, worker: string, env: Environment, pc: Pc, s: Shared, tick: nat, fuel: nat)
    requires pc.Done?
    ensures Run(cfg, job, worker, env, pc, s, tick, fuel) == (pc, s)
  {
  }

  // ---------------------------------------------------------------- exactly when a delivery raises

  /** With an unreadable duration: what each delivery of enough accesses comes to. */
  lemma UnreadableEnding(cfg: Config, job: ExecutionJob, s: Shared, d: Delivery)
    requires GoodConfig(cfg) && Quiet(job.runId, d.env) && Inv(cfg, job, Loading, s)
    requires Raises(cfg, job, d.env, s)
    ensures var (pc, s') := Run(cfg, job, d.worker, d.env, Loading, s, 0, d.crashAt);
            && job.runId in s'.runs
            && (d.crashAt >= 3 ==> pc.Done?)
            && (pc.Done? ==> pc.ending.Raised? && LeftRunning(Stored(job, s), Stored(job, s')))
            && Mine(s'.objects, job.runId) == Mine(s.objects, job.runId)
  {
    hide GoodConfig, StoredOk, Duration, Mine, Run, EnterTry, PointInv;
    var m, n := Stored(job, s), d.crashAt;
    if n > 0 {
      var s1 := d.env(0, s);
      Turn(cfg, job, d.worker, d.env, Loading, s, 0, n);
      if m.status.Running? {
        RunningRaises(cfg, job, d.worker, s1);
        Stops(cfg, job, d.worker, d.env, Next(cfg, job, d.worker, Loading, s1).0, s1, 1, n - 1);
      } else {
        QueuedUnreadable(cfg, job, d, s, s1);
      }
    } else {
      Unstarted(cfg, job, d, s);
    }
  }

  lemma Unstarted(cfg: Config, job: ExecutionJob, d: Delivery, s: Shared)
    requires d.crashAt == 0
    ensures Run(cfg, job, d.worker, d.env, Loading, s, 0, d.crashAt) == (Loading, s)
  {
  }

  lemma QueuedUnreadable(cfg: Config, job: ExecutionJob, d: Delivery, s: Shared, s1: Shared)
    requires GoodConfig(cfg) && Quiet(job.runId, d.env) && d.crashAt > 0
    requires s1 == d.env(0, s) && job.runId in s.runs && QuietStep(job.runId, s, s1)
    requires Stored(job, s).status.Queued? && Raises(cfg, job, d.env, s)
    requires Inv(cfg, job, Loading, s1) && Stored(job, s1) == Stored(job, s)
    requires Inv(cfg, job, CheckQueued(Stored(job, s)), s1)
    requires Run(cfg, job, d.worker, d.env, Loading, s, 0, d.crashAt)
          == Run(cfg, job, d.worker, d.env, CheckQueued(Stored(job, s)), s1, 1, d.crashAt - 1)
    ensures var (pc, s') := Run(cfg, job, d.worker, d.env, Loading, s, 0, d.crashAt);
            && job.runId in s'.runs
            && (d.crashAt >= 3 ==> pc.Done?)
            && (pc.Done? ==> pc.ending.Raised? && LeftRunning(Stored(job, s), Stored(job, s')))
            && Mine(s'.objects, job.runId) == Mine(s.objects, job.runId)
  {
    hide GoodConfig, StoredOk, DurationUnreadable, Mine, EnterTry, PointInv, Quiet, TryNext, AnalysisRun.Start,
         AnalysisRun.Cancel;
    var m, n := Stored(job, s), d.crashAt;
    if n > 1 {
      var s2 := d.env(1, s1);
      Turn(cfg, job, d.worker, d.env, CheckQueued(m), s1, 1, n - 1);
      if n > 2 {
        var s3 := d.env(2, s2);
        Turn(cfg, job, d.worker, d.env, SaveStart(m), s2, 2, n - 2);
        StartRaises(cfg, job, d.worker, s3);
      }
    }
  }

  /** A flagged queued run is cancelled instead, and a finished one just reported. */
  lemma OtherEndings(cfg: Config, job: ExecutionJob, s: Shared, d: Delivery)
    requires GoodConfig(cfg) && Quiet(job.runId, d.env) && Inv(cfg, job, Loading, s)
    requires !Raises(cfg, job, d.env, s) && d.crashAt > 0
    requires Run(cfg, job, d.worker, d.env, Loading, s, 0, d.crashAt).0.Done?
    ensures Run(cfg, job, d.worker, d.env, Loading, s, 0, d.crashAt).0.ending.Returned?
  {
    hide DurationUnreadable, GoodConfig, StoredOk, Duration, Mine, EnterTry, PointInv, Quiet, Run, PcInv;
    UnreadableIs(cfg, Stored(job, s));
    var m, n := Stored(job, s), d.crashAt;
    var s1 := d.env(0, s);
    RunInv(cfg, job, d.worker, d.env, Loading, s, 0, n);
    RunKeepsOrigin(cfg, job, d.worker, d.env, Loading, s, 0, n);
    Turn(cfg, job, d.worker, d.env, Loading, s, 0, n);
    if m.status.IsTerminal() {
      Stops(cfg, job, d.worker, d.env, Done(Returned(m.status)), s1, 1, n - 1);
    } else if m.status.Queued? && DurationUnreadable(cfg, m) {
      QueuedFlagged(cfg, job, d, s, s1);
    } else {
      var (pc, s') := Run(cfg, job, d.worker, d.env, Loading, s, 0, n);
      OnlyUnreadableRaises(cfg, job, pc, s');
    }
  }

  lemma OnlyUnreadableRaises(cfg: Config, job: ExecutionJob, pc: Pc, s: Shared)
    requires Inv(cfg, job, pc, s) && pc.Done?
    ensures pc.ending.Raised? ==> Duration(cfg, Stored(job, s).origin.parameters).Err?
  {
    hide StoredOk, Duration, Shaped;
  }

  lemma QueuedFlagged(cfg: Config, job: ExecutionJob, d: Delivery, s: Shared, s1: Shared)
    requires GoodConfig(cfg) && Quiet(job.runId, d.env) && d.crashAt > 0
    requires s1 == d.env(0, s) && job.runId in s.runs && Stored(job, s).status.Queued?
    requires Flagged(job, AtCheck(d.env, s))
    requires Inv(cfg, job, CheckQueued(Stored(job, s)), s1) && Stored(job, s1) == Stored(job, s)
    requires Run(cfg, job, d.worker, d.env, Loading, s, 0, d.crashAt)
          == Run(cfg, job, d.worker, d.env, CheckQueued(Stored(job, s)), s1, 1, d.crashAt - 1)
    ensures var pc := Run(cfg, job, d.worker, d.env, Loading, s, 0, d.crashAt).0; pc.Done? ==> pc.ending.Returned?
  {
    hide GoodConfig, StoredOk, Duration, Mine, EnterTry, PointInv, Quiet;
    var m, n := Stored(job, s), d.crashAt;
    if n > 1 {
      var s2 := d.env(1, s1);
      Turn(cfg, job, d.worker, d.env, CheckQueued(m), s1, 1, n - 1);
      if n > 2 {
        var s3 := d.env(2, s2);
        Turn(cfg, job, d.worker, d.env, SaveQueuedCancel(m), s2, 2, n - 2);
        QueuedCancelSaved(cfg, job, d.worker, m, s3);
      }
    }
  }

  lemma RunKeepsOrigin(cfg: Config, job: ExecutionJob, worker: string, env: Environment, pc: Pc, s: Shared, tick: nat,
                       fuel: nat)
    requires GoodConfig(cfg) && Quiet(job.runId, env) && PcOk(cfg, pc) && Inv(cfg, job, pc, s)
    ensures var s' := Run(cfg, job, worker, env, pc, s, tick, fuel).1;
            job.runId in s'.runs && Stored(job, s').origin == Stored(job, s).origin
    decreases fuel
  {
    hide GoodConfig, PcInv, StoredOk, Next, QuietStep, Quiet;
    if fuel > 0 && !pc.Done? {
      Turn(cfg, job, worker, env, pc, s, tick, fuel);
      var (pc', s') := Next(cfg, job, worker, pc, env(tick, s));
      StepKeepsOrigin(cfg, job, worker, pc, env(tick, s), job.runId);
      RunKeepsOrigin(cfg, job, worker, env, pc', s', tick + 1, fuel - 1);
    }
  }

  /** With one live executor a complete delivery raises if and only if `Raises` held when it began,
      and then the run is left running with its stages and objects as they were. */
  lemma RaisesExactly(cfg: Config, job: ExecutionJob, s: Shared, d: Delivery)
    requires GoodConfig(cfg) && Quiet(job.runId, d.env) && Inv(cfg, job, Loading, s)
    ensures var (pc, s') := Run(cfg, job, d.worker, d.env, Loading, s, 0, d.crashAt);
            && job.runId in s'.runs
            && (Raises(cfg, job, d.env, s) && d.crashAt >= 3 ==> pc.Done?)
            && (pc.Done? ==> (pc.ending.Raised? <==> Raises(cfg, job, d.env, s)))
            && (pc.Done? && pc.ending.Raised? ==>
                  && LeftRunning(Stored(job, s), Stored(job, s'))
                  && Mine(s'.objects, job.runId) == Mine(s.objects, job.runId))
  {
    hide GoodConfig, Inv, Raises, Mine, Run, Quiet;
    InStore(cfg, job, Loading, s);
    if Raises(cfg, job, d.env, s) {
      UnreadableEnding(cfg, job, s, d);
    } else if d.crashAt == 0 {
      Unstarted(cfg, job, d, s);
    } else {
      RunKeepsOrigin(cfg, job, d.worker, d.env, Loading, s, 0, d.crashAt);
      if Run(cfg, job, d.worker, d.env, Loading, s, 0, d.crashAt).0.Done? {
        OtherEndings(cfg, job, s, d);
      }
    }
  }

  lemma InStore(cfg: Config, job: ExecutionJob, pc: Pc, s: Shared)
    requires Inv(cfg, job, pc, s)
    ensures job.runId in s.runs
  {
    hide PcInv, StoredOk;
  }

  // ---------------------------------------------------------------- and it stays so

  /** No later delivery ends such a run, whatever is requested meanwhile: each complete one raises
      again and the manifest never changes. */
  lemma {:induction false} RaisesForever(cfg: Config, job: ExecutionJob, s: Shared, ds: seq<Delivery>)
    requires GoodConfig(cfg) && AllQuiet(job.runId, ds) && Inv(cfg, job, Loading, s)
    requires Stored(job, s).status.Running? && DurationUnreadable(cfg, Stored(job, s))
    ensures var (pc, s') := Deliver(cfg, job, s, ds);
            && Inv(cfg, job, Loading, s') && Stored(job, s') == Stored(job, s)
            && Mine(s'.objects, job.runId) == Mine(s.objects, job.runId)
            && (ds != [] && ds[|ds| - 1].crashAt > 0 ==> pc.Done? && pc.ending.Raised?)
  {
    hide GoodConfig, StoredOk, PcInv, DurationUnreadable, Mine, Run, Quiet;
    if ds != [] {
      var init, d := ds[..|ds| - 1], ds[|ds| - 1];
      RaisesForever(cfg, job, s, init);
      var before := Deliver(cfg, job, s, init).1;
      RunningUnreadable(cfg, job, before, d);
    }
  }

  lemma RunningUnreadable(cfg: Config, job: ExecutionJob, s: Shared, d: Delivery)
    requires GoodConfig(cfg) && Quiet(job.runId, d.env) && Inv(cfg, job, Loading, s)
    requires Stored(job, s).status.Running? && DurationUnreadable(cfg, Stored(job, s))
    ensures var (pc, s') := Run(cfg, job, d.worker, d.env, Loading, s, 0, d.crashAt);
            && Inv(cfg, job, Loading, s') && Stored(job, s') == Stored(job, s)
            && Mine(s'.objects, job.runId) == Mine(s.objects, job.runId)
            && (d.crashAt > 0 ==> pc.Done? && pc.ending.Raised?)
  {
    hide GoodConfig, StoredOk, PcInv, DurationUnreadable, Mine, Quiet;
    if d.crashAt > 0 {
      var s1 := d.env(0, s);
      Turn(cfg, job, d.worker, d.env, Loading, s, 0, d.crashAt);
      RunningRaises(cfg, job, d.worker, s1);
    }
  }

  // ---------------------------------------------------------------- a run that raises

  const NULL_DURATION := map[Named("video_probe") := Obj(map[Named("duration_seconds") := Null])]

  /** A contract-valid queued run whose recorded probe duration is null. */
  function UnreadableRun(): AnalysisRun {
    SomeRun().(origin := SomeRun().origin.(parameters := NULL_DURATION))
  }

  function UnreadableState(): Shared {
    Shared(map[SOME_ID := Port.Record(UnreadableRun(), false)], [SOME_INPUT], 0)
  }

  /** `execute` raises on it at its third access, leaves it running, and so does every later delivery. */
  lemma NullDurationRaises(worker: string, crashAt: nat, again: seq<Delivery>)
    requires crashAt >= 3 && AllQuiet(SOME_ID, again)
    ensures GoodConfig(SomeConfig()) && Inv(SomeConfig(), SomeJob(), Loading, UnreadableState())
    ensures var (pc, s') := Run(SomeConfig(), SomeJob(), worker, Alone(), Loading, UnreadableState(), 0, crashAt);
            && pc.Done? && pc.ending.Raised?
            && SOME_ID in s'.runs && Stored(SomeJob(), s').status.Running?
            && var (pc'', s'') := Deliver(SomeConfig(), SomeJob(), s', again);
               && SOME_ID in s''.runs && Stored(SomeJob(), s'') == Stored(SomeJob(), s')
               && (again != [] && again[|again| - 1].crashAt > 0 ==> pc''.Done? && pc''.ending.Raised?)
  {
    hide GoodConfig, AnalysisRun.Valid, Mine, Run, Quiet, StageExecution.Valid;
    var cfg, job, s := SomeConfig(), SomeJob(), UnreadableState();
    SomeConfigGood();
    UnreadableRunValid();
    AloneIsPeaceful(SOME_ID);
    var d := Delivery(worker, Alone(), crashAt);
    RaisesExactly(cfg, job, s, d);
    RunInv(cfg, job, worker, Alone(), Loading, s, 0, crashAt);
    RunKeepsOrigin(cfg, job, worker, Alone(), Loading, s, 0, crashAt);
    var (pc, s') := Run(cfg, job, worker, Alone(), Loading, s, 0, crashAt);
    ResumeInv(cfg, job, pc, s');
    RaisesForever(cfg, job, s', again);
  }

  lemma UnreadableRunValid()
    ensures UnreadableRun().Valid(SomeConfig().screen) && Stamped(UnreadableRun(), 0)
    ensures UnreadableRun().RunId() == SOME_ID && DurationUnreadable(SomeConfig(), UnreadableRun())
  {
    SomeRunValid();
    hide StageExecution.Valid, IsUuid4, UniqueStages, LinksKnown, InputReference.Valid, CodeReference.Valid;
  }
}
