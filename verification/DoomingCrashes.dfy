/** Every run that would succeed can be doomed by one crash, and none by a flag set late. */
module DoomingCrashes {
  import opened Contract
  import opened Jobs
  import opened ObjectStorage
  import opened ExecutorMachine
  import opened RecordValidity
  import opened ExecutionInvariant
  import opened ExecutorEffects
  import opened CrashResume
  import opened Redelivery
  import opened CancelLatency
  import opened FlagFates

  // ---------------------------------------------------------------- runs, access by access

  /** The last access of a run. */
  lemma {:induction false} RunLast(cfg: Config, job: ExecutionJob, worker: string, env: Environment, pc: Pc, s: Shared,
                                   tick: nat, fuel: nat)
    requires PcOk(cfg, pc)
    ensures var (at, there) := Run(cfg, job, worker, env, pc, s, tick, fuel);
            Run(cfg, job, worker, env, pc, s, tick, fuel + 1)
              == if at.Done? then (at, there) else Next(cfg, job, worker, at, env(tick + fuel, there))
    decreases fuel
  {
    hide Next;
    if !pc.Done? {
      var (pc', s') := Next(cfg, job, worker, pc, env(tick, s));
      NextOk(cfg, job, worker, pc, env(tick, s));
      if fuel > 0 {
        RunLast(cfg, job, worker, env, pc', s', tick + 1, fuel - 1);
        assert tick + 1 + (fuel - 1) == tick + fuel;
      } else {
        assert Run(cfg, job, worker, env, pc', s', tick + 1, 0) == (pc', s');
      }
    }
  }

  /** A run continued is one run. */
  lemma {:induction false} RunContinued(cfg: Config, job: ExecutionJob, worker: string, env: Environment, pc: Pc, s: Shared,
                                        tick: nat, n: nat, more: nat)
    requires PcOk(cfg, pc)
    ensures var (at, there) := Run(cfg, job, worker, env, pc, s, tick, n);
            Run(cfg, job, worker, env, pc, s, tick, n + more) == Run(cfg, job, worker, env, at, there, tick + n, more)
    decreases n
  {
    hide Next;
    if n > 0 && !pc.Done? {
      var (pc', s') := Next(cfg, job, worker, pc, env(tick, s));
      NextOk(cfg, job, worker, pc, env(tick, s));
      RunContinued(cfg, job, worker, env, pc', s', tick + 1, n - 1, more);
      assert tick + 1 + (n - 1) == tick + n && (n - 1) + more == n + more - 1;
    }
  }

  /** Only the environment's doings before an access matter to it. */
  lemma {:induction false} RunSame(cfg: Config, job: ExecutionJob, worker: string, env: Environment, env': Environment,
                                   pc: Pc, s: Shared, tick: nat, n: nat)
    requires PcOk(cfg, pc) && forall k: nat, t: Shared :: tick <= k < tick + n ==> env(k, t) == env'(k, t)
    ensures Run(cfg, job, worker, env, pc, s, tick, n) == Run(cfg, job, worker, env', pc, s, tick, n)
    decreases n
  {
    hide Next;
    if n > 0 && !pc.Done? {
      var (pc', s') := Next(cfg, job, worker, pc, env(tick, s));
      NextOk(cfg, job, worker, pc, env(tick, s));
      RunSame(cfg, job, worker, env, env', pc', s', tick + 1, n - 1);
    }
  }

  function StateAt(cfg: Config, job: ExecutionJob, worker: string, env: Environment, s: Shared, n: nat): (r: (Pc, Shared))
    ensures PcOk(cfg, r.0)
  {
    Run(cfg, job, worker, env, Loading, s, 0, n)
  }

  // ---------------------------------------------------------------- the first write

  /** Access `n` is the first to change the run's objects. */
  ghost predicate FirstWrite(cfg: Config, job: ExecutionJob, worker: string, env: Environment, s: Shared, n: nat) {
    && Mine(StateAt(cfg, job, worker, env, s, n).1.objects, job.runId) == Mine(s.objects, job.runId)
    && Mine(StateAt(cfg, job, worker, env, s, n + 1).1.objects, job.runId) != Mine(s.objects, job.runId)
  }

  lemma Unstarted(cfg: Config, job: ExecutionJob, worker: string, env: Environment, s: Shared)
    ensures StateAt(cfg, job, worker, env, s, 0) == (Loading, s)
  {
  }

  lemma {:induction false} SomeFirstWrite(cfg: Config, job: ExecutionJob, worker: string, env: Environment, s: Shared, n: nat)
    requires Mine(StateAt(cfg, job, worker, env, s, n).1.objects, job.runId) != Mine(s.objects, job.runId)
    ensures exists k :: FirstWrite(cfg, job, worker, env, s, k)
  {
    hide Mine;
    Unstarted(cfg, job, worker, env, s);
    if n > 0 && Mine(StateAt(cfg, job, worker, env, s, n - 1).1.objects, job.runId) == Mine(s.objects, job.runId) {
      assert FirstWrite(cfg, job, worker, env, s, n - 1);
    } else if n > 0 {
      SomeFirstWrite(cfg, job, worker, env, s, n - 1);
    }
  }

  /** The first write is a step of publication: afterwards the run is running and past its last
      checkpoint. */
  lemma AfterFirstWrite(cfg: Config, job: ExecutionJob, worker: string, env: Environment, s: Shared, n: nat)
    requires GoodConfig(cfg) && Quiet(job.runId, env) && Inv(cfg, job, Loading, s)
    requires FirstWrite(cfg, job, worker, env, s, n)
    ensures var (pc, there) := StateAt(cfg, job, worker, env, s, n + 1);
            Inv(cfg, job, pc, there) && Stored(job, there).status.Running? && PastLastCheck(pc)
  {
    hide GoodConfig, StoredOk, Mine, Run, QuietStep, Next, PointInv, PayloadsDistinct;
    var (at, before) := StateAt(cfg, job, worker, env, s, n);
    RunInv(cfg, job, worker, env, Loading, s, 0, n);
    RunInv(cfg, job, worker, env, Loading, s, 0, n + 1);
    RunLast(cfg, job, worker, env, Loading, s, 0, n);
    var between := env(n, before);
    QuietMine(job.runId, env, n, before);
    StageEnvironment(cfg, job, at, before, between);
    if !(at.InTry? && at.point.Publish?) {
      StepFresh(cfg, job, worker, at, between);
    }
    StepStaysPast(cfg, job, worker, at, between);
    PublishKeepsRuns(cfg, job, worker, at, between);
  }

  lemma QuietMine(runId: string, env: Environment, tick: nat, s: Shared)
    requires Quiet(runId, env)
    ensures QuietStep(runId, s, env(tick, s)) && Mine(env(tick, s).objects, runId) == Mine(s.objects, runId)
  {
    hide Mine;
  }

  lemma PublishKeepsRuns(cfg: Config, job: ExecutionJob, worker: string, pc: Pc, s: Shared)
    requires PcOk(cfg, pc) && pc.InTry? && pc.point.Publish?
    ensures Next(cfg, job, worker, pc, s).1.runs == s.runs
  {
    hide WriteArtifact, Plan;
  }

  lemma OneDelivery(cfg: Config, job: ExecutionJob, s: Shared, d: Delivery)
    ensures Deliver(cfg, job, s, [d]) == Run(cfg, job, d.worker, d.env, Loading, s, 0, d.crashAt)
  {
    hide Run;
    assert [d][..0] == [];
  }

  // ---------------------------------------------------------------- main results

  /** A success that is foretold writes something. */
  lemma SuccessWrites(cfg: Config, job: ExecutionJob, m: AnalysisRun, mine: Objects)
    requires !m.status.IsTerminal() && StartFate(cfg, job, m, mine).status in {Succeeded, Partial}
    ensures StartFate(cfg, job, m, mine).objects != mine
  {
    hide InputObject, CanWrite, Plan;
    var built := cfg.build(job.profile, m.origin, InputObject(mine, job.runId).value.1.data, false);
    var plan := Plan(cfg, built.payloads);
    PlanNonEmpty(cfg, built.payloads);
    assert plan[0..] == plan;
    AllWrites(cfg, job.runId, mine, plan, 0);
    assert |mine + PlanEntries(cfg, job.runId, plan)| > |mine|;
  }

  lemma SuccessHasFirstWrite(cfg: Config, job: ExecutionJob, s: Shared, worker: string, env: Environment)
    requires GoodConfig(cfg) && CancelsOnlyOnRequest(cfg) && Peaceful(job.runId, env) && Calm(cfg, job, Loading, s)
    requires !Stored(job, s).status.IsTerminal() && OutcomeFrom(cfg, job, s).status in {Succeeded, Partial}
    ensures exists n :: FirstWrite(cfg, job, worker, env, s, n)
  {
    hide GoodConfig, CancelsOnlyOnRequest, Peaceful, PcInv, StoredOk, ObjectsInv, PayloadInv, Duration, Run, Mine,
         StartFate, FirstWrite;
    EveryExecutionEnds(cfg, job, worker, env, Loading, s, 0);
    var fuel: nat :| Run(cfg, job, worker, env, Loading, s, 0, fuel).0.Done?;
    UninterruptedOutcome(cfg, job, s, Delivery(worker, env, fuel));
    SuccessWrites(cfg, job, Stored(job, s), Mine(s.objects, job.runId));
    SomeFirstWrite(cfg, job, worker, env, s, fuel);
  }

  /** Whenever an execution would succeed, whatever peaceful company it has, some crash dooms it: it
      comes after an artifact write, leaves the run unfinished, and leaves nothing but failure. */
  lemma SomeCrashDooms(cfg: Config, job: ExecutionJob, s: Shared, worker: string, env: Environment)
    requires GoodConfig(cfg) && CancelsOnlyOnRequest(cfg) && Peaceful(job.runId, env) && Calm(cfg, job, Loading, s)
    requires !Stored(job, s).status.IsTerminal() && OutcomeFrom(cfg, job, s).status in {Succeeded, Partial}
    ensures exists n: nat :: Dooms(cfg, job, s, Delivery(worker, env, n))
  {
    hide GoodConfig, CancelsOnlyOnRequest, PcInv, StoredOk, ObjectsInv, PayloadInv, Duration, Run, Mine,
         StartFate, CrashedBeforeWrites, QuietStep;
    SuccessHasFirstWrite(cfg, job, s, worker, env);
    var n: nat :| FirstWrite(cfg, job, worker, env, s, n);
    AfterFirstWrite(cfg, job, worker, env, s, n);
    var d := Delivery(worker, env, n + 1);
    OneDelivery(cfg, job, s, d);
    CrashResumeOutcome(cfg, job, s, [d]);
    Written(cfg, job, s, d);
    assert Dooms(cfg, job, s, d);
  }

  /** The delivery crashes after an artifact write; only failure is left. */
  ghost predicate Dooms(cfg: Config, job: ExecutionJob, s: Shared, d: Delivery) {
    var s' := Deliver(cfg, job, s, [d]).1;
    && !CrashedBeforeWrites(cfg, job, s, [d])
    && job.runId in s'.runs && !Stored(job, s').status.IsTerminal()
    && OutcomeFrom(cfg, job, s') == FAILURE
  }

  lemma Written(cfg: Config, job: ExecutionJob, s: Shared, d: Delivery)
    requires var s' := Run(cfg, job, d.worker, d.env, Loading, s, 0, d.crashAt).1;
             && job.runId in s'.runs && !Stored(job, s').status.IsTerminal()
             && Mine(s'.objects, job.runId) != Mine(s.objects, job.runId)
    ensures !CrashedBeforeWrites(cfg, job, s, [d])
  {
    hide Mine, Run;
    OneDelivery(cfg, job, s, d);
    assert [d][..1] == [d];
    assert After(cfg, job, s, [d], 1) == Run(cfg, job, d.worker, d.env, Loading, s, 0, d.crashAt).1;
  }

  /** Nobody but the one who sets this run's cancel flag before access `n`. */
  function FlagFrom(n: nat, runId: string): Environment {
    (k: nat, s: Shared) => if k < n then s else FlagTo(s, runId, true)
  }

  lemma LonelyEnvironments(n: nat, runId: string)
    ensures Quiet(runId, Alone()) && Peaceful(runId, Alone()) && Quiet(runId, FlagFrom(n, runId))
  {
    hide Mine;
    AloneIsPeaceful(runId);
    forall k: nat, s: Shared ensures QuietStep(runId, s, FlagFrom(n, runId)(k, s)) {
      assert FlagTo(s, runId, true).objects == s.objects;
    }
  }

  /** Whenever an execution would succeed, a flag set late enough changes nothing: it ends as
      foretold, with the flag set. */
  lemma LateFlagSucceeds(cfg: Config, job: ExecutionJob, s: Shared, worker: string)
    requires GoodConfig(cfg) && CancelsOnlyOnRequest(cfg) && Calm(cfg, job, Loading, s)
    requires !Stored(job, s).status.IsTerminal() && OutcomeFrom(cfg, job, s).status in {Succeeded, Partial}
    ensures exists n: nat, fuel: nat :: n < fuel && SucceedsFlagged(cfg, job, s, worker, n, fuel)
  {
    hide GoodConfig, CancelsOnlyOnRequest, PcInv, StoredOk, ObjectsInv, PayloadInv, Duration, Run, Mine, FlagTo,
         StartFate, FirstWrite, Peaceful, Quiet, Muted, Inv;
    LonelyEnvironments(0, job.runId);
    SuccessHasFirstWrite(cfg, job, s, worker, Alone());
    var n: nat :| FirstWrite(cfg, job, worker, Alone(), s, n);
    LateFlagFrom(cfg, job, s, worker, n);
  }

  ghost predicate SucceedsFlagged(cfg: Config, job: ExecutionJob, s: Shared, worker: string, n: nat, fuel: nat) {
    var (pc, s') := Run(cfg, job, worker, FlagFrom(n, job.runId), Loading, s, 0, fuel);
    && job.runId in s.runs && job.runId in s'.runs
    && pc == Done(Returned(OutcomeFrom(cfg, job, s).status))
    && Stored(job, s').status == OutcomeFrom(cfg, job, s).status
    && Flagged(job, s')
  }

  lemma LateFlagFrom(cfg: Config, job: ExecutionJob, s: Shared, worker: string, n: nat)
    requires GoodConfig(cfg) && CancelsOnlyOnRequest(cfg) && Calm(cfg, job, Loading, s)
    requires FirstWrite(cfg, job, worker, Alone(), s, n)
    ensures exists k: nat, fuel: nat :: k < fuel && SucceedsFlagged(cfg, job, s, worker, k, fuel)
  {
    hide GoodConfig, CancelsOnlyOnRequest, PcInv, StoredOk, ObjectsInv, PayloadInv, Duration, Run, Mine, FlagTo,
         StartFate, FirstWrite, Peaceful, Quiet, Muted, FlagFrom;
    var env, late := Alone(), FlagFrom(n + 1, job.runId);
    LonelyEnvironments(n + 1, job.runId);
    AfterFirstWrite(cfg, job, worker, env, s, n);
    RunKeepsFate(cfg, job, worker, env, Loading, s, 0, n + 1);
    var (pc, there) := StateAt(cfg, job, worker, env, s, n + 1);
    SameBefore(cfg, job, worker, s, n + 1);
    FlaggedRest(cfg, job, worker, pc, there, n + 1);
    var rest: nat :| rest > 0 && EndsFlagged(cfg, job, worker, pc, there, n + 1, rest);
    RunContinued(cfg, job, worker, late, Loading, s, 0, n + 1, rest);
    assert SucceedsFlagged(cfg, job, s, worker, n + 1, n + 1 + rest);
  }

  lemma SameBefore(cfg: Config, job: ExecutionJob, worker: string, s: Shared, n: nat)
    ensures Run(cfg, job, worker, FlagFrom(n, job.runId), Loading, s, 0, n) == StateAt(cfg, job, worker, Alone(), s, n)
  {
    hide Run;
    RunSame(cfg, job, worker, Alone(), FlagFrom(n, job.runId), Loading, s, 0, n);
  }

  /** The rest of the execution, the flag set before its first access. */
  ghost predicate EndsFlagged(cfg: Config, job: ExecutionJob, worker: string, pc: Pc, s: Shared, n: nat, fuel: nat)
    requires PcOk(cfg, pc)
  {
    var (pc', s') := Run(cfg, job, worker, FlagFrom(n, job.runId), pc, s, n, fuel);
    && job.runId in s.runs && job.runId in s'.runs
    && pc' == Done(Returned(FateIn(cfg, job, pc, s).status))
    && Stored(job, s').status == FateIn(cfg, job, pc, s).status
    && Flagged(job, s')
  }

  lemma FlaggedRest(cfg: Config, job: ExecutionJob, worker: string, pc: Pc, s: Shared, n: nat)
    requires GoodConfig(cfg) && CancelsOnlyOnRequest(cfg) && PcOk(cfg, pc) && Calm(cfg, job, pc, s)
    requires PastLastCheck(pc) && Stored(job, s).status.Running?
    ensures exists fuel: nat :: fuel > 0 && EndsFlagged(cfg, job, worker, pc, s, n, fuel)
  {
    hide GoodConfig, CancelsOnlyOnRequest, PcInv, StoredOk, ObjectsInv, PayloadInv, Duration, Run, Mine, FlagTo,
         StartFate, Peaceful, Quiet, Muted, FlagFrom;
    var late, on := FlagFrom(n, job.runId), FlagTo(s, job.runId, true);
    LonelyEnvironments(n, job.runId);
    StillRunning(cfg, job, pc, s);
    FlagOnState(cfg, job, pc, s);
    FirstFlag(cfg, job, worker, pc, s, n);
    EveryExecutionEnds(cfg, job, worker, late, pc, s, n);
    var fuel: nat :| Run(cfg, job, worker, late, pc, s, n, fuel).0.Done?;
    NotYet(cfg, job, worker, late, pc, s, n, fuel);
    LateFlagChangesNothing(cfg, job, worker, late, pc, on, n, fuel);
    MutedIsPeaceful(late, job.runId);
    RunKeepsFate(cfg, job, worker, Muted(late, job.runId), pc, s, n, fuel);
    var (bare, plain) := Run(cfg, job, worker, Muted(late, job.runId), pc, s, n, fuel);
    DoneFate(cfg, job, bare, plain);
    OnIsFlagged(job, plain);
    assert EndsFlagged(cfg, job, worker, pc, s, n, fuel);
  }

  lemma StillRunning(cfg: Config, job: ExecutionJob, pc: Pc, s: Shared)
    requires Calm(cfg, job, pc, s) && Stored(job, s).status.Running?
    ensures pc.Done? ==> false
  {
    hide StoredOk, ObjectsInv, PayloadInv, Mine, PointInv;
  }

  lemma FlagOnState(cfg: Config, job: ExecutionJob, pc: Pc, s: Shared)
    requires Inv(cfg, job, pc, s) && !s.runs[job.runId].cancelRequested
    ensures var on := FlagTo(s, job.runId, true);
            Inv(cfg, job, pc, on) && Flagged(job, on) && FlagTo(on, job.runId, false) == s
  {
    hide PcInv, StoredOk;
    var on := FlagTo(s, job.runId, true);
    assert on.runs[job.runId := on.runs[job.runId].(cancelRequested := false)] == s.runs;
  }

  lemma FirstFlag(cfg: Config, job: ExecutionJob, worker: string, pc: Pc, s: Shared, n: nat)
    requires PcOk(cfg, pc) && job.runId in s.runs && !pc.Done?
    ensures forall fuel: nat :: fuel > 0 ==>
              Run(cfg, job, worker, FlagFrom(n, job.runId), pc, s, n, fuel)
              == Run(cfg, job, worker, FlagFrom(n, job.runId), pc, FlagTo(s, job.runId, true), n, fuel)
  {
    hide Next;
    assert FlagTo(FlagTo(s, job.runId, true), job.runId, true) == FlagTo(s, job.runId, true);
  }

  lemma NotYet(cfg: Config, job: ExecutionJob, worker: string, env: Environment, pc: Pc, s: Shared, tick: nat, fuel: nat)
    requires PcOk(cfg, pc) && !pc.Done? && Run(cfg, job, worker, env, pc, s, tick, fuel).0.Done?
    ensures fuel > 0
  {
  }

  lemma DoneFate(cfg: Config, job: ExecutionJob, pc: Pc, s: Shared)
    requires Calm(cfg, job, pc, s) && pc.Done?
    ensures pc == Done(Returned(FateIn(cfg, job, pc, s).status))
    ensures Stored(job, s).status == FateIn(cfg, job, pc, s).status
  {
    hide StoredOk, ObjectsInv, PayloadInv, Mine, Duration, BuildFate;
  }

  lemma OnIsFlagged(job: ExecutionJob, s: Shared)
    requires job.runId in s.runs
    ensures Flagged(job, FlagTo(s, job.runId, true))
  {
  }
}
