/** `storage/upload_service.py`: finalizing a direct upload, called at least once per upload. */
module UploadService {
  import opened Outcomes
  import opened JsonValues
  import opened Contract
  import opened Jobs
  import opened ExecutorMachine
  import Port = RepositoryPort

  const ALL_STAGES := [
    Ingestion, VideoValidation, Detection, Tracking, IdentityResolution, PitchCalibration, StageName.Metrics,
    WorkloadAdvisory, ArtifactPublication]

  function QueuedStages(attempt: int): seq<StageExecution> {
    seq(|ALL_STAGES|, i requires 0 <= i < |ALL_STAGES| =>
      StageExecution(StageKey(ALL_STAGES[i]), ALL_STAGES[i], true, StageQueued, 0.0, attempt, None, None, [], None,
                     map[], None))
  }

  /** What becomes of the job once the attempt is created: the queue takes it, refuses it (a reserved
      run or job id, say), or the process dies first. */
  datatype Enqueueing = Accepted | Refused(fault: Fault) | Died

  /** The uploaded object as the authorizer found it. */
  datatype Finalized = Finalized(objectReference: string, sha256: string, contentType: string)

  /** One call: the authorizer's verdict on the stored object, the ids drawn for it, and how
      enqueueing its job would go. */
  datatype Finalize = Finalize(
    runId: string, upload: Result<Finalized>, logicalId: string, jobId: string, profile: Profile,
    dataOrigin: DataOrigin, code: CodeReference, parameters: map<Key, Json>, at: Instant, enqueueing: Enqueueing)

  function ProfileText(profile: Profile): string {
    match profile
    case DemoFast => "demo_fast"
    case V1Compat => "v1_compat"
    case TestFail => "test_fail"
  }

  function Attempt(sc: Screen, call: Finalize): Result<AnalysisRun> {
    var upload :- call.upload;
    var input := InputReference("blob://" + upload.objectReference, upload.sha256, upload.contentType);
    NewRun(sc, call.logicalId, call.runId, call.dataOrigin, input, call.code, ProfileText(call.profile) + "/1.0.0",
           call.parameters[Named("pipeline_profile") := Str(ProfileText(call.profile))], [], QueuedStages(1), call.at)
  }

  function JobFor(call: Finalize, run: AnalysisRun): ExecutionJob {
    ExecutionJob(call.jobId, run.RunId(), run.origin.logicalAnalysisId, run.origin.attemptNumber, call.profile,
                 call.at, None, None)
  }

  /** The control plane and the jobs ever enqueued. */
  datatype Service = Service(runs: Port.Runs, jobs: seq<ExecutionJob>)

  function AfterFinalize(sc: Screen, s: Service, call: Finalize): Service {
    match Attempt(sc, call)
    case Err(_) => s
    case Ok(run) =>
      match Port.Create(s.runs, run)
      case Err(_) => s
      case Ok(runs) => Service(runs, if call.enqueueing.Accepted? then s.jobs + [JobFor(call, run)] else s.jobs)
  }

  class DirectUploadService {
    const screen: Screen
    var runs: Port.Runs
    var jobs: seq<ExecutionJob>

    constructor (screen: Screen)
      ensures this.screen == screen && runs == map[] && jobs == []
    {
      this.screen, runs, jobs := screen, map[], [];
    }

    /** `None` when the process dies on the way. */
    method FinalizeUpload(call: Finalize) returns (r: Option<Result<AnalysisRun>>)
      modifies this
      ensures Service(runs, jobs) == AfterFinalize(screen, old(Service(runs, jobs)), call)
      ensures Attempt(screen, call).Err? ==> r == Some(Err(Attempt(screen, call).fault))
      ensures Attempt(screen, call).Ok? && call.runId in old(runs) ==> r == Some(Ok(old(runs)[call.runId].manifest))
      ensures Attempt(screen, call).Ok? && call.runId !in old(runs) ==>
                r == match call.enqueueing
                     case Accepted => Some(Ok(Attempt(screen, call).value))
                     case Refused(fault) => Some(Err(fault))
                     case Died => None
    {
      hide AnalysisRun.Valid;
      var attempt := Attempt(screen, call);
      if attempt.Err? {
        return Some(Err(attempt.fault));
      }
      var run := attempt.value;
      var created := Port.Create(runs, run);
      if created.Err? {
        return Some(Ok(runs[call.runId].manifest));
      }
      runs := created.value;
      match call.enqueueing
      case Accepted =>
        jobs := jobs + [JobFor(call, run)];
        r := Some(Ok(run));
      case Refused(fault) => r := Some(Err(fault));
      case Died => r := None;
    }
  }

  // ---------------------------------------------------------------- any number of calls

  function AfterAll(sc: Screen, calls: seq<Finalize>): Service {
    if calls == [] then Service(map[], [])
    else AfterFinalize(sc, AfterAll(sc, calls[..|calls| - 1]), calls[|calls| - 1])
  }

  /** The call that created the attempt of this run. */
  predicate Creates(sc: Screen, calls: seq<Finalize>, i: nat, runId: string)
    requires i < |calls|
  {
    && calls[i].runId == runId && Attempt(sc, calls[i]).Ok?
    && runId !in AfterAll(sc, calls[..i]).runs
  }

  ghost predicate JobsOnce(s: Service) {
    && (forall i, j :: 0 <= i < j < |s.jobs| ==> s.jobs[i].runId != s.jobs[j].runId)
    && (forall i :: 0 <= i < |s.jobs| ==> s.jobs[i].runId in s.runs)
  }

  ghost predicate HasJob(s: Service, runId: string) {
    exists i :: 0 <= i < |s.jobs| && s.jobs[i].runId == runId
  }

  /** A call adds the run it creates, and the job that goes with it if the queue takes it. */
  lemma FinalizeAdds(sc: Screen, s: Service, call: Finalize)
    ensures var s' := AfterFinalize(sc, s, call);
            var creates := Attempt(sc, call).Ok? && call.runId !in s.runs;
            && s'.runs.Keys == s.runs.Keys + (if creates then {call.runId} else {})
            && (forall id :: id in s.runs ==> s'.runs[id] == s.runs[id])
            && (if creates && call.enqueueing.Accepted?
                then |s'.jobs| == |s.jobs| + 1 && s'.jobs[..|s.jobs|] == s.jobs && s'.jobs[|s.jobs|].runId == call.runId
                else s'.jobs == s.jobs)
  {
    hide AnalysisRun.Valid, QueuedStages;
  }

  lemma AddJob(jobs: seq<ExecutionJob>, job: ExecutionJob, runs: Port.Runs, runs': Port.Runs)
    requires JobsOnce(Service(runs, jobs)) && job.runId !in runs && job.runId in runs' && runs.Keys <= runs'.Keys
    ensures JobsOnce(Service(runs', jobs + [job]))
    ensures forall id :: HasJob(Service(runs', jobs + [job]), id) <==> HasJob(Service(runs, jobs), id) || id == job.runId
  {
    var more := jobs + [job];
    assert more[|jobs|] == job && forall i :: 0 <= i < |jobs| ==> more[i] == jobs[i];
    forall id | HasJob(Service(runs, jobs), id) ensures HasJob(Service(runs', more), id) {
      var i :| 0 <= i < |jobs| && jobs[i].runId == id;
      assert more[i].runId == id;
    }
  }

  lemma SameJobs(jobs: seq<ExecutionJob>, runs: Port.Runs, runs': Port.Runs)
    requires JobsOnce(Service(runs, jobs)) && runs.Keys <= runs'.Keys
    ensures JobsOnce(Service(runs', jobs))
    ensures forall id :: HasJob(Service(runs', jobs), id) <==> HasJob(Service(runs, jobs), id)
  {
  }

  lemma FinalizeKeeps(sc: Screen, s: Service, call: Finalize)
    requires JobsOnce(s)
    ensures var s' := AfterFinalize(sc, s, call);
            && JobsOnce(s')
            && s'.runs.Keys == s.runs.Keys + (if Attempt(sc, call).Ok? then {call.runId} else {})
            && (forall id :: HasJob(s', id) <==>
                  HasJob(s, id) || (id == call.runId && Attempt(sc, call).Ok? && id !in s.runs && call.enqueueing.Accepted?))
  {
    hide AfterFinalize, Attempt, JobsOnce, HasJob;
    FinalizeAdds(sc, s, call);
    var s' := AfterFinalize(sc, s, call);
    if s'.jobs == s.jobs {
      SameJobs(s.jobs, s.runs, s'.runs);
    } else {
      assert s'.jobs == s.jobs + [s'.jobs[|s.jobs|]];
      AddJob(s.jobs, s'.jobs[|s.jobs|], s.runs, s'.runs);
    }
  }

  lemma CreatesPrefix(sc: Screen, calls: seq<Finalize>, i: nat, runId: string)
    requires i + 1 < |calls|
    ensures Creates(sc, calls[..|calls| - 1], i, runId) <==> Creates(sc, calls, i, runId)
  {
    assert calls[..|calls| - 1][..i] == calls[..i];
  }

  ghost predicate Created(sc: Screen, calls: seq<Finalize>, runId: string) {
    exists i :: 0 <= i < |calls| && Creates(sc, calls, i, runId)
  }

  ghost predicate CreatedAndQueued(sc: Screen, calls: seq<Finalize>, runId: string) {
    exists i :: 0 <= i < |calls| && Creates(sc, calls, i, runId) && calls[i].enqueueing.Accepted?
  }

  /** One more call creates the run or leaves its creator what it was. */
  lemma CreatedStep(sc: Screen, calls: seq<Finalize>, runId: string)
    requires calls != []
    ensures var init, n := calls[..|calls| - 1], |calls| - 1;
            && (Created(sc, calls, runId) <==> Created(sc, init, runId) || Creates(sc, calls, n, runId))
            && (CreatedAndQueued(sc, calls, runId) <==>
                  CreatedAndQueued(sc, init, runId) || (Creates(sc, calls, n, runId) && calls[n].enqueueing.Accepted?))
            && (Creates(sc, calls, n, runId) <==>
                  calls[n].runId == runId && Attempt(sc, calls[n]).Ok? && runId !in AfterAll(sc, init).runs)
  {
    hide Attempt, AfterAll, Creates;
    var init, n := calls[..|calls| - 1], |calls| - 1;
    forall i | 0 <= i < n ensures Creates(sc, init, i, runId) <==> Creates(sc, calls, i, runId) {
      CreatesPrefix(sc, calls, i, runId);
    }
    LastCreates(sc, calls, runId);
    if Created(sc, init, runId) {
      var i :| 0 <= i < |init| && Creates(sc, init, i, runId);
      assert Creates(sc, calls, i, runId);
    }
    if CreatedAndQueued(sc, init, runId) {
      var i :| 0 <= i < |init| && Creates(sc, init, i, runId) && init[i].enqueueing.Accepted?;
      assert Creates(sc, calls, i, runId) && calls[i].enqueueing.Accepted?;
    }
  }

  lemma LastCreates(sc: Screen, calls: seq<Finalize>, runId: string)
    requires calls != []
    ensures var init, n := calls[..|calls| - 1], |calls| - 1;
            Creates(sc, calls, n, runId) <==>
              calls[n].runId == runId && Attempt(sc, calls[n]).Ok? && runId !in AfterAll(sc, init).runs
  {
    hide Attempt;
  }

  /** However often and for whatever uploads `finalize` is called, each run gets at most one attempt
      and one job; it gets its job exactly if the call that created the attempt got it accepted by
      the queue, and no later call makes up for one that did not. */
  lemma {:induction false} FinalizeOnce(sc: Screen, calls: seq<Finalize>, runId: string)
    ensures JobsOnce(AfterAll(sc, calls))
    ensures runId in AfterAll(sc, calls).runs <==> Created(sc, calls, runId)
    ensures HasJob(AfterAll(sc, calls), runId) <==> CreatedAndQueued(sc, calls, runId)
    ensures forall i, j :: 0 <= i < j < |calls| ==> !(Creates(sc, calls, i, runId) && Creates(sc, calls, j, runId))
  {
    hide AfterFinalize, Attempt, JobsOnce, HasJob, Creates;
    if calls == [] {
      NoJobsYet();
    } else {
      var init, n := calls[..|calls| - 1], |calls| - 1;
      FinalizeOnce(sc, init, runId);
      FinalizeKeeps(sc, AfterAll(sc, init), calls[n]);
      CreatedStep(sc, calls, runId);
      forall i, j | 0 <= i < j < |calls| && Creates(sc, calls, i, runId) ensures !Creates(sc, calls, j, runId) {
        CreatesPrefix(sc, calls, i, runId);
        if j < n {
          CreatesPrefix(sc, calls, j, runId);
        }
      }
    }
  }

  lemma NoJobsYet()
    ensures JobsOnce(Service(map[], [])) && forall id :: !HasJob(Service(map[], []), id)
  {
  }
}
