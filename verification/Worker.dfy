/** `worker.py`: recover, then claim, execute and settle until stopped, others using the queue too. */
module Worker {
  import opened Outcomes
  import opened JsonValues
  import opened Contract
  import opened Jobs
  import opened ExecutorMachine
  import opened Executor
  import opened FilesystemQueue
  import QC = QueueConservation

  /** One pass of the loop: the clock at the claim, what the others do to the repository and the
      objects during the execution and to the queue before the settling, the access at which the
      process dies, if it does, and whether a stop signal arrived before it. */
  datatype Pass = Pass(
    at: Instant, env: Environment, meanwhile: seq<QC.Operation>, crashAt: nat, stopped: bool)

  /** `Lost` is a process that died or raised with its job claimed. */
  datatype Outcome = Refused | Idle | Settled(job: ExecutionJob, status: RunStatus) | Lost(job: ExecutionJob)

  // ---------------------------------------------------------------- what one pass does to the queue

  /** The claim, and then the others' operations. */
  ghost function Held(s: QC.Queue, taken: Option<string>, worker: string, pass: Pass): QC.Queue
    requires taken.Some? ==> Waiting(s.places, taken.value)
  {
    QC.Applied(s.(places := AfterClaim(s.places, taken, worker, pass.at)), pass.meanwhile)
  }

  function Settle(q: Places, job: ExecutionJob, status: RunStatus): Places {
    if status in {Succeeded, Partial} then AfterFinish(q, job.jobId, CompletedJob)
    else if status.Cancelled? then AfterCancel(q, job.runId)
    else AfterFinish(q, job.jobId, FailedJob)
  }

  ghost predicate PassOf(s: QC.Queue, s': QC.Queue, worker: string, pass: Pass, outcome: Outcome) {
    match outcome
    case Refused => s' == s
    case Idle => s' == Held(s, None, worker, pass)
    case Settled(job, status) =>
      && IsFirst(s.places, job.jobId) && job == ClaimedBy(s.places[job.jobId].entry.job, worker, pass.at)
      && var held := Held(s, Some(job.jobId), worker, pass);
         s' == held.(places := Settle(held.places, job, status))
    case Lost(job) =>
      && IsFirst(s.places, job.jobId) && job == ClaimedBy(s.places[job.jobId].entry.job, worker, pass.at)
      && s' == Held(s, Some(job.jobId), worker, pass)
  }

  /** The others' operations do not touch this job: no recovery, no cancellation of its run, no
      settling of it. */
  predicate LeaveAlone(ops: seq<QC.Operation>, job: ExecutionJob) {
    forall i :: 0 <= i < |ops| ==>
      && !ops[i].Recover?
      && (ops[i].Cancel? ==> ops[i].runId != job.runId)
      && (ops[i].Finish? ==> ops[i].job.jobId != job.jobId)
  }

  /** Jobs the others enqueue carry ids of their own. */
  ghost predicate BrandNew(q: Places, ops: seq<QC.Operation>) {
    && (forall i :: 0 <= i < |ops| && ops[i].Enqueue? ==> ops[i].job.jobId !in q)
    && (forall i, j :: 0 <= i < j < |ops| && ops[i].Enqueue? && ops[j].Enqueue? ==>
          ops[i].job.jobId != ops[j].job.jobId)
  }

  function AllMeanwhile(passes: seq<Pass>): seq<QC.Operation> {
    if passes == [] then [] else passes[0].meanwhile + AllMeanwhile(passes[1..])
  }

  class WorkerProcess {
    const cfg: Config
    const queue: LocalFilesystemQueue
    const workerId: string
    /** The repository and object storage as the last access left them. */
    var shared: Shared

    constructor (cfg: Config, queue: LocalFilesystemQueue, workerId: string, shared: Shared)
      ensures this.cfg == cfg && this.queue == queue && this.workerId == workerId && this.shared == shared
    {
      this.cfg, this.queue, this.workerId, this.shared := cfg, queue, workerId, shared;
    }

    /** The execution of `job` during this pass. */
    ghost function Execution(job: ExecutionJob, pass: Pass): (Pc, Shared)
      reads this
    {
      Run(cfg, job, workerId, pass.env, Loading, shared, 0, pass.crashAt)
    }

    /** What the repository says of a run now. */
    function StatusNow(): StatusOf
      reads this
    {
      var runs := shared.runs;
      (runId: string) => if runId in runs then Some(runs[runId].manifest.status) else None
    }

    /** The body of the loop. The job claimed is the first one waiting; when its execution returns,
        its file is settled by the returned status, wherever the others have left it. */
    method WorkOnce(pass: Pass) returns (outcome: Outcome)
      requires queue.Valid() && BrandNew(queue.View(), pass.meanwhile)
      modifies this`shared, queue
      ensures queue.Valid() && PassOf(old(QC.Seen(queue)), QC.Seen(queue), workerId, pass, outcome)
      ensures outcome.Refused? <==> workerId == "" || |workerId| > 128
      ensures outcome.Idle? ==> forall id :: !Waiting(old(queue.View()), id)
      ensures match outcome
              case Settled(job, status) => (Done(Returned(status)), shared) == old(Execution(job, pass))
              case Lost(job) => shared == old(Execution(job, pass)).1
              case _ => shared == old(shared)
      ensures outcome.Settled? && LeaveAlone(pass.meanwhile, outcome.job) ==> Filed(queue.View(), outcome)
    {
      hide Tidy, ViewOf, Reserved, Run, AfterClaim, AfterCancel, AfterFinish, LeaveAlone, BrandNew, QC.Applied, QC.AllFresh,
           IsFirst, Waiting;
      ghost var start := QC.Seen(queue);
      var claimed := queue.Claim(workerId, pass.at);
      if claimed.Err? {
        return Refused;
      }
      ghost var first := if claimed.value.Some? then Some(claimed.value.value.jobId) else None;
      if first.Some? {
        FirstWaits(start.places, first.value);
      }
      ClaimConserves(start.places, first, workerId, pass.at);
      ClaimKeepsNew(start.places, queue.View(), pass.meanwhile);
      QC.BrandNewIsFresh(QC.Seen(queue), pass.meanwhile);
      if claimed.value.None? {
        QC.Drive(queue, pass.meanwhile);
        return Idle;
      }
      var job := claimed.value.value;
      ghost var taken := QC.Seen(queue);
      ClaimedIsHeld(start.places, job.jobId, workerId, pass.at);
      var planes := new Planes(pass.env, pass.crashAt, shared);
      var executor := new AnalysisExecutor(cfg, planes, job, workerId);
      var ending := executor.Execute();
      shared := Shared(planes.runs, planes.objects, planes.clock);
      QC.Drive(queue, pass.meanwhile);
      if ending.None? || ending.value.Raised? {
        return Lost(job);
      }
      var status := ending.value.status;
      ghost var held := QC.Seen(queue);
      if LeaveAlone(pass.meanwhile, job) {
        StillClaimed(taken, pass.meanwhile, job);
        SettlesClaimed(held.places, job, status);
      }
      if status in {Succeeded, Partial} {
        queue.Complete(job);
      } else if status.Cancelled? {
        var cancelled := queue.Cancel(job.runId);
        if cancelled.Err? {
          return Lost(job);
        }
      } else {
        queue.Fail(job);
      }
      outcome := Settled(job, status);
    }

    /** `main`: recovery once, by what the repository says, then passes until a stop signal, after the
        first one when `runOnce`, or until the process is lost. No job file is ever lost or changes
        identity, whatever the others do; and each job settled while the others left it alone stays
        settled as its execution returned. */
    method Work(passes: seq<Pass>, runOnce: bool, cutoff: Instant) returns (done: seq<Outcome>)
      requires queue.Valid() && BrandNew(queue.View(), AllMeanwhile(passes))
      modifies this`shared, queue
      ensures queue.Valid() && |done| <= |passes| && (runOnce ==> |done| <= 1)
      ensures QC.Conserves(old(queue.View()), queue.View())
      ensures forall i :: 0 <= i < |done| && done[i].Settled? && LeaveAlone(passes[i].meanwhile, done[i].job) ==>
                Filed(queue.View(), done[i])
    {
      hide Tidy, ViewOf, Reserved, Run, AfterRecovery, QC.Conserves, LeaveAlone, BrandNew, PassOf, AllMeanwhile;
      ghost var start := queue.View();
      var _ := queue.RecoverAbandoned(StatusNow(), cutoff);
      QC.ApplyConserves(QC.Queue(start, {}), QC.Recover(StatusNow(), cutoff));
      RecoveryKeepsNew(start, StatusNow(), cutoff, AllMeanwhile(passes));
      done := [];
      assert passes[0..] == passes;
      for n := 0 to |passes|
        invariant queue.Valid() && |done| == n && (runOnce ==> n == 0)
        invariant QC.Conserves(start, queue.View()) && BrandNew(queue.View(), AllMeanwhile(passes[n..]))
        invariant forall i :: 0 <= i < |done| && done[i].Settled? && LeaveAlone(passes[i].meanwhile, done[i].job) ==>
                    Filed(queue.View(), done[i])
      {
        if passes[n].stopped {
          return;
        }
        ghost var before := QC.Seen(queue);
        NewHere(queue.View(), passes, n);
        var outcome := WorkOnce(passes[n]);
        PassConserves(before, QC.Seen(queue), workerId, passes[n], outcome);
        ConservesOn(start, before.places, queue.View());
        FiledStays(passes, done, before.places, queue.View());
        NewAfter(before.places, queue.View(), passes, n);
        done := done + [outcome];
        if runOnce || outcome.Refused? || outcome.Lost? {
          return;
        }
      }
    }
  }

  /** A settled job is in the folder of its status. */
  ghost predicate Filed(q: Places, outcome: Outcome) {
    outcome.Settled? ==>
      outcome.job.jobId in q && q[outcome.job.jobId] == Placed(FinalState(outcome.status), Good(outcome.job))
  }

  lemma ClaimedIsHeld(q: Places, id: string, worker: string, at: Instant)
    requires IsFirst(q, id) && q[id].entry.job.jobId == id
    ensures var held := AfterClaim(q, Some(id), worker, at);
            var job := ClaimedBy(q[id].entry.job, worker, at);
            job.jobId == id && id in held && held[id] == Placed(ClaimedJob, Good(job))
  {
  }

  lemma {:induction false} StillClaimed(s: QC.Queue, ops: seq<QC.Operation>, job: ExecutionJob)
    requires LeaveAlone(ops, job)
    requires job.jobId in s.places && s.places[job.jobId] == Placed(ClaimedJob, Good(job))
    ensures var held := QC.Applied(s, ops).places;
            job.jobId in held && held[job.jobId] == Placed(ClaimedJob, Good(job))
    decreases |ops|
  {
    if ops != [] {
      assert LeaveAlone(ops[1..], job);
      StillClaimed(QC.Apply(s, ops[0]), ops[1..], job);
    }
  }

  lemma SettlesClaimed(q: Places, job: ExecutionJob, status: RunStatus)
    requires job.jobId in q && q[job.jobId] == Placed(ClaimedJob, Good(job))
    ensures Filed(Settle(q, job, status), Settled(job, status))
  {
  }

  // ---------------------------------------------------------------- conservation

  lemma ConservesOn(a: Places, b: Places, c: Places)
    requires QC.Conserves(a, b) && QC.Conserves(b, c)
    ensures QC.Conserves(a, c)
  {
    forall id | id in a ensures QC.Identity(c[id].entry) == QC.Identity(a[id].entry) {
      assert id in b;
    }
  }

  lemma FiledStays(passes: seq<Pass>, done: seq<Outcome>, q: Places, q': Places)
    requires QC.Conserves(q, q') && |done| <= |passes|
    requires forall i :: 0 <= i < |done| && done[i].Settled? && LeaveAlone(passes[i].meanwhile, done[i].job) ==>
               Filed(q, done[i])
    ensures forall i :: 0 <= i < |done| && done[i].Settled? && LeaveAlone(passes[i].meanwhile, done[i].job) ==>
              Filed(q', done[i])
  {
    hide LeaveAlone;
  }

  lemma {:induction false} AppliedConserves(s: QC.Queue, ops: seq<QC.Operation>)
    ensures QC.Conserves(s.places, QC.Applied(s, ops).places)
    ensures forall id :: id in QC.Applied(s, ops).places && id !in s.places ==>
              exists i :: 0 <= i < |ops| && ops[i].Enqueue? && ops[i].job.jobId == id
    decreases |ops|
  {
    hide QC.Conserves;
    if ops == [] {
      ConservesSelf(s.places);
    } else {
      var next := QC.Apply(s, ops[0]);
      QC.ApplyConserves(s, ops[0]);
      ApplyAdds(s, ops[0]);
      AppliedConserves(next, ops[1..]);
      ConservesOn(s.places, next.places, QC.Applied(s, ops).places);
      forall id | id in QC.Applied(s, ops).places && id !in s.places
        ensures exists i :: 0 <= i < |ops| && ops[i].Enqueue? && ops[i].job.jobId == id
      {
        if id in next.places {
          assert ops[0].Enqueue? && ops[0].job.jobId == id;
        } else {
          var i :| 0 <= i < |ops[1..]| && ops[1..][i].Enqueue? && ops[1..][i].job.jobId == id;
          assert ops[i + 1].Enqueue? && ops[i + 1].job.jobId == id;
        }
      }
    }
  }

  lemma ConservesSelf(q: Places)
    ensures QC.Conserves(q, q)
  {
  }

  lemma ApplyAdds(s: QC.Queue, op: QC.Operation)
    ensures forall id :: id in QC.Apply(s, op).places && id !in s.places ==> op.Enqueue? && op.job.jobId == id
  {
  }

  lemma ClaimConserves(q: Places, taken: Option<string>, worker: string, at: Instant)
    requires taken.Some? ==> Waiting(q, taken.value)
    ensures QC.Conserves(q, AfterClaim(q, taken, worker, at)) && AfterClaim(q, taken, worker, at).Keys == q.Keys
  {
  }

  lemma SettleConserves(q: Places, job: ExecutionJob, status: RunStatus)
    ensures QC.Conserves(q, Settle(q, job, status)) && Settle(q, job, status).Keys == q.Keys
  {
  }

  lemma HeldConserves(s: QC.Queue, taken: Option<string>, worker: string, pass: Pass)
    requires taken.Some? ==> Waiting(s.places, taken.value)
    ensures var held := Held(s, taken, worker, pass).places;
            && QC.Conserves(s.places, held)
            && forall id :: id in held && id !in s.places ==>
                 exists i :: 0 <= i < |pass.meanwhile| && pass.meanwhile[i].Enqueue? && pass.meanwhile[i].job.jobId == id
  {
    hide QC.Conserves, AfterClaim, QC.Applied;
    var claimed := s.(places := AfterClaim(s.places, taken, worker, pass.at));
    ClaimConserves(s.places, taken, worker, pass.at);
    AppliedConserves(claimed, pass.meanwhile);
    ConservesOn(s.places, claimed.places, Held(s, taken, worker, pass).places);
  }

  /** One pass loses nothing, and only the others' jobs are new. */
  lemma PassConserves(s: QC.Queue, s': QC.Queue, worker: string, pass: Pass, outcome: Outcome)
    requires PassOf(s, s', worker, pass, outcome)
    ensures QC.Conserves(s.places, s'.places)
    ensures forall id :: id in s'.places && id !in s.places ==>
              exists i :: 0 <= i < |pass.meanwhile| && pass.meanwhile[i].Enqueue? && pass.meanwhile[i].job.jobId == id
  {
    hide QC.Conserves, Held, Settle, Waiting;
    ConservesSelf(s.places);
    match outcome
    case Refused =>
    case Idle => HeldConserves(s, None, worker, pass);
    case Settled(job, status) =>
      FirstWaits(s.places, job.jobId);
      HeldConserves(s, Some(job.jobId), worker, pass);
      var held := Held(s, Some(job.jobId), worker, pass).places;
      SettleConserves(held, job, status);
      ConservesOn(s.places, held, s'.places);
    case Lost(job) =>
      FirstWaits(s.places, job.jobId);
      HeldConserves(s, Some(job.jobId), worker, pass);
  }

  lemma FirstWaits(q: Places, id: string)
    requires IsFirst(q, id)
    ensures Waiting(q, id)
  {
  }

  // ---------------------------------------------------------------- new job ids stay new

  lemma ClaimKeepsNew(q: Places, q': Places, ops: seq<QC.Operation>)
    requires q'.Keys == q.Keys && BrandNew(q, ops)
    ensures BrandNew(q', ops)
  {
  }

  lemma RecoveryKeepsNew(q: Places, status: StatusOf, cutoff: Instant, ops: seq<QC.Operation>)
    requires BrandNew(q, ops)
    ensures BrandNew(AfterRecovery(q, status, cutoff), ops)
  {
    hide BrandNew;
    ClaimKeepsNew(q, AfterRecovery(q, status, cutoff), ops);
  }

  lemma MeanwhileHead(passes: seq<Pass>, n: nat)
    requires n < |passes|
    ensures AllMeanwhile(passes[n..]) == passes[n].meanwhile + AllMeanwhile(passes[n + 1..])
  {
    assert passes[n..][0] == passes[n] && passes[n..][1..] == passes[n + 1..];
  }

  lemma NewHere(q: Places, passes: seq<Pass>, n: nat)
    requires n < |passes| && BrandNew(q, AllMeanwhile(passes[n..]))
    ensures BrandNew(q, passes[n].meanwhile)
  {
    hide AllMeanwhile;
    MeanwhileHead(passes, n);
    var all, here := AllMeanwhile(passes[n..]), passes[n].meanwhile;
    assert forall i :: 0 <= i < |here| ==> all[i] == here[i];
  }

  lemma NewAfter(q: Places, q': Places, passes: seq<Pass>, n: nat)
    requires n < |passes| && BrandNew(q, AllMeanwhile(passes[n..]))
    requires forall id :: id in q' && id !in q ==>
               exists i :: 0 <= i < |passes[n].meanwhile| && passes[n].meanwhile[i].Enqueue?
                           && passes[n].meanwhile[i].job.jobId == id
    ensures BrandNew(q', AllMeanwhile(passes[n + 1..]))
  {
    hide AllMeanwhile;
    MeanwhileHead(passes, n);
    var all, here, rest := AllMeanwhile(passes[n..]), passes[n].meanwhile, AllMeanwhile(passes[n + 1..]);
    assert forall i :: 0 <= i < |here| ==> all[i] == here[i];
    assert forall i :: 0 <= i < |rest| ==> all[|here| + i] == rest[i];
  }

  // ---------------------------------------------------------------- recovery after a loss

  /** When a worker is lost between its run's terminal save and settling, recovery
      files the claimed job exactly where the worker would have. */
  lemma RecoverySettlesAlike(q: Places, job: ExecutionJob, status: StatusOf, cutoff: Instant)
    requires job.jobId in q && q[job.jobId] == Placed(ClaimedJob, Good(job))
    requires status(job.runId).Some? && status(job.runId).value.IsTerminal()
    ensures AfterRecovery(q, status, cutoff)[job.jobId] == Settle(q, job, status(job.runId).value)[job.jobId]
  {
  }
}
