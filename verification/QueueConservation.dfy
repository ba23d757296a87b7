/** Conservation in the filesystem queue, over every sequence of its operations. */
module QueueConservation {
  import opened Outcomes
  import opened JsonValues
  import opened Contract
  import opened Jobs
  import opened FilesystemQueue

  datatype Queue = Queue(places: Places, runIndex: set<string>)

  datatype Operation =
    | Enqueue(job: ExecutionJob)
    | Claim(worker: string, at: Instant)
    | Finish(job: ExecutionJob, to: JobState)
    | Cancel(runId: string)
    | Recover(status: StatusOf, cutoff: Instant)

  /** The job a claim takes, if one waits. */
  ghost function First(q: Places): (id: Option<string>)
    ensures id.Some? ==> IsFirst(q, id.value)
    ensures id.None? ==> forall x :: !IsFirst(q, x)
  {
    if exists x :: IsFirst(q, x) then (var x :| IsFirst(q, x); Some(x)) else None
  }

  /** What the adapter's operations do to the view, method by method. */
  ghost function Apply(s: Queue, op: Operation): Queue {
    match op
    case Enqueue(job) =>
      if job.runId in s.runIndex || job.jobId in s.places then s
      else Queue(s.places[job.jobId := Placed(QueuedJob, Good(job))], s.runIndex + {job.runId})
    case Claim(worker, at) =>
      if worker == "" || |worker| > 128 then s else s.(places := AfterClaim(s.places, First(s.places), worker, at))
    case Finish(job, to) => if to.IsFinal() then s.(places := AfterFinish(s.places, job.jobId, to)) else s
    case Cancel(runId) => if IsUuid4(runId) then s.(places := AfterCancel(s.places, runId)) else s
    case Recover(status, cutoff) => s.(places := AfterRecovery(s.places, status, cutoff))
  }

  ghost function After(ops: seq<Operation>): Queue {
    if ops == [] then Queue(map[], {}) else Apply(After(ops[..|ops| - 1]), ops[|ops| - 1])
  }

  /** What is written in a record and never changes, claim stamps aside. */
  function Identity(entry: Entry): Entry {
    if entry.Good? then Good(entry.job.(claimedAt := None, workerId := None)) else Bad
  }

  /** Nothing is lost, final states absorb, and records keep their identity. */
  ghost predicate Conserves(q: Places, q': Places) {
    && q.Keys <= q'.Keys
    && (forall id :: id in q ==> Identity(q'[id].entry) == Identity(q[id].entry))
    && (forall id :: id in q && q[id].state.IsFinal() ==> q'[id] == q[id])
  }

  lemma ApplyReserved(s: Queue, op: Operation)
    requires Reserved(s.places, s.runIndex)
    ensures Reserved(Apply(s, op).places, Apply(s, op).runIndex)
  {
    hide AfterClaim, AfterRecovery, AfterCancel;
    match op
    case Enqueue(job) =>
    case Claim(worker, at) => ClaimKeepsReserved(s.places, First(s.places), worker, at, s.runIndex);
    case Recover(status, cutoff) => RecoveryKeepsReserved(s.places, status, cutoff, s.runIndex);
    case Finish(job, to) => KeepsReserved(s.places, AfterFinish(s.places, job.jobId, to), s.runIndex);
    case Cancel(runId) => CancelKeepsReserved(s.places, runId, s.runIndex);
  }

  lemma CancelKeepsReserved(q: Places, runId: string, runIndex: set<string>)
    requires Reserved(q, runIndex)
    ensures Reserved(AfterCancel(q, runId), runIndex)
  {
    hide Reserved;
    KeepsReserved(q, AfterCancel(q, runId), runIndex);
  }

  lemma ApplyConserves(s: Queue, op: Operation)
    ensures Conserves(s.places, Apply(s, op).places)
  {
  }

  /** One operation keeps the reservations and conserves every job. */
  lemma ApplyKeeps(s: Queue, op: Operation)
    requires Reserved(s.places, s.runIndex)
    ensures Reserved(Apply(s, op).places, Apply(s, op).runIndex) && Conserves(s.places, Apply(s, op).places)
  {
    hide Reserved, Conserves, Apply;
    ApplyReserved(s, op);
    ApplyConserves(s, op);
  }

  lemma {:induction false} AlwaysReserved(ops: seq<Operation>)
    ensures Reserved(After(ops).places, After(ops).runIndex)
  {
    hide Apply, Reserved;
    if ops == [] {
      EmptyReserved();
    } else {
      AlwaysReserved(ops[..|ops| - 1]);
      ApplyKeeps(After(ops[..|ops| - 1]), ops[|ops| - 1]);
    }
  }

  lemma EmptyReserved()
    ensures Reserved(map[], {})
  {
  }

  ghost predicate Accepts(s: Queue, op: Operation) {
    op.Enqueue? && op.job.runId !in s.runIndex && op.job.jobId !in s.places
  }

  /** Conservation: at any later time every accepted job is in exactly one state with the record it
      was accepted with, accepted jobs have pairwise distinct run ids, and a completed, failed or
      cancelled job stays as it is. */
  lemma {:induction false} Conservation(ops: seq<Operation>, n: nat)
    requires n <= |ops|
    ensures Conserves(After(ops[..n]).places, After(ops).places)
    ensures n < |ops| && Accepts(After(ops[..n]), ops[n]) ==>
              var job := ops[n].job;
              job.jobId in After(ops).places
              && Identity(After(ops).places[job.jobId].entry) == Identity(Good(job))
    ensures Reserved(After(ops).places, After(ops).runIndex)
    decreases |ops|
  {
    hide Reserved, AfterClaim, AfterRecovery, AfterCancel;
    AlwaysReserved(ops);
    if n == |ops| {
      assert ops[..n] == ops;
    } else {
      var init := ops[..|ops| - 1];
      assert init[..n] == ops[..n];
      AlwaysReserved(init);
      ApplyKeeps(After(init), ops[|ops| - 1]);
      Conservation(init, n);
      assert n < |init| ==> init[n] == ops[n];
      if n == |init| {
        assert init == ops[..n];
      }
    }
  }

  // ---------------------------------------------------------------- recovery of finished runs

  /** A job whose run is terminal at a recovery and that is not waiting then is never claimed or
      queued again, whatever operations follow; a claimed one is filed by its run's outcome. One
      that waits is not looked at: it stays queued. */
  lemma FinishedJobsStayFiled(ops: seq<Operation>, n: nat, m: nat, id: string)
    requires n < m <= |ops| && ops[n].Recover?
    requires var q := After(ops[..n]).places;
             && id in q && q[id].entry.Good?
             && ops[n].status(q[id].entry.job.runId).Some? && ops[n].status(q[id].entry.job.runId).value.IsTerminal()
    ensures id in After(ops[..m]).places
    ensures var q, p := After(ops[..n]).places, After(ops[..m]).places[id];
            && (!q[id].state.QueuedJob? ==> p.state.IsFinal())
            && (q[id].state.ClaimedJob? ==>
                  p == q[id].(state := FinalState(ops[n].status(q[id].entry.job.runId).value)))
            && (q[id].state.QueuedJob? && m == n + 1 ==> p == q[id])
  {
    hide Reserved, AfterClaim, AfterCancel, After;
    assert ops[..m][..n + 1] == ops[..n + 1];
    Conservation(ops[..m], n + 1);
    assert ops[..n + 1][..n] == ops[..n];
    AfterLast(ops[..n + 1]);
  }

  lemma AfterLast(ops: seq<Operation>)
    requires ops != []
    ensures After(ops) == Apply(After(ops[..|ops| - 1]), ops[|ops| - 1])
  {
  }

  // ---------------------------------------------------------------- the adapter follows

  lemma FirstIs(q: Places, id: string)
    requires IsFirst(q, id)
    ensures First(q) == Some(id)
  {
    var first := First(q).value;
    BeforeTotal(first, id);
  }

  ghost function Seen(queue: LocalFilesystemQueue): Queue
    requires queue.Valid()
    reads queue
  {
    Queue(queue.View(), queue.runIndex)
  }

  ghost predicate FreshFor(s: Queue, op: Operation) {
    op.Enqueue? ==> Fresh(s.places, op.job)
  }

  /** One operation of the adapter. */
  method Perform(queue: LocalFilesystemQueue, op: Operation)
    requires queue.Valid() && FreshFor(Seen(queue), op)
    modifies queue
    ensures queue.Valid() && Seen(queue) == Apply(old(Seen(queue)), op)
  {
    hide Tidy, ViewOf, Reserved, AfterClaim, AfterRecovery, AfterCancel, AfterFinish, Waiting;
    match op
    case Enqueue(job) =>
      var _ := queue.Enqueue(job);
    case Claim(worker, at) =>
      var r := queue.Claim(worker, at);
      if r.Ok? && r.value.Some? {
        FirstIs(old(queue.View()), r.value.value.jobId);
      }
    case Finish(job, to) =>
      if to.IsFinal() {
        queue.TerminalMove(job, to);
      }
    case Cancel(runId) =>
      var _ := queue.Cancel(runId);
    case Recover(status, cutoff) =>
      var _ := queue.RecoverAbandoned(status, cutoff);
  }

  ghost predicate AllFresh(s: Queue, ops: seq<Operation>)
    decreases |ops|
  {
    ops == [] || (FreshFor(s, ops[0]) && AllFresh(Apply(s, ops[0]), ops[1..]))
  }

  /** Ids of their own are fresh whenever they come. */
  lemma {:induction false} BrandNewIsFresh(s: Queue, ops: seq<Operation>)
    requires forall i :: 0 <= i < |ops| && ops[i].Enqueue? ==> ops[i].job.jobId !in s.places
    requires forall i, j :: 0 <= i < j < |ops| && ops[i].Enqueue? && ops[j].Enqueue? ==>
               ops[i].job.jobId != ops[j].job.jobId
    ensures AllFresh(s, ops)
    decreases |ops|
  {
    if ops != [] {
      var next, rest := Apply(s, ops[0]), ops[1..];
      forall i | 0 <= i < |rest| && rest[i].Enqueue? ensures rest[i].job.jobId !in next.places {
        assert rest[i] == ops[i + 1];
      }
      forall i, j | 0 <= i < j < |rest| && rest[i].Enqueue? && rest[j].Enqueue?
        ensures rest[i].job.jobId != rest[j].job.jobId
      {
        assert rest[i] == ops[i + 1] && rest[j] == ops[j + 1];
      }
      BrandNewIsFresh(next, rest);
    }
  }

  ghost function Applied(s: Queue, ops: seq<Operation>): Queue
    decreases |ops|
  {
    if ops == [] then s else Applied(Apply(s, ops[0]), ops[1..])
  }

  /** Any sequence of operations leaves the adapter exactly where the specification does. */
  method Drive(queue: LocalFilesystemQueue, ops: seq<Operation>)
    requires queue.Valid() && AllFresh(Seen(queue), ops)
    modifies queue
    ensures queue.Valid() && Seen(queue) == Applied(old(Seen(queue)), ops)
  {
    hide LocalFilesystemQueue.Valid, LocalFilesystemQueue.View, Apply, FreshFor;
    ghost var start := Seen(queue);
    for k := 0 to |ops|
      invariant queue.Valid() && AllFresh(Seen(queue), ops[k..])
      invariant Applied(start, ops) == Applied(Seen(queue), ops[k..])
    {
      assert ops[k..][0] == ops[k] && ops[k..][1..] == ops[k + 1..];
      Perform(queue, ops[k]);
    }
    assert ops[|ops|..] == [];
  }

  /** From the empty queue that is `After`. */
  lemma {:induction false} AppliedIsAfter(ops: seq<Operation>, n: nat)
    requires n <= |ops|
    ensures Applied(After(ops[..n]), ops[n..]) == After(ops)
    decreases |ops| - n
  {
    hide Apply, After;
    if n == |ops| {
      assert ops[..n] == ops && ops[n..] == [];
    } else {
      assert ops[n..][0] == ops[n] && ops[n..][1..] == ops[n + 1..];
      assert ops[..n + 1][..n] == ops[..n];
      AfterLast(ops[..n + 1]);
      AppliedIsAfter(ops, n + 1);
    }
  }
}
