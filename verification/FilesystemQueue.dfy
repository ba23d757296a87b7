/** `execution/queue/local_filesystem.py`: one folder per job state, one file per job. */
module FilesystemQueue {
  import opened Outcomes
  import opened JsonValues
  import opened Contract
  import opened Jobs

  datatype JobState = QueuedJob | ClaimedJob | CompletedJob | FailedJob | CancelledJob {
    predicate IsFinal() {
      CompletedJob? || FailedJob? || CancelledJob?
    }
  }

  /** A record file; `Bad` is one that `_read` refuses. */
  datatype Entry = Good(job: ExecutionJob) | Bad

  // ---------------------------------------------------------------- file names in order

  /** Python's order on file names. */
  predicate Before(a: string, b: string) {
    if b == "" then false
    else if a == "" then true
    else if a[0] != b[0] then a[0] < b[0]
    else Before(a[1..], b[1..])
  }

  lemma {:induction false} BeforeTotal(a: string, b: string)
    ensures Before(a, b) || Before(b, a) || a == b
    ensures !(Before(a, b) && Before(b, a)) && !Before(a, a)
  {
    if a != "" {
      BeforeTotal(a[1..], a[1..]);
    }
    if a != "" && b != "" {
      BeforeTotal(a[1..], b[1..]);
      assert a == [a[0]] + a[1..] && b == [b[0]] + b[1..];
    }
  }

  lemma {:induction false} BeforeTransitive(a: string, b: string, c: string)
    requires Before(a, b) && Before(b, c)
    ensures Before(a, c)
  {
    if a != "" && a[0] == b[0] && b[0] == c[0] {
      BeforeTransitive(a[1..], b[1..], c[1..]);
    }
  }

  ghost predicate IsLeast(ids: set<string>, id: string) {
    id in ids && forall x :: x in ids && x != id ==> Before(id, x)
  }

  /** The first file of a sorted listing. */
  method Least(ids: set<string>) returns (least: string)
    requires ids != {}
    ensures IsLeast(ids, least)
  {
    least :| least in ids;
    var seen := {least};
    var rest := ids - seen;
    while rest != {}
      invariant seen <= ids && rest == ids - seen && IsLeast(seen, least)
      decreases rest
    {
      var id :| id in rest;
      BeforeTotal(id, least);
      if Before(id, least) {
        forall x | x in seen ensures Before(id, x) {
          if x != least {
            BeforeTransitive(id, least, x);
          }
        }
        least := id;
      }
      seen, rest := seen + {id}, rest - {id};
    }
    forall x | x in ids ensures x in seen {
      assert x !in rest;
    }
  }

  // ---------------------------------------------------------------- the folders as one map

  datatype Placed = Placed(state: JobState, entry: Entry)

  /** Each job file and the one state it is in. */
  type Places = map<string, Placed>

  /** The five folders, file name to record. */
  datatype Folders = Folders(
    queued: map<string, Entry>, claimed: map<string, Entry>, completed: map<string, Entry>,
    failed: map<string, Entry>, cancelled: map<string, Entry>)
  {
    function At(st: JobState): map<string, Entry> {
      match st
      case QueuedJob => queued
      case ClaimedJob => claimed
      case CompletedJob => completed
      case FailedJob => failed
      case CancelledJob => cancelled
    }

    function With(st: JobState, files: map<string, Entry>): Folders {
      match st
      case QueuedJob => this.(queued := files)
      case ClaimedJob => this.(claimed := files)
      case CompletedJob => this.(completed := files)
      case FailedJob => this.(failed := files)
      case CancelledJob => this.(cancelled := files)
    }
  }

  /** No file name occurs in two folders, and a readable record sits under its own job id. */
  ghost predicate Tidy(f: Folders) {
    && (forall st: JobState, other: JobState, id :: st != other && id in f.At(st) ==> id !in f.At(other))
    && (forall st: JobState, id :: id in f.At(st) && f.At(st)[id].Good? ==> f.At(st)[id].job.jobId == id)
  }

  ghost function ViewOf(f: Folders): Places {
    map id | id in f.queued.Keys + f.claimed.Keys + f.completed.Keys + f.failed.Keys + f.cancelled.Keys ::
      if id in f.queued then Placed(QueuedJob, f.queued[id])
      else if id in f.claimed then Placed(ClaimedJob, f.claimed[id])
      else if id in f.completed then Placed(CompletedJob, f.completed[id])
      else if id in f.failed then Placed(FailedJob, f.failed[id])
      else Placed(CancelledJob, f.cancelled[id])
  }

  lemma ViewFile(f: Folders, id: string)
    requires Tidy(f)
    ensures forall st: JobState :: id in f.At(st) <==> id in ViewOf(f) && ViewOf(f)[id].state == st
    ensures id in ViewOf(f) ==> f.At(ViewOf(f)[id].state)[id] == ViewOf(f)[id].entry
    ensures id in ViewOf(f) && ViewOf(f)[id].entry.Good? ==> ViewOf(f)[id].entry.job.jobId == id
  {
    forall st: JobState | id in f.At(st) ensures id in ViewOf(f) && ViewOf(f)[id] == Placed(st, f.At(st)[id]) {
      assert forall other: JobState :: other != st ==> id !in f.At(other);
      assert st.QueuedJob? || id !in f.At(QueuedJob);
      assert st.ClaimedJob? || id !in f.At(ClaimedJob);
      assert st.CompletedJob? || id !in f.At(CompletedJob);
      assert st.FailedJob? || id !in f.At(FailedJob);
    }
    if id in ViewOf(f) {
      assert id in f.At(ViewOf(f)[id].state);
    }
  }

  /** The folders determine the view. */
  lemma ViewUnique(f: Folders, q: Places)
    requires Tidy(f)
    requires forall id, st: JobState :: id in f.At(st) ==> id in q && q[id] == Placed(st, f.At(st)[id])
    requires forall id :: id in q ==> id in f.At(q[id].state)
    ensures ViewOf(f) == q
  {
    hide Tidy, ViewOf, Folders.At;
    forall id ensures id in q <==> id in ViewOf(f) {
      ViewFile(f, id);
    }
    forall id | id in q ensures ViewOf(f)[id] == q[id] {
      ViewFile(f, id);
    }
  }

  function Put(f: Folders, st: JobState, id: string, entry: Entry): Folders {
    f.With(st, f.At(st)[id := entry])
  }

  lemma WithAt(f: Folders, st: JobState, files: map<string, Entry>)
    ensures forall other: JobState :: f.With(st, files).At(other) == if other == st then files else f.At(other)
  {
  }

  lemma ViewFiles(f: Folders)
    requires Tidy(f)
    ensures forall id, st: JobState :: id in f.At(st) ==> id in ViewOf(f) && ViewOf(f)[id] == Placed(st, f.At(st)[id])
    ensures forall id :: id in ViewOf(f) ==> id in f.At(ViewOf(f)[id].state)
  {
    hide Tidy, ViewOf, Folders.At;
    forall id, st: JobState | id in f.At(st) ensures id in ViewOf(f) && ViewOf(f)[id] == Placed(st, f.At(st)[id]) {
      ViewFile(f, id);
    }
    forall id | id in ViewOf(f) ensures id in f.At(ViewOf(f)[id].state) {
      ViewFile(f, id);
    }
  }

  lemma PutTidy(f: Folders, st: JobState, id: string, entry: Entry)
    requires Tidy(f) && (entry.Good? ==> entry.job.jobId == id)
    requires forall other: JobState :: other != st ==> id !in f.At(other)
    ensures Tidy(Put(f, st, id, entry))
  {
    hide Folders.At, Folders.With;
    WithAt(f, st, f.At(st)[id := entry]);
  }

  lemma PutView(f: Folders, st: JobState, id: string, entry: Entry)
    requires Tidy(f) && (entry.Good? ==> entry.job.jobId == id)
    requires forall other: JobState :: other != st ==> id !in f.At(other)
    ensures Tidy(Put(f, st, id, entry)) && ViewOf(Put(f, st, id, entry)) == ViewOf(f)[id := Placed(st, entry)]
  {
    hide ViewOf, Folders.At, Folders.With, Tidy;
    PutTidy(f, st, id, entry);
    WithAt(f, st, f.At(st)[id := entry]);
    ViewFiles(f);
    ViewUnique(Put(f, st, id, entry), ViewOf(f)[id := Placed(st, entry)]);
  }

  /** `_move_raw`: rename, or only drop the source when the destination is there already. */
  function Moved(f: Folders, from: JobState, to: JobState, id: string): Folders
    requires id in f.At(from)
  {
    var dropped := f.With(from, f.At(from) - {id});
    if id in f.At(to) then dropped else Put(dropped, to, id, f.At(from)[id])
  }

  lemma MovedView(f: Folders, from: JobState, to: JobState, id: string)
    requires Tidy(f) && from != to && id in f.At(from)
    ensures Tidy(Moved(f, from, to, id))
    ensures ViewOf(Moved(f, from, to, id)) == ViewOf(f)[id := Placed(to, f.At(from)[id])]
  {
    hide ViewOf, Folders.At, Folders.With;
    assert id !in f.At(to);
    WithAt(f, from, f.At(from) - {id});
    DroppedView(f, from, id);
    PutView(f.With(from, f.At(from) - {id}), to, id, f.At(from)[id]);
    ViewFile(f, id);
  }

  lemma DroppedTidy(f: Folders, from: JobState, id: string)
    requires Tidy(f) && id in f.At(from)
    ensures var dropped := f.With(from, f.At(from) - {id});
            Tidy(dropped) && forall st: JobState :: id !in dropped.At(st)
  {
    hide Folders.At, Folders.With;
    WithAt(f, from, f.At(from) - {id});
  }

  lemma DroppedView(f: Folders, from: JobState, id: string)
    requires Tidy(f) && id in f.At(from)
    ensures var dropped := f.With(from, f.At(from) - {id});
            Tidy(dropped) && ViewOf(dropped) == ViewOf(f) - {id} && forall st: JobState :: id !in dropped.At(st)
  {
    hide ViewOf, Folders.At, Folders.With, Tidy;
    DroppedTidy(f, from, id);
    WithAt(f, from, f.At(from) - {id});
    ViewFiles(f);
    ViewUnique(f.With(from, f.At(from) - {id}), ViewOf(f) - {id});
  }

  // ---------------------------------------------------------------- what each operation does

  predicate Waiting(q: Places, id: string) {
    id in q && q[id].state.QueuedJob? && q[id].entry.Good?
  }

  ghost predicate IsFirst(q: Places, id: string) {
    Waiting(q, id) && forall x :: x != id && Waiting(q, x) ==> Before(id, x)
  }

  function ClaimedBy(job: ExecutionJob, worker: string, at: Instant): ExecutionJob {
    job.(claimedAt := Some(at), workerId := Some(worker))
  }

  /** A claim sets aside the unreadable files it meets before the job it takes. */
  function AfterClaim(q: Places, taken: Option<string>, worker: string, at: Instant): Places
    requires taken.Some? ==> Waiting(q, taken.value)
  {
    map id | id in q ::
      if taken.Some? && id == taken.value then Placed(ClaimedJob, Good(ClaimedBy(q[id].entry.job, worker, at)))
      else if q[id].state.QueuedJob? && q[id].entry.Bad? && (taken.Some? ==> Before(id, taken.value))
      then q[id].(state := FailedJob)
      else q[id]
  }

  function AfterFinish(q: Places, id: string, to: JobState): Places {
    if id in q && q[id].state.ClaimedJob? then q[id := q[id].(state := to)] else q
  }

  predicate Cancellable(q: Places, id: string, runId: string) {
    id in q && q[id].state in {QueuedJob, ClaimedJob} && q[id].entry.Good? && q[id].entry.job.runId == runId
  }

  function AfterCancel(q: Places, runId: string): Places {
    map id | id in q :: if Cancellable(q, id, runId) then q[id].(state := CancelledJob) else q[id]
  }

  type StatusOf = string -> Option<RunStatus>

  predicate Abandoned(p: Placed, status: StatusOf, cutoff: Instant) {
    && p.state.ClaimedJob? && p.entry.Good?
    && status(p.entry.job.runId).Some? && !status(p.entry.job.runId).value.IsTerminal()
    && p.entry.job.claimedAt.Some? && p.entry.job.claimedAt.value < cutoff
  }

  /** Where recovery puts one job file. */
  function Recovered(p: Placed, status: StatusOf, cutoff: Instant): Placed {
    if !p.state.ClaimedJob? then p
    else if p.entry.Bad? || status(p.entry.job.runId).None? then p.(state := FailedJob)
    else
      match status(p.entry.job.runId).value
      case Succeeded => p.(state := CompletedJob)
      case Partial => p.(state := CompletedJob)
      case Failed => p.(state := FailedJob)
      case Cancelled => p.(state := CancelledJob)
      case _ =>
        if Abandoned(p, status, cutoff)
        then Placed(QueuedJob, Good(p.entry.job.(claimedAt := None, workerId := None)))
        else p
  }

  function AfterRecovery(q: Places, status: StatusOf, cutoff: Instant): Places {
    map id | id in q :: Recovered(q[id], status, cutoff)
  }

  // ---------------------------------------------------------------- the same, folder by folder

  /** The file is in this folder, with this record, and in no other. */
  ghost predicate OnlyIn(f: Folders, st: JobState, id: string, entry: Entry) {
    id in f.At(st) && f.At(st)[id] == entry && forall other: JobState :: other != st ==> id !in f.At(other)
  }

  /** The file is where it was, with the record it had, or as absent as it was. */
  ghost predicate Untouched(f: Folders, g: Folders, id: string) {
    forall st: JobState :: (id in g.At(st) <==> id in f.At(st)) && (id in f.At(st) ==> g.At(st)[id] == f.At(st)[id])
  }

  /** The record waited with whatever claim stamps it had, and is now stamped with this claim. */
  predicate Stamped(before: ExecutionJob, after: ExecutionJob, worker: string, at: Instant) {
    && after.claimedAt == Some(at) && after.workerId == Some(worker)
    && after.(claimedAt := None, workerId := None) == before.(claimedAt := None, workerId := None)
  }

  /** The first readable queued record in name order is taken, stamped, to `claimed`. The unreadable
      ones before it, or all of them if none is taken, go to `failed`. Nothing else moves. */
  ghost predicate ClaimedFile(f: Folders, g: Folders, x: string, taken: Option<ExecutionJob>, worker: string, at: Instant) {
    if x !in f.queued then Untouched(f, g, x)
    else
      match (taken, f.queued[x])
      case (None, entry) => entry.Bad? && OnlyIn(g, FailedJob, x, Bad)
      case (Some(job), Good(before)) =>
        if x == job.jobId then Stamped(before, job, worker, at) && OnlyIn(g, ClaimedJob, x, Good(job))
        else Before(job.jobId, x) && Untouched(f, g, x)
      case (Some(job), Bad) =>
        if Before(x, job.jobId) then OnlyIn(g, FailedJob, x, Bad) else x != job.jobId && Untouched(f, g, x)
  }

  ghost predicate ClaimedFolders(f: Folders, g: Folders, taken: Option<ExecutionJob>, worker: string, at: Instant) {
    && (taken.Some? ==> taken.value.jobId in f.queued)
    && forall x :: ClaimedFile(f, g, x, taken, worker, at)
  }

  /** A finished job goes from `claimed` to its final folder as it is; one not claimed stays. */
  ghost predicate FinishedFile(f: Folders, g: Folders, x: string, id: string, to: JobState) {
    if x == id && x in f.claimed then OnlyIn(g, to, x, f.claimed[x]) else Untouched(f, g, x)
  }

  ghost predicate FinishedFolders(f: Folders, g: Folders, id: string, to: JobState) {
    forall x :: FinishedFile(f, g, x, id, to)
  }

  predicate OfRun(entry: Entry, runId: string) {
    entry.Good? && entry.job.runId == runId
  }

  /** The waiting or claimed job of the run goes to `cancelled` as it is; no other file moves. */
  ghost predicate CancelledFile(f: Folders, g: Folders, x: string, runId: string) {
    if x in f.queued && OfRun(f.queued[x], runId) then OnlyIn(g, CancelledJob, x, f.queued[x])
    else if x in f.claimed && OfRun(f.claimed[x], runId) then OnlyIn(g, CancelledJob, x, f.claimed[x])
    else Untouched(f, g, x)
  }

  predicate WaitsOrClaimed(f: Folders, x: string, runId: string) {
    (x in f.queued && OfRun(f.queued[x], runId)) || (x in f.claimed && OfRun(f.claimed[x], runId))
  }

  ghost predicate CancelledFolders(f: Folders, g: Folders, runId: string) {
    forall x :: CancelledFile(f, g, x, runId)
  }

  /** The claims recovery gives back: readable, of a run still queued or running, and stamped before
      the cutoff. */
  ghost predicate StaleClaim(f: Folders, x: string, status: StatusOf, cutoff: Instant) {
    && x in f.claimed && f.claimed[x].Good?
    && var found := status(f.claimed[x].job.runId);
    && found.Some? && (found.value.Queued? || found.value.Running?)
    && f.claimed[x].job.claimedAt.Some? && f.claimed[x].job.claimedAt.value < cutoff
  }

  /** A stale claim goes back to `queued` with both claim stamps cleared; a claim of an unfinished run
      that is stamped later, or not at all, stays; an unreadable record, or one of an unknown run,
      goes to `failed`; a claim of a finished run goes where its status says. No other file moves. */
  ghost predicate RecoveredFile(f: Folders, g: Folders, x: string, status: StatusOf, cutoff: Instant) {
    if x !in f.claimed then Untouched(f, g, x)
    else
      match f.claimed[x]
      case Bad => OnlyIn(g, FailedJob, x, Bad)
      case Good(job) =>
        if StaleClaim(f, x, status, cutoff) then OnlyIn(g, QueuedJob, x, Good(job.(claimedAt := None, workerId := None)))
        else
          match status(job.runId)
          case None => OnlyIn(g, FailedJob, x, Good(job))
          case Some(Succeeded) => OnlyIn(g, CompletedJob, x, Good(job))
          case Some(Partial) => OnlyIn(g, CompletedJob, x, Good(job))
          case Some(Failed) => OnlyIn(g, FailedJob, x, Good(job))
          case Some(Cancelled) => OnlyIn(g, CancelledJob, x, Good(job))
          case Some(Queued) => Untouched(f, g, x)
          case Some(Running) => Untouched(f, g, x)
  }

  ghost predicate RecoveredFolders(f: Folders, g: Folders, status: StatusOf, cutoff: Instant) {
    forall x :: RecoveredFile(f, g, x, status, cutoff)
  }

  /** What the view says of a file, its folders say. */
  lemma PlacedIs(f: Folders, id: string)
    requires Tidy(f)
    ensures id in ViewOf(f) ==> OnlyIn(f, ViewOf(f)[id].state, id, ViewOf(f)[id].entry)
    ensures id !in ViewOf(f) ==> forall st: JobState :: id !in f.At(st)
    ensures id in f.queued <==> id in ViewOf(f) && ViewOf(f)[id].state.QueuedJob?
    ensures id in f.claimed <==> id in ViewOf(f) && ViewOf(f)[id].state.ClaimedJob?
    ensures id in f.queued ==> f.queued[id] == ViewOf(f)[id].entry
    ensures id in f.claimed ==> f.claimed[id] == ViewOf(f)[id].entry
  {
    hide ViewOf, Tidy;
    ViewFile(f, id);
    assert f.At(QueuedJob) == f.queued && f.At(ClaimedJob) == f.claimed;
  }

  lemma SameView(f: Folders, g: Folders, id: string)
    requires Tidy(f) && Tidy(g)
    requires id in ViewOf(g) <==> id in ViewOf(f)
    requires id in ViewOf(f) ==> ViewOf(g)[id] == ViewOf(f)[id]
    ensures Untouched(f, g, id)
  {
    hide ViewOf, Tidy, Folders.At;
    PlacedIs(f, id);
    PlacedIs(g, id);
  }

  lemma RecoveryOnFolders(f: Folders, g: Folders, status: StatusOf, cutoff: Instant)
    requires Tidy(f) && Tidy(g) && ViewOf(g) == AfterRecovery(ViewOf(f), status, cutoff)
    ensures RecoveredFolders(f, g, status, cutoff)
  {
    hide ViewOf, Tidy, OnlyIn, Untouched, Folders.At;
    forall x ensures RecoveredFile(f, g, x, status, cutoff) {
      PlacedIs(f, x);
      PlacedIs(g, x);
      if x in ViewOf(f) ==> ViewOf(g)[x] == ViewOf(f)[x] {
        SameView(f, g, x);
      }
    }
  }

  lemma StaleClaimsAre(f: Folders, status: StatusOf, cutoff: Instant)
    requires Tidy(f)
    ensures AbandonedIds(ViewOf(f), status, cutoff) == set x | x in f.claimed && StaleClaim(f, x, status, cutoff)
  {
    hide ViewOf, Tidy;
    forall x ensures x in AbandonedIds(ViewOf(f), status, cutoff) <==> StaleClaim(f, x, status, cutoff) {
      PlacedIs(f, x);
      if x in f.claimed && f.claimed[x].Good? && status(f.claimed[x].job.runId).Some? {
        var found := status(f.claimed[x].job.runId).value;
        assert !found.IsTerminal() <==> found.Queued? || found.Running?;
      }
    }
  }

  lemma ClaimOnFolders(f: Folders, g: Folders, taken: Option<ExecutionJob>, worker: string, at: Instant)
    requires Tidy(f) && Tidy(g)
    requires taken.None? ==> ViewOf(g) == AfterClaim(ViewOf(f), None, worker, at) && forall id :: !Waiting(ViewOf(f), id)
    requires taken.Some? ==>
               && IsFirst(ViewOf(f), taken.value.jobId)
               && taken.value == ClaimedBy(ViewOf(f)[taken.value.jobId].entry.job, worker, at)
               && ViewOf(g) == AfterClaim(ViewOf(f), Some(taken.value.jobId), worker, at)
    ensures ClaimedFolders(f, g, taken, worker, at)
  {
    hide ViewOf, Tidy, OnlyIn, Untouched, Folders.At;
    if taken.Some? {
      PlacedIs(f, taken.value.jobId);
    }
    forall x ensures ClaimedFile(f, g, x, taken, worker, at) {
      PlacedIs(f, x);
      PlacedIs(g, x);
      if x in f.queued && f.queued[x].Good? {
        assert Waiting(ViewOf(f), x);
      }
      if x in ViewOf(f) ==> ViewOf(g)[x] == ViewOf(f)[x] {
        SameView(f, g, x);
      }
    }
  }

  lemma FinishOnFolders(f: Folders, g: Folders, id: string, to: JobState)
    requires Tidy(f) && Tidy(g) && ViewOf(g) == AfterFinish(ViewOf(f), id, to)
    ensures FinishedFolders(f, g, id, to)
  {
    hide ViewOf, Tidy, OnlyIn, Untouched, Folders.At;
    forall x ensures FinishedFile(f, g, x, id, to) {
      PlacedIs(f, x);
      PlacedIs(g, x);
      if x in ViewOf(f) ==> ViewOf(g)[x] == ViewOf(f)[x] {
        SameView(f, g, x);
      }
    }
  }

  lemma CancelOnFolders(f: Folders, g: Folders, runId: string)
    requires Tidy(f) && Tidy(g) && ViewOf(g) == AfterCancel(ViewOf(f), runId)
    ensures CancelledFolders(f, g, runId)
  {
    hide ViewOf, Tidy, OnlyIn, Untouched, Folders.At;
    forall x ensures CancelledFile(f, g, x, runId) {
      PlacedIs(f, x);
      PlacedIs(g, x);
      if x in ViewOf(f) ==> ViewOf(g)[x] == ViewOf(f)[x] {
        SameView(f, g, x);
      }
    }
  }

  lemma CancellableAre(f: Folders, runId: string)
    requires Tidy(f)
    ensures (exists x :: Cancellable(ViewOf(f), x, runId)) <==> exists x :: WaitsOrClaimed(f, x, runId)
  {
    hide ViewOf, Tidy;
    forall x ensures Cancellable(ViewOf(f), x, runId) <==> WaitsOrClaimed(f, x, runId) {
      PlacedIs(f, x);
    }
  }

  // ---------------------------------------------------------------- the invariant

  /** Accepted jobs have pairwise distinct run ids, all of them reserved. */
  ghost predicate Reserved(q: Places, runIndex: set<string>) {
    && (forall a, b :: a in q && b in q && a != b && q[a].entry.Good? && q[b].entry.Good? ==>
          q[a].entry.job.runId != q[b].entry.job.runId)
    && (forall a :: a in q && q[a].entry.Good? ==> q[a].entry.job.runId in runIndex && q[a].entry.job.jobId == a)
  }

  /** The id is no claimed or finished job's. */
  ghost predicate Fresh(q: Places, job: ExecutionJob) {
    job.jobId in q ==> q[job.jobId].state.QueuedJob?
  }

  class LocalFilesystemQueue {
    var folders: Folders
    var runIndex: set<string>

    constructor ()
      ensures Valid() && View() == map[] && runIndex == {}
    {
      folders := Folders(map[], map[], map[], map[], map[]);
      runIndex := {};
    }

    ghost predicate Valid()
      reads this
    {
      Tidy(folders) && Reserved(ViewOf(folders), runIndex)
    }

    ghost function View(): Places
      reads this
    {
      ViewOf(folders)
    }

    /** A job id drawn afresh collides at worst with a job still queued; then the folders stay in
        order. An id of a claimed or finished job would get a second file in `queued`. */
    method Enqueue(job: ExecutionJob) returns (r: Result<()>)
      requires Valid()
      modifies this
      ensures r.Ok? <==> job.runId !in old(runIndex) && job.jobId !in old(folders).queued
      ensures r.Ok? ==> folders == Put(old(folders), QueuedJob, job.jobId, Good(job))
                        && runIndex == old(runIndex) + {job.runId}
      ensures r.Err? ==> r.fault == DuplicateJob && folders == old(folders) && runIndex == old(runIndex)
      ensures Fresh(old(View()), job) ==> Valid()
      ensures Fresh(old(View()), job) && r.Ok? ==> View() == old(View())[job.jobId := Placed(QueuedJob, Good(job))]
      ensures Fresh(old(View()), job) ==> (r.Ok? <==> job.runId !in old(runIndex) && job.jobId !in old(View()))
    {
      ViewFile(folders, job.jobId);
      if job.runId in runIndex {
        return Err(DuplicateJob);
      }
      runIndex := runIndex + {job.runId};
      if job.jobId in folders.At(QueuedJob) {
        runIndex := runIndex - {job.runId};
        return Err(DuplicateJob);
      }
      if job.jobId !in View() {
        PutView(folders, QueuedJob, job.jobId, Good(job));
      }
      folders := Put(folders, QueuedJob, job.jobId, Good(job));
      r := Ok(());
    }

    method MoveRaw(from: JobState, to: JobState, id: string)
      requires Tidy(folders) && from != to && id in folders.At(from)
      modifies this`folders
      ensures Tidy(folders) && ViewOf(folders) == old(ViewOf(folders))[id := Placed(to, old(folders).At(from)[id])]
    {
      hide Tidy, ViewOf;
      MovedView(folders, from, to, id);
      folders := Moved(folders, from, to, id);
    }

    /** Write a new record over the file. */
    method WriteReplace(st: JobState, id: string, job: ExecutionJob)
      requires Tidy(folders) && id in folders.At(st) && job.jobId == id
      modifies this`folders
      ensures Tidy(folders) && ViewOf(folders) == old(ViewOf(folders))[id := Placed(st, Good(job))]
    {
      PutView(folders, st, id, Good(job));
      folders := Put(folders, st, id, Good(job));
    }

    method Claim(worker: string, at: Instant) returns (r: Result<Option<ExecutionJob>>)
      requires Valid()
      modifies this`folders
      ensures Valid()
      ensures r.Err? <==> worker == "" || |worker| > 128
      ensures r.Err? ==> folders == old(folders)
      ensures r.Ok? && r.value.None? ==> View() == AfterClaim(old(View()), None, worker, at)
                                         && forall id :: !Waiting(old(View()), id)
      ensures r.Ok? && r.value.Some? ==>
                var job := r.value.value;
                && IsFirst(old(View()), job.jobId)
                && job == ClaimedBy(old(View())[job.jobId].entry.job, worker, at)
                && View() == AfterClaim(old(View()), Some(job.jobId), worker, at)
      ensures r.Ok? ==> ClaimedFolders(old(folders), folders, r.value, worker, at)
    {
      hide Tidy, ViewOf, AfterClaim, SetAside, Reserved, Folders.At;
      if worker == "" || |worker| > 128 {
        return Err(ContractViolation);
      }
      ghost var start := View();
      var rest := folders.At(QueuedJob).Keys;
      QueuedFiles(folders);
      while rest != {}
        invariant Tidy(folders) && ViewOf(folders) == SetAside(start, rest)
        invariant Passed(start, rest)
        decreases rest
      {
        var id := Least(rest);
        StillQueued(folders, start, rest, id);
        var entry := folders.At(QueuedJob)[id];
        match entry
        case Bad =>
          SetAsideMore(start, rest, id);
          MoveRaw(QueuedJob, FailedJob, id);
          rest := rest - {id};
        case Good(job) =>
          TakesFirst(start, rest, id, worker, at);
          ClaimKeepsReserved(start, Some(id), worker, at, runIndex);
          MoveRaw(QueuedJob, ClaimedJob, id);
          ViewFile(folders, id);
          var claimed := ClaimedBy(job, worker, at);
          WriteReplace(ClaimedJob, id, claimed);
          assert View() == AfterClaim(start, Some(id), worker, at);
          ClaimOnFolders(old(folders), folders, Some(claimed), worker, at);
          return Ok(Some(claimed));
      }
      NothingWaits(start, worker, at);
      ClaimKeepsReserved(start, None, worker, at, runIndex);
      ClaimOnFolders(old(folders), folders, None, worker, at);
      r := Ok(None);
    }

    /** `_terminal_move`. */
    method TerminalMove(job: ExecutionJob, to: JobState)
      requires Valid() && to.IsFinal()
      modifies this`folders
      ensures Valid() && View() == AfterFinish(old(View()), job.jobId, to)
      ensures FinishedFolders(old(folders), folders, job.jobId, to)
    {
      hide Tidy, ViewOf, Reserved;
      ghost var start := View();
      ViewFile(folders, job.jobId);
      KeepsReserved(start, AfterFinish(start, job.jobId, to), runIndex);
      if job.jobId in folders.At(to) {
        FinishOnFolders(old(folders), folders, job.jobId, to);
        return;
      }
      if job.jobId in folders.At(ClaimedJob) {
        MoveRaw(ClaimedJob, to, job.jobId);
      }
      FinishOnFolders(old(folders), folders, job.jobId, to);
    }

    method Complete(job: ExecutionJob)
      requires Valid()
      modifies this`folders
      ensures Valid() && View() == AfterFinish(old(View()), job.jobId, CompletedJob)
      ensures FinishedFolders(old(folders), folders, job.jobId, CompletedJob)
    {
      TerminalMove(job, CompletedJob);
    }

    method Fail(job: ExecutionJob)
      requires Valid()
      modifies this`folders
      ensures Valid() && View() == AfterFinish(old(View()), job.jobId, FailedJob)
      ensures FinishedFolders(old(folders), folders, job.jobId, FailedJob)
    {
      TerminalMove(job, FailedJob);
    }

    method Cancel(runId: string) returns (r: Result<bool>)
      requires Valid()
      modifies this`folders
      ensures Valid()
      ensures r.Err? <==> !IsUuid4(runId)
      ensures r.Err? ==> folders == old(folders)
      ensures r.Ok? ==> View() == AfterCancel(old(View()), runId)
      ensures r.Ok? ==> (r.value <==> exists id :: Cancellable(old(View()), id, runId))
      ensures r.Ok? ==> CancelledFolders(old(folders), folders, runId)
      ensures r.Ok? ==> (r.value <==> exists id :: WaitsOrClaimed(old(folders), id, runId))
    {
      hide Tidy, ViewOf, Reserved;
      if !IsUuid4(runId) {
        return Err(ContractViolation);
      }
      ghost var start := View();
      KeepsReserved(start, AfterCancel(start, runId), runIndex);
      var states := [QueuedJob, ClaimedJob];
      for n := 0 to 2
        invariant folders == old(folders)
        invariant forall k, id :: 0 <= k < n && id in folders.At(states[k]) ==> !Cancellable(start, id, runId)
      {
        var rest := folders.At(states[n]).Keys;
        while rest != {}
          invariant folders == old(folders) && rest <= folders.At(states[n]).Keys
          invariant forall id :: id in folders.At(states[n]) && id !in rest ==> !Cancellable(start, id, runId)
          decreases rest
        {
          var id :| id in rest;
          ViewFile(folders, id);
          var entry := folders.At(states[n])[id];
          if entry.Good? && entry.job.runId == runId {
            CancelsOne(start, id, runId, runIndex);
            MoveRaw(states[n], CancelledJob, id);
            CancelOnFolders(old(folders), folders, runId);
            CancellableAre(old(folders), runId);
            return Ok(true);
          }
          rest := rest - {id};
        }
      }
      assert states[0] == QueuedJob && states[1] == ClaimedJob;
      forall id ensures !Cancellable(start, id, runId) {
        ViewFile(folders, id);
      }
      assert AfterCancel(start, runId) == start;
      CancelOnFolders(old(folders), folders, runId);
      CancellableAre(old(folders), runId);
      r := Ok(false);
    }

    /** The body of the recovery scan. */
    method RecoverOne(id: string, status: StatusOf, cutoff: Instant) returns (requeued: bool)
      requires Tidy(folders) && id in folders.At(ClaimedJob)
      requires id in ViewOf(folders) && ViewOf(folders)[id] == Placed(ClaimedJob, folders.At(ClaimedJob)[id])
      modifies this`folders
      ensures Tidy(folders)
      ensures ViewOf(folders) == old(ViewOf(folders))[id := Recovered(old(ViewOf(folders))[id], status, cutoff)]
      ensures requeued <==> Abandoned(old(ViewOf(folders))[id], status, cutoff)
    {
      hide Tidy, ViewOf, Folders.At;
      requeued := false;
      ghost var start := ViewOf(folders);
      var entry := folders.At(ClaimedJob)[id];
      if entry.Bad? || status(entry.job.runId).None? {
        MoveRaw(ClaimedJob, FailedJob, id);
        return;
      }
      var job, found := entry.job, status(entry.job.runId).value;
      ViewFile(folders, id);
      if found.IsTerminal() {
        MoveRaw(ClaimedJob, FinalState(found), id);
      } else if job.claimedAt.Some? && job.claimedAt.value < cutoff {
        MoveRaw(ClaimedJob, QueuedJob, id);
        ViewFile(folders, id);
        var reset := job.(claimedAt := None, workerId := None);
        WriteReplace(QueuedJob, id, reset);
        assert ViewOf(folders) == start[id := Placed(QueuedJob, Good(reset))];
        requeued := true;
      }
    }

    /** Every claimed record goes where its run's stored status says; returns how many were requeued. */
    method RecoverAbandoned(status: StatusOf, cutoff: Instant) returns (recovered: nat)
      requires Valid()
      modifies this`folders
      ensures Valid() && View() == AfterRecovery(old(View()), status, cutoff)
      ensures recovered == |AbandonedIds(old(View()), status, cutoff)|
      ensures RecoveredFolders(old(folders), folders, status, cutoff)
      ensures recovered == |(set x | x in old(folders).claimed && StaleClaim(old(folders), x, status, cutoff))|
    {
      hide Tidy, ViewOf, Reserved, AfterRecovery, RecoveredExcept, AbandonedIds, Folders.At, Recovered, Abandoned;
      ghost var start := View();
      RecoveryKeepsReserved(start, status, cutoff, runIndex);
      recovered := 0;
      var rest := folders.At(ClaimedJob).Keys;
      RecoveryStarts(folders, status, cutoff);
      while rest != {}
        invariant Tidy(folders) && ViewOf(folders) == RecoveredExcept(start, rest, status, cutoff)
        invariant forall id :: id in rest ==> id in start && start[id].state.ClaimedJob?
        invariant recovered + |AbandonedIds(start, status, cutoff) * rest| == |AbandonedIds(start, status, cutoff)|
        decreases rest
      {
        var id :| id in rest;
        RecoveryStep(folders, start, rest, id, status, cutoff);
        rest := rest - {id};
        var requeued := RecoverOne(id, status, cutoff);
        recovered := recovered + if requeued then 1 else 0;
      }
      RecoveryEnds(start, status, cutoff);
      RecoveryOnFolders(old(folders), folders, status, cutoff);
      StaleClaimsAre(old(folders), status, cutoff);
    }
  }

  function FinalState(status: RunStatus): JobState {
    if status in {Succeeded, Partial} then CompletedJob
    else if status.Cancelled? then CancelledJob
    else FailedJob
  }

  // ---------------------------------------------------------------- lemmas for the methods

  /** Same jobs, wherever they now are. */
  lemma KeepsReserved(q: Places, q': Places, runIndex: set<string>)
    requires Reserved(q, runIndex) && q'.Keys == q.Keys
    requires forall id :: id in q && q'[id].entry.Good? ==>
               && q[id].entry.Good? && q'[id].entry.job.runId == q[id].entry.job.runId
               && q'[id].entry.job.jobId == q[id].entry.job.jobId
    ensures Reserved(q', runIndex)
  {
  }

  lemma ClaimKeepsReserved(q: Places, taken: Option<string>, worker: string, at: Instant, runIndex: set<string>)
    requires Reserved(q, runIndex) && (taken.Some? ==> Waiting(q, taken.value))
    ensures Reserved(AfterClaim(q, taken, worker, at), runIndex)
  {
    hide Reserved;
    KeepsReserved(q, AfterClaim(q, taken, worker, at), runIndex);
  }

  lemma RecoveryKeepsReserved(q: Places, status: StatusOf, cutoff: Instant, runIndex: set<string>)
    requires Reserved(q, runIndex)
    ensures Reserved(AfterRecovery(q, status, cutoff), runIndex)
  {
    hide Reserved;
    KeepsReserved(q, AfterRecovery(q, status, cutoff), runIndex);
  }

  /** The listing `rest` is still to be looked at; what came before was unreadable and is set aside. */
  function SetAside(q: Places, rest: set<string>): Places {
    map id | id in q ::
      if q[id].state.QueuedJob? && q[id].entry.Bad? && id !in rest then q[id].(state := FailedJob) else q[id]
  }

  ghost predicate Passed(q: Places, rest: set<string>) {
    && (forall id :: id in rest ==> id in q && q[id].state.QueuedJob?)
    && (forall id :: Waiting(q, id) ==> id in rest)
    && (forall x, id :: x in q && q[x].state.QueuedJob? && x !in rest && id in rest ==> Before(x, id))
  }

  lemma QueuedFiles(f: Folders)
    requires Tidy(f)
    ensures SetAside(ViewOf(f), f.At(QueuedJob).Keys) == ViewOf(f)
    ensures Passed(ViewOf(f), f.At(QueuedJob).Keys)
  {
    forall id | id in f.At(QueuedJob) ensures id in ViewOf(f) && ViewOf(f)[id].state.QueuedJob? {
      ViewFile(f, id);
    }
    forall id | id in ViewOf(f) && ViewOf(f)[id].state.QueuedJob? ensures id in f.At(QueuedJob) {
      ViewFile(f, id);
    }
  }

  lemma StillQueued(f: Folders, start: Places, rest: set<string>, id: string)
    requires Tidy(f) && ViewOf(f) == SetAside(start, rest) && Passed(start, rest) && id in rest
    ensures id in f.At(QueuedJob) && f.At(QueuedJob)[id] == start[id].entry
    ensures start[id].entry.Good? ==> start[id].entry.job.jobId == id
  {
    ViewFile(f, id);
  }

  lemma SetAsideMore(q: Places, rest: set<string>, id: string)
    requires Passed(q, rest) && IsLeast(rest, id) && q[id].entry.Bad?
    ensures SetAside(q, rest - {id}) == SetAside(q, rest)[id := Placed(FailedJob, q[id].entry)]
    ensures Passed(q, rest - {id})
  {
  }

  lemma TakesFirst(q: Places, rest: set<string>, id: string, worker: string, at: Instant)
    requires Passed(q, rest) && IsLeast(rest, id) && q[id].entry.Good?
    ensures Waiting(q, id) && IsFirst(q, id)
    ensures AfterClaim(q, Some(id), worker, at)
         == SetAside(q, rest)[id := Placed(ClaimedJob, Good(ClaimedBy(q[id].entry.job, worker, at)))]
  {
    forall x | x in q && q[x].state.QueuedJob? && x != id ensures Before(x, id) <==> x !in rest {
      BeforeTotal(x, id);
    }
  }

  lemma NothingWaits(q: Places, worker: string, at: Instant)
    requires Passed(q, {})
    ensures AfterClaim(q, None, worker, at) == SetAside(q, {})
    ensures forall id :: !Waiting(q, id)
  {
  }

  lemma CancelsOne(q: Places, id: string, runId: string, runIndex: set<string>)
    requires Reserved(q, runIndex) && Cancellable(q, id, runId)
    ensures AfterCancel(q, runId) == q[id := q[id].(state := CancelledJob)]
  {
  }

  ghost function AbandonedIds(q: Places, status: StatusOf, cutoff: Instant): set<string> {
    set id | id in q && Abandoned(q[id], status, cutoff)
  }

  /** Recovery done for all but `rest`. */
  function RecoveredExcept(q: Places, rest: set<string>, status: StatusOf, cutoff: Instant): Places {
    map id | id in q :: if id in rest then q[id] else Recovered(q[id], status, cutoff)
  }

  lemma RecoveryStarts(f: Folders, status: StatusOf, cutoff: Instant)
    requires Tidy(f)
    ensures var q, rest := ViewOf(f), f.At(ClaimedJob).Keys;
            && RecoveredExcept(q, rest, status, cutoff) == q
            && (forall id :: id in rest ==> id in q && q[id].state.ClaimedJob?)
            && AbandonedIds(q, status, cutoff) * rest == AbandonedIds(q, status, cutoff)
  {
    forall id | id in ViewOf(f) ensures id in f.At(ClaimedJob) <==> ViewOf(f)[id].state.ClaimedJob? {
      ViewFile(f, id);
    }
    forall id | id in f.At(ClaimedJob) ensures id in ViewOf(f) {
      ViewFile(f, id);
    }
  }

  lemma RecoveryStep(f: Folders, q: Places, rest: set<string>, id: string, status: StatusOf, cutoff: Instant)
    requires Tidy(f) && ViewOf(f) == RecoveredExcept(q, rest, status, cutoff)
    requires id in rest && id in q && q[id].state.ClaimedJob?
    ensures id in f.At(ClaimedJob) && f.At(ClaimedJob)[id] == q[id].entry
    ensures q[id].entry.Good? ==> q[id].entry.job.jobId == id
    ensures RecoveredExcept(q, rest - {id}, status, cutoff)
         == RecoveredExcept(q, rest, status, cutoff)[id := Recovered(q[id], status, cutoff)]
    ensures id in ViewOf(f) && ViewOf(f)[id] == q[id] == Placed(ClaimedJob, q[id].entry)
    ensures |AbandonedIds(q, status, cutoff) * rest|
         == |AbandonedIds(q, status, cutoff) * (rest - {id})| + if Abandoned(q[id], status, cutoff) then 1 else 0
  {
    ViewFile(f, id);
    var ids := AbandonedIds(q, status, cutoff);
    if Abandoned(q[id], status, cutoff) {
      assert ids * rest == (ids * (rest - {id})) + {id};
    } else {
      assert ids * rest == ids * (rest - {id});
    }
  }

  lemma RecoveryEnds(q: Places, status: StatusOf, cutoff: Instant)
    ensures RecoveredExcept(q, {}, status, cutoff) == AfterRecovery(q, status, cutoff)
    ensures AbandonedIds(q, status, cutoff) * {} == {}
  {
  }
}
