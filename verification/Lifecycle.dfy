/** `storage/lifecycle.py`: how one stored attempt may be replaced by another. */
module Lifecycle {
  import opened Outcomes
  import opened Contract

  /** `ALLOWED_STATUS_TRANSITIONS`; terminal states are never a source. */
  predicate Permitted(current: RunStatus, updated: RunStatus) {
    match current
    case Queued => updated in {Queued, Running, Failed, Cancelled}
    case Running => updated in {Running, Succeeded, Partial, Failed, Cancelled}
    case _ => false
  }

  function EnsureCreatable(run: AnalysisRun): Result<()> {
    if run.status.Queued? then Ok(()) else Err(TransitionForbidden)
  }

  function EnsureTransitionAllowed(current: AnalysisRun, updated: AnalysisRun): Result<()> {
    if current.status.IsTerminal() then Err(TransitionForbidden)
    else if !Permitted(current.status, updated.status) then Err(TransitionForbidden)
    else if current.origin != updated.origin then Err(TransitionForbidden)
    else Ok(())
  }

  /** What any number of admitted replacements can do to an attempt: nothing once it is
      terminal, never a return to queued, and its provenance stays. */
  ghost predicate Evolves(old_: AnalysisRun, new_: AnalysisRun) {
    && old_.origin == new_.origin
    && (old_.status.IsTerminal() ==> new_ == old_)
    && (old_.status.Running? ==> !new_.status.Queued?)
  }

  /** An admitted replacement is an evolution; evolutions compose; and a terminal record is
      reached by at most one replacement, since none is admitted afterwards. */
  lemma ReplacementEvolves(a: AnalysisRun, b: AnalysisRun, c: AnalysisRun)
    requires Evolves(a, b) && EnsureTransitionAllowed(b, c).Ok?
    ensures Evolves(a, c)
    ensures !a.status.IsTerminal() && !b.status.IsTerminal()
  {
  }
}

/** The `AnalysisRepository` port as a specification on values: every adapter is proved against
    these functions. */
module RepositoryPort {
  import opened Outcomes
  import opened Contract
  import opened Lifecycle

  datatype Record = Record(manifest: AnalysisRun, cancelRequested: bool)

  type Runs = map<string, Record>

  function Create(runs: Runs, run: AnalysisRun): Result<Runs> {
    var _ :- EnsureCreatable(run);
    if run.RunId() in runs then Err(RunAlreadyExists)
    else Ok(runs[run.RunId() := Record(run, false)])
  }

  function Load(runs: Runs, runId: string): Result<AnalysisRun> {
    if runId in runs then Ok(runs[runId].manifest) else Err(RunNotFound)
  }

  function Save(runs: Runs, run: AnalysisRun): Result<Runs> {
    var current :- Load(runs, run.RunId());
    var _ :- EnsureTransitionAllowed(current, run);
    Ok(runs[run.RunId() := runs[run.RunId()].(manifest := run)])
  }

  function RequestCancellation(runs: Runs, runId: string): Result<Runs> {
    var current :- Load(runs, runId);
    if current.status.IsTerminal() then Ok(runs)
    else Ok(runs[runId := runs[runId].(cancelRequested := true)])
  }

  predicate CancellationRequested(runs: Runs, runId: string) {
    runId in runs && runs[runId].cancelRequested
  }

  /** A run that is created loads as created, unflagged; creation needs a queued run and a free id, and
      touches no other run. */
  lemma CreateLaw(runs: Runs, run: AnalysisRun, other: string)
    ensures Create(runs, run).Ok? <==> run.status == Queued && run.RunId() !in runs
    ensures Create(runs, run).Ok? ==>
              var after := Create(runs, run).value;
              && Load(after, run.RunId()) == Ok(run) && !CancellationRequested(after, run.RunId())
              && (other != run.RunId() ==>
                    Load(after, other) == Load(runs, other)
                    && (CancellationRequested(after, other) <==> CancellationRequested(runs, other)))
  {
  }

  /** A save replaces the stored record of a known, unfinished run of the same provenance, a running one
      never going back to queued and a queued one never on to success; the flag and all other runs
      stay. */
  lemma SaveLaw(runs: Runs, run: AnalysisRun, other: string)
    ensures Save(runs, run).Ok? <==>
              && Load(runs, run.RunId()).Ok?
              && var current := Load(runs, run.RunId()).value;
              && current.origin == run.origin
              && match current.status
                 case Queued => run.status != Succeeded && run.status != Partial
                 case Running => run.status != Queued
                 case _ => false
    ensures Save(runs, run).Ok? ==>
              var after := Save(runs, run).value;
              && Load(after, run.RunId()) == Ok(run)
              && (other != run.RunId() ==> Load(after, other) == Load(runs, other))
              && (CancellationRequested(after, other) <==> CancellationRequested(runs, other))
  {
    if run.RunId() in runs {
      var current := runs[run.RunId()].manifest.status;
      assert !current.IsTerminal() <==> current.Queued? || current.Running?;
    }
  }

  /** Cancellation is requested of any known run, takes effect on an unfinished one, and changes
      nothing else. */
  lemma CancellationLaw(runs: Runs, runId: string, other: string)
    ensures RequestCancellation(runs, runId).Ok? <==> runId in runs
    ensures RequestCancellation(runs, runId).Ok? ==>
              var after := RequestCancellation(runs, runId).value;
              && Load(after, other) == Load(runs, other)
              && (CancellationRequested(after, other) <==>
                    || CancellationRequested(runs, other)
                    || (other == runId && runs[runId].manifest.status in {Queued, Running}))
  {
    if runId in runs {
      var current := runs[runId].manifest.status;
      assert current.IsTerminal() <==> !(current.Queued? || current.Running?);
    }
  }

  /** Another attempt already holds this (logical analysis, attempt number) pair. */
  predicate PairTaken(runs: Runs, run: AnalysisRun) {
    exists id :: id in runs
      && runs[id].manifest.origin.logicalAnalysisId == run.origin.logicalAnalysisId
      && runs[id].manifest.origin.attemptNumber == run.origin.attemptNumber
  }

  ghost predicate NewestFirst(out: seq<AnalysisRun>) {
    forall i, j :: 0 <= i < j < |out| ==> out[i].origin.createdAt >= out[j].origin.createdAt
  }

  ghost predicate DistinctIds(out: seq<AnalysisRun>) {
    forall i, j :: 0 <= i < j < |out| ==> out[i].RunId() != out[j].RunId()
  }

  /** `out` lists every stored run once, newest first; ties may come in any order. */
  ghost predicate IsListing(runs: Runs, out: seq<AnalysisRun>) {
    && NewestFirst(out)
    && DistinctIds(out)
    && (forall run :: run in out ==> run.RunId() in runs && runs[run.RunId()].manifest == run)
    && (forall id :: id in runs ==> runs[id].manifest in out)
  }

  ghost predicate WellKeyed(runs: Runs) {
    forall id :: id in runs ==> runs[id].manifest.RunId() == id
  }

  /** Insert by creation time, newest first. */
  function InsertNewest(out: seq<AnalysisRun>, run: AnalysisRun): seq<AnalysisRun> {
    if out == [] || out[0].origin.createdAt < run.origin.createdAt then [run] + out
    else [out[0]] + InsertNewest(out[1..], run)
  }

  lemma {:induction false} InsertNewestSorts(out: seq<AnalysisRun>, run: AnalysisRun)
    requires NewestFirst(out)
    ensures NewestFirst(InsertNewest(out, run))
    ensures forall r :: r in InsertNewest(out, run) <==> r in out || r == run
  {
    if out == [] || out[0].origin.createdAt < run.origin.createdAt {
    } else {
      var rest := InsertNewest(out[1..], run);
      InsertNewestSorts(out[1..], run);
      assert out == [out[0]] + out[1..];
      assert forall i :: 0 <= i < |rest| ==> rest[i] in rest;
    }
  }

  lemma {:induction false} InsertNewestDistinct(out: seq<AnalysisRun>, run: AnalysisRun)
    requires NewestFirst(out) && DistinctIds(out) && forall r :: r in out ==> r.RunId() != run.RunId()
    ensures DistinctIds(InsertNewest(out, run))
  {
    if out == [] || out[0].origin.createdAt < run.origin.createdAt {
    } else {
      InsertNewestDistinct(out[1..], run);
      InsertNewestSorts(out[1..], run);
      var rest := InsertNewest(out[1..], run);
      forall r | r in rest ensures r.RunId() != out[0].RunId() {
      }
    }
  }

  /** Inserting one more record extends a listing. */
  lemma InsertListing(done: Runs, out: seq<AnalysisRun>, id: string, record: Record)
    requires IsListing(done, out) && id !in done && record.manifest.RunId() == id
    ensures IsListing(done[id := record], InsertNewest(out, record.manifest))
  {
    InsertNewestSorts(out, record.manifest);
    InsertNewestDistinct(out, record.manifest);
  }

  /** Two listings of the same runs hold the same runs: only ties may be ordered differently. */
  lemma ListingsAgree(runs: Runs, a: seq<AnalysisRun>, b: seq<AnalysisRun>)
    requires WellKeyed(runs) && IsListing(runs, a) && IsListing(runs, b)
    ensures multiset(a) == multiset(b)
  {
    ListingCounts(a);
    ListingCounts(b);
    forall r ensures multiset(a)[r] == multiset(b)[r] {
      if r in a {
        assert r in b;
      }
    }
  }

  lemma {:induction false} ListingCounts(out: seq<AnalysisRun>)
    requires DistinctIds(out)
    ensures forall r :: multiset(out)[r] == if r in out then 1 else 0
  {
    if out != [] {
      ListingCounts(out[1..]);
      assert out == [out[0]] + out[1..];
    }
  }
}
