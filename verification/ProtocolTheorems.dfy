/** Safety of the whole service, over every sequence of events. */
module ProtocolTheorems {
  import opened Outcomes
  import opened Contract
  import opened Lifecycle
  import opened ObjectStorage
  import opened ExecutorMachine
  import opened Protocol
  import opened ProtocolSteps
  import Port = RepositoryPort

  /** The invariant holds after any number of events from the empty service. */
  lemma {:induction false} EveryStateOk(cfg: Config, events: seq<Event>, n: nat)
    requires n <= |events|
    ensures GlobalInv(cfg, Reach(cfg, EMPTY, events, n))
  {
    hide Step;
    if n > 0 {
      hide GlobalInv;
      EveryStateOk(cfg, events, n - 1);
      StepKeeps(cfg, Reach(cfg, EMPTY, events, n - 1), events[n - 1]);
    }
  }

  lemma GrowsOn(a: Shared, b: Shared, c: Shared)
    requires Grows(a, b) && Grows(b, c)
    ensures Grows(a, c)
  {
  }

  lemma {:induction false} HistoryGrows(cfg: Config, events: seq<Event>, i: nat, j: nat)
    requires i <= j <= |events|
    ensures Grows(Reach(cfg, EMPTY, events, i).shared, Reach(cfg, EMPTY, events, j).shared)
    decreases j
  {
    hide Step, GlobalInv, Grows;
    if i == j {
      GrowsSelf(Reach(cfg, EMPTY, events, i).shared);
    } else {
      HistoryGrows(cfg, events, i, j - 1);
      EveryStateOk(cfg, events, j - 1);
      StepKeeps(cfg, Reach(cfg, EMPTY, events, j - 1), events[j - 1]);
      GrowsOn(Reach(cfg, EMPTY, events, i).shared, Reach(cfg, EMPTY, events, j - 1).shared,
              Reach(cfg, EMPTY, events, j).shared);
    }
  }

  // ---------------------------------------------------------------- agreement

  /** Each run's stored history is a lifecycle path: provenance never changes, it never returns to
      queued, and once terminal nothing is ever written to it again. */
  lemma HistoryIsLifecycle(cfg: Config, events: seq<Event>, i: nat, j: nat, runId: string)
    requires i <= j <= |events| && runId in Reach(cfg, EMPTY, events, i).shared.runs
    ensures runId in Reach(cfg, EMPTY, events, j).shared.runs
    ensures Evolves(Reach(cfg, EMPTY, events, i).shared.runs[runId].manifest,
                    Reach(cfg, EMPTY, events, j).shared.runs[runId].manifest)
    ensures Reach(cfg, EMPTY, events, j).shared.runs[runId].manifest.Valid(cfg.screen)
  {
    hide Step, GlobalInv, Reach, AnalysisRun.Valid;
    HistoryGrows(cfg, events, i, j);
    EveryStateOk(cfg, events, j);
    ManifestValid(cfg, Reach(cfg, EMPTY, events, j), runId);
  }

  lemma ManifestValid(cfg: Config, g: Global, runId: string)
    requires GlobalInv(cfg, g) && runId in g.shared.runs
    ensures g.shared.runs[runId].manifest.Valid(cfg.screen)
  {
    hide AnalysisRun.Valid;
    assert Sound(cfg, g.shared, g.shared.runs[runId].manifest);
  }

  /** A process whose `execute` returned this status for this run. */
  predicate ReturnedFor(g: Global, pid: nat, runId: string, status: RunStatus) {
    pid in g.procs && g.procs[pid].job.runId == runId && g.procs[pid].pc == Done(Returned(status))
  }

  /** What `execute` returns is the stored terminal status, then and ever after. */
  lemma ReturnIsStored(cfg: Config, events: seq<Event>, i: nat, j: nat, pid: nat, runId: string, status: RunStatus)
    requires i <= j <= |events| && ReturnedFor(Reach(cfg, EMPTY, events, i), pid, runId, status)
    ensures status.IsTerminal()
    ensures runId in Reach(cfg, EMPTY, events, j).shared.runs
    ensures Reach(cfg, EMPTY, events, j).shared.runs[runId].manifest.status == status
  {
    hide Step, StoreOk, Reach, ChainOk;
    var g := Reach(cfg, EMPTY, events, i);
    EveryStateOk(cfg, events, i);
    assert ProcessOk(cfg, g.procs[pid].job, g.procs[pid].pc, g.shared);
    HistoryGrows(cfg, events, i, j);
  }

  /** Agreement: two executions of one run, however they interleave and whenever they return,
      return the same status. */
  lemma Agreement(cfg: Config, events: seq<Event>, i: nat, j: nat, pid: nat, pid': nat, runId: string,
                  status: RunStatus, status': RunStatus)
    requires i <= |events| && j <= |events|
    requires ReturnedFor(Reach(cfg, EMPTY, events, i), pid, runId, status)
    requires ReturnedFor(Reach(cfg, EMPTY, events, j), pid', runId, status')
    ensures status == status'
  {
    hide Reach, ReturnedFor;
    var last := if i <= j then j else i;
    ReturnIsStored(cfg, events, i, last, pid, runId, status);
    ReturnIsStored(cfg, events, j, last, pid', runId, status');
  }

  // ---------------------------------------------------------------- published means verified forever

  /** Every artifact a stored manifest lists is, from then on, stored under the run's own key with
      the recorded size and hash, and reads back as such; failed and cancelled runs list none. */
  lemma PublishedMeansVerified(cfg: Config, events: seq<Event>, i: nat, j: nat, runId: string)
    requires i <= j <= |events| && runId in Reach(cfg, EMPTY, events, i).shared.runs
    ensures var m := Reach(cfg, EMPTY, events, i).shared.runs[runId].manifest;
            var later := Reach(cfg, EMPTY, events, j).shared;
            && (forall k :: 0 <= k < |m.artifacts| ==> Intact(cfg, later, runId, m.artifacts[k]))
            && (m.artifacts != [] <==> m.status in {Succeeded, Partial})
            && (m.artifacts != [] ==> runId in later.runs && later.runs[runId].manifest == m)
            && Extends(Reach(cfg, EMPTY, events, i).shared.objects, later.objects)
  {
    hide Step, Reach, ChainOk, ProcessOk, Intact, AnalysisRun.ComponentsValid, HeldOk;
    var g := Reach(cfg, EMPTY, events, i);
    var later := Reach(cfg, EMPTY, events, j).shared;
    EveryStateOk(cfg, events, i);
    HistoryGrows(cfg, events, i, j);
    var m := g.shared.runs[runId].manifest;
    assert Sound(cfg, g.shared, m) && m.RunId() == runId;
    RefsStay(cfg, g.shared, later, runId, m.artifacts, |m.artifacts|);
  }

  // ---------------------------------------------------------------- the linear attempt chain

  predicate InChain(runs: Port.Runs, id: string, logicalId: string, number: int) {
    && id in runs
    && runs[id].manifest.origin.logicalAnalysisId == logicalId
    && runs[id].manifest.origin.attemptNumber == number
  }

  /** Following the links back from an attempt reaches every smaller number, over finished
      attempts of the same input. */
  lemma {:induction false} Ancestor(runs: Port.Runs, id: string, number: int) returns (a: string)
    requires ChainOk(runs) && id in runs && 1 <= number <= runs[id].manifest.origin.attemptNumber
    ensures InChain(runs, a, runs[id].manifest.origin.logicalAnalysisId, number)
    ensures runs[a].manifest.origin.input == runs[id].manifest.origin.input
    ensures runs[a].manifest.origin.dataOrigin == runs[id].manifest.origin.dataOrigin
    ensures a != id ==> runs[a].manifest.status in {Failed, Partial}
    ensures number == runs[id].manifest.origin.attemptNumber ==> a == id
    decreases runs[id].manifest.origin.attemptNumber
  {
    hide PairsUnique, AnalysisRun.Valid;
    assert Follows(runs, runs[id].manifest);
    if number == runs[id].manifest.origin.attemptNumber {
      a := id;
    } else {
      var previous := runs[id].manifest.origin.previousAttemptRunId.value;
      a := Ancestor(runs, previous, number);
    }
  }

  ghost predicate Numbered(runs: Port.Runs, logicalId: string, n: int) {
    exists id :: InChain(runs, id, logicalId, n)
  }

  /** The attempts of a logical analysis in one state of the database. */
  ghost predicate LinearChain(runs: Port.Runs, logicalId: string, k: nat) {
    && (forall n :: Numbered(runs, logicalId, n) <==> 1 <= n <= k)
    && (forall a, b, n :: InChain(runs, a, logicalId, n) && InChain(runs, b, logicalId, n) ==> a == b)
    && (forall a, b, n, m :: InChain(runs, a, logicalId, n) && InChain(runs, b, logicalId, m) && m == n + 1 ==>
          runs[b].manifest.origin.previousAttemptRunId == Some(a))
    && (forall a, n :: InChain(runs, a, logicalId, n) && n < k ==> runs[a].manifest.status in {Failed, Partial})
    && (forall a, b, n, m :: InChain(runs, a, logicalId, n) && InChain(runs, b, logicalId, m) ==>
          && runs[a].manifest.origin.input == runs[b].manifest.origin.input
          && runs[a].manifest.origin.dataOrigin == runs[b].manifest.origin.dataOrigin)
  }

  /** The attempts' numbers have a greatest, or there is none. */
  lemma {:induction false} Newest(runs: Port.Runs, ids: set<string>, logicalId: string) returns (top: Option<string>)
    requires ids <= runs.Keys
    ensures top.None? ==> forall id :: id in ids ==> runs[id].manifest.origin.logicalAnalysisId != logicalId
    ensures top.Some? ==>
              && top.value in ids && runs[top.value].manifest.origin.logicalAnalysisId == logicalId
              && forall id :: id in ids && runs[id].manifest.origin.logicalAnalysisId == logicalId ==>
                   runs[id].manifest.origin.attemptNumber <= runs[top.value].manifest.origin.attemptNumber
  {
    if ids == {} {
      top := None;
    } else {
      var id :| id in ids;
      var rest := Newest(runs, ids - {id}, logicalId);
      if runs[id].manifest.origin.logicalAnalysisId != logicalId {
        top := rest;
      } else if rest.Some?
        && runs[rest.value].manifest.origin.attemptNumber >= runs[id].manifest.origin.attemptNumber {
        top := rest;
      } else {
        top := Some(id);
      }
    }
  }

  lemma ChainIsLinear(runs: Port.Runs, logicalId: string) returns (k: nat)
    requires ChainOk(runs)
    ensures LinearChain(runs, logicalId, k)
  {
    hide Follows, AnalysisRun.Valid;
    var top := Newest(runs, runs.Keys, logicalId);
    if top.None? {
      k := 0;
    } else {
      k := runs[top.value].manifest.origin.attemptNumber;
      forall n ensures Numbered(runs, logicalId, n) <==> 1 <= n <= k {
        if 1 <= n <= k {
          var a := Ancestor(runs, top.value, n);
        }
      }
      forall a, n | InChain(runs, a, logicalId, n)
        ensures n < k ==> runs[a].manifest.status in {Failed, Partial}
        ensures runs[a].manifest.origin.input == runs[top.value].manifest.origin.input
        ensures runs[a].manifest.origin.dataOrigin == runs[top.value].manifest.origin.dataOrigin
      {
        var same := Ancestor(runs, top.value, n);
        assert same == a;
      }
      forall a, b, n, m | InChain(runs, a, logicalId, n) && InChain(runs, b, logicalId, m) && m == n + 1
        ensures runs[b].manifest.origin.previousAttemptRunId == Some(a)
      {
        LinkIs(runs, a, b, logicalId, n);
      }
    }
  }

  lemma LinkIs(runs: Port.Runs, a: string, b: string, logicalId: string, n: int)
    requires ChainOk(runs) && InChain(runs, a, logicalId, n) && InChain(runs, b, logicalId, n + 1)
    ensures runs[b].manifest.origin.previousAttemptRunId == Some(a)
  {
    hide AnalysisRun.Valid;
    assert Follows(runs, runs[b].manifest);
  }

  /** In every reachable state the attempts of each logical analysis are numbered 1..k, one run
      each, every one linked to the one before, all of one input; all but the last are failed or
      partial. */
  lemma AttemptsFormLinearChain(cfg: Config, events: seq<Event>, n: nat, logicalId: string)
    requires n <= |events|
    ensures exists k: nat :: LinearChain(Reach(cfg, EMPTY, events, n).shared.runs, logicalId, k)
  {
    hide Reach, LinearChain, StoreOk, ProcessOk;
    EveryStateOk(cfg, events, n);
    var k := ChainIsLinear(Reach(cfg, EMPTY, events, n).shared.runs, logicalId);
  }

  /** Hence at most one attempt of a logical analysis is queued or running. */
  lemma AtMostOneLiveAttempt(cfg: Config, events: seq<Event>, n: nat, a: string, b: string)
    requires n <= |events|
    requires var runs := Reach(cfg, EMPTY, events, n).shared.runs;
             && a in runs && b in runs
             && runs[a].manifest.origin.logicalAnalysisId == runs[b].manifest.origin.logicalAnalysisId
             && !runs[a].manifest.status.IsTerminal() && !runs[b].manifest.status.IsTerminal()
    ensures a == b
  {
    hide Reach, AnalysisRun.Valid;
    var runs := Reach(cfg, EMPTY, events, n).shared.runs;
    var logicalId := runs[a].manifest.origin.logicalAnalysisId;
    AttemptsFormLinearChain(cfg, events, n, logicalId);
    var k: nat :| LinearChain(runs, logicalId, k);
    assert InChain(runs, a, logicalId, runs[a].manifest.origin.attemptNumber);
    assert InChain(runs, b, logicalId, runs[b].manifest.origin.attemptNumber);
    assert Numbered(runs, logicalId, runs[a].manifest.origin.attemptNumber);
    assert Numbered(runs, logicalId, runs[b].manifest.origin.attemptNumber);
  }
}
