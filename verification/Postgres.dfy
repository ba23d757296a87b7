/** `storage/postgres/repository.py`: the transactional control plane. A transaction that raises
    leaves every table as it was. */
module Postgres {
  import opened Outcomes
  import opened JsonValues
  import opened Contract
  import opened Manifest
  import opened Lifecycle
  import Port = RepositoryPort

  datatype AttemptRow = AttemptRow(
    logicalAnalysisId: string, attemptNumber: int, previousAttemptRunId: Option<string>,
    status: RunStatus, dataOrigin: DataOrigin, pipelineVersion: string, contractVersion: string,
    manifest: Json, version: int, createdAt: Instant, startedAt: Option<Instant>,
    completedAt: Option<Instant>, cancelRequested: bool)

  datatype StageRow = StageRow(
    stageName: StageName, required: bool, status: StageStatus, progressPercent: real, attemptNumber: int)

  datatype ArtifactRow = ArtifactRow(
    name: string, category: ArtifactCategory, relativePath: string, mediaType: string,
    sha256: string, sizeBytes: int, schemaVersion: Option<string>)

  datatype AuditKind =
    | AttemptCreated(previous: Option<string>, status: RunStatus)
    | AttemptUpdated(status: RunStatus, version: int)
    | AttemptRetried(previous: Option<string>)

  datatype AuditEvent = AuditEvent(
    logicalAnalysisId: string, runId: string, attemptNumber: int, kind: AuditKind, createdAt: Instant)

  /** The columns of a run; the cancel flag is not one of them and survives an update. */
  function RowOf(run: AnalysisRun, version: int, cancelRequested: bool): AttemptRow {
    AttemptRow(run.origin.logicalAnalysisId, run.origin.attemptNumber, run.origin.previousAttemptRunId,
               run.status, run.origin.dataOrigin, run.origin.pipelineVersion, run.origin.contractVersion,
               ToDict(run), version, run.origin.createdAt, run.startedAt, run.completedAt, cancelRequested)
  }

  function StageRowOf(stage: StageExecution): StageRow {
    StageRow(stage.stageName, stage.required, stage.status, stage.progressPercent, stage.attemptNumber)
  }

  function ArtifactRowOf(a: ArtifactReference): ArtifactRow {
    ArtifactRow(a.name, a.category, a.relativePath, a.mediaType, a.sha256, a.sizeBytes, a.schemaVersion)
  }

  function StagePairs(stages: seq<StageExecution>): seq<(string, StageRow)> {
    seq(|stages|, i requires 0 <= i < |stages| => (stages[i].stageId, StageRowOf(stages[i])))
  }

  function ArtifactPairs(artifacts: seq<ArtifactReference>): seq<(string, ArtifactRow)> {
    seq(|artifacts|, i requires 0 <= i < |artifacts| => (artifacts[i].artifactId, ArtifactRowOf(artifacts[i])))
  }

  /** The rows a bulk insert adds, by primary key (run id, item id). */
  function Rows<V>(runId: string, pairs: seq<(string, V)>): map<(string, string), V> {
    if pairs == [] then map[]
    else
      var last := pairs[|pairs| - 1];
      Rows(runId, pairs[..|pairs| - 1])[(runId, last.0) := last.1]
  }

  function OfRun<V>(table: map<(string, string), V>, runId: string): map<(string, string), V> {
    map k | k in table && k.0 == runId :: table[k]
  }

  /** Delete this run's rows, then insert the new ones. */
  function Replaced<V>(table: map<(string, string), V>, runId: string, pairs: seq<(string, V)>)
    : map<(string, string), V>
  {
    (map k | k in table && k.0 != runId :: table[k]) + Rows(runId, pairs)
  }

  /** With distinct item ids a bulk insert adds exactly one row per pair. */
  lemma {:induction false} RowsExact<V>(runId: string, pairs: seq<(string, V)>)
    requires forall i, j :: 0 <= i < j < |pairs| ==> pairs[i].0 != pairs[j].0
    ensures forall i :: 0 <= i < |pairs| ==>
      (runId, pairs[i].0) in Rows(runId, pairs) && Rows(runId, pairs)[(runId, pairs[i].0)] == pairs[i].1
    ensures forall k :: k in Rows(runId, pairs) ==>
      k.0 == runId && exists i :: 0 <= i < |pairs| && pairs[i].0 == k.1
  {
    if pairs == [] {
    } else {
      var init := pairs[..|pairs| - 1];
      RowsExact(runId, init);
      forall k | k in Rows(runId, pairs)
        ensures k.0 == runId && exists i :: 0 <= i < |pairs| && pairs[i].0 == k.1
      {
        if k in Rows(runId, init) {
          var i :| 0 <= i < |init| && init[i].0 == k.1;
          assert pairs[i].0 == k.1;
        }
      }
    }
  }

  lemma {:induction false} RowsBelong<V>(runId: string, pairs: seq<(string, V)>)
    ensures forall k :: k in Rows(runId, pairs) ==> k.0 == runId
  {
    if pairs != [] {
      RowsBelong(runId, pairs[..|pairs| - 1]);
    }
  }

  /** Replacing one run's rows gives it exactly the new ones and touches no other run. */
  lemma ReplacedOnly<V>(table: map<(string, string), V>, runId: string, pairs: seq<(string, V)>)
    ensures OfRun(Replaced(table, runId, pairs), runId) == Rows(runId, pairs)
    ensures forall other :: other != runId ==> OfRun(Replaced(table, runId, pairs), other) == OfRun(table, other)
  {
    RowsBelong(runId, pairs);
  }

  function AuditOf(events: seq<AuditEvent>, runId: string): seq<AuditEvent> {
    if events == [] then []
    else
      var last := events[|events| - 1];
      AuditOf(events[..|events| - 1], runId) + (if last.runId == runId then [last] else [])
  }

  /** One creation event, then updates numbered 2..version, the last one naming the stored status. */
  ghost predicate AuditTells(trail: seq<AuditEvent>, run: AnalysisRun, version: int) {
    && version == |trail| >= 1
    && (trail[0].kind.AttemptCreated? || trail[0].kind.AttemptRetried?)
    && (forall i :: 1 <= i < |trail| ==> trail[i].kind.AttemptUpdated? && trail[i].kind.version == i + 1)
    && (forall i :: 0 <= i < |trail| ==>
          trail[i].logicalAnalysisId == run.origin.logicalAnalysisId
          && trail[i].attemptNumber == run.origin.attemptNumber)
    && (if |trail| == 1 then run.status.Queued? else trail[|trail| - 1].kind.status == run.status)
  }

  // ---------------------------------------------------------------- the database as a value

  datatype Tables = Tables(
    logicalAnalyses: map<string, (DataOrigin, Instant)>,
    attempts: map<string, AttemptRow>,
    stageExecutions: map<(string, string), StageRow>,
    artifactMetadata: map<(string, string), ArtifactRow>,
    auditEvents: seq<AuditEvent>)

  /** Everything stored about one attempt is derived from its manifest, and its version and audit
      trail count its committed saves. */
  ghost predicate Agrees(sc: Screen, t: Tables, runId: string, run: AnalysisRun)
    requires runId in t.attempts
  {
    var row := t.attempts[runId];
    && run.RunId() == runId
    && run.Valid(sc)
    && row == RowOf(run, row.version, row.cancelRequested)
    && OfRun(t.stageExecutions, runId) == Rows(runId, StagePairs(run.stages))
    && OfRun(t.artifactMetadata, runId) == Rows(runId, ArtifactPairs(run.artifacts))
    && AuditTells(AuditOf(t.auditEvents, runId), run, row.version)
    && run.origin.logicalAnalysisId in t.logicalAnalyses
  }

  ghost predicate PairsUnique(t: Tables) {
    forall a, b :: a in t.attempts && b in t.attempts && a != b ==>
      || t.attempts[a].logicalAnalysisId != t.attempts[b].logicalAnalysisId
      || t.attempts[a].attemptNumber != t.attempts[b].attemptNumber
  }

  /** The uniqueness constraint `uq_attempt_per_logical` would reject this row. */
  predicate PairTaken(t: Tables, run: AnalysisRun) {
    exists id :: id in t.attempts
      && t.attempts[id].logicalAnalysisId == run.origin.logicalAnalysisId
      && t.attempts[id].attemptNumber == run.origin.attemptNumber
  }

  ghost predicate NoOrphans(t: Tables) {
    && (forall k :: k in t.stageExecutions ==> k.0 in t.attempts)
    && (forall k :: k in t.artifactMetadata ==> k.0 in t.attempts)
    && (forall i :: 0 <= i < |t.auditEvents| ==> t.auditEvents[i].runId in t.attempts)
  }

  /** `runs` are the attempts the database holds. */
  ghost predicate Consistent(sc: Screen, t: Tables, runs: map<string, AnalysisRun>) {
    && runs.Keys == t.attempts.Keys
    && (forall id :: id in runs ==> Agrees(sc, t, id, runs[id]))
    && PairsUnique(t)
    && NoOrphans(t)
  }

  /** The repository port's view of the tables. */
  ghost function PostgresView(t: Tables, runs: map<string, AnalysisRun>): Port.Runs
    requires runs.Keys == t.attempts.Keys
  {
    map id | id in runs :: Port.Record(runs[id], t.attempts[id].cancelRequested)
  }

  /** The tables after one transaction wrote `run` as its row, projections and audit event. */
  function Written(t: Tables, run: AnalysisRun, version: int, cancelRequested: bool, kind: AuditKind, at: Instant)
    : Tables
  {
    t.(attempts := t.attempts[run.RunId() := RowOf(run, version, cancelRequested)],
       stageExecutions := Replaced(t.stageExecutions, run.RunId(), StagePairs(run.stages)),
       artifactMetadata := Replaced(t.artifactMetadata, run.RunId(), ArtifactPairs(run.artifacts)),
       auditEvents := t.auditEvents + [EventOf(run, kind, at)])
  }

  function EventOf(run: AnalysisRun, kind: AuditKind, at: Instant): AuditEvent {
    AuditEvent(run.origin.logicalAnalysisId, run.RunId(), run.origin.attemptNumber, kind, at)
  }

  lemma {:induction false} AuditOfNone(events: seq<AuditEvent>, runId: string)
    requires forall i :: 0 <= i < |events| ==> events[i].runId != runId
    ensures AuditOf(events, runId) == []
  {
    if events != [] {
      AuditOfNone(events[..|events| - 1], runId);
    }
  }

  lemma AuditOfAppend(events: seq<AuditEvent>, e: AuditEvent, runId: string)
    ensures AuditOf(events + [e], runId) == if e.runId == runId then AuditOf(events, runId) + [e] else AuditOf(events, runId)
  {
    assert (events + [e])[..|events|] == events;
  }

  /** Another run's attempt is untouched by the write. */
  lemma OthersAgree(sc: Screen, t: Tables, run: AnalysisRun, version: int, flag: bool, kind: AuditKind,
                    at: Instant, other: string, its: AnalysisRun)
    requires other in t.attempts && other != run.RunId()
    requires Agrees(sc, t, other, its)
    ensures Agrees(sc, Written(t, run, version, flag, kind, at), other, its)
  {
    hide FromDict, AuditTells, AnalysisRun.Valid, ToDict;
    ReplacedOnly(t.stageExecutions, run.RunId(), StagePairs(run.stages));
    ReplacedOnly(t.artifactMetadata, run.RunId(), ArtifactPairs(run.artifacts));
    AuditOfAppend(t.auditEvents, EventOf(run, kind, at), other);
  }

  /** The written attempt agrees with its own manifest. */
  lemma WrittenAgrees(sc: Screen, t: Tables, run: AnalysisRun, version: int, flag: bool, kind: AuditKind, at: Instant)
    requires run.Valid(sc) && run.origin.logicalAnalysisId in t.logicalAnalyses
    requires AuditTells(AuditOf(t.auditEvents, run.RunId()) + [EventOf(run, kind, at)], run, version)
    ensures Agrees(sc, Written(t, run, version, flag, kind, at), run.RunId(), run)
  {
    hide ToDict;
    ReplacedOnly(t.stageExecutions, run.RunId(), StagePairs(run.stages));
    ReplacedOnly(t.artifactMetadata, run.RunId(), ArtifactPairs(run.artifacts));
    AuditOfAppend(t.auditEvents, EventOf(run, kind, at), run.RunId());
  }

  lemma WrittenView(t: Tables, runs: map<string, AnalysisRun>, run: AnalysisRun, version: int, flag: bool,
                    kind: AuditKind, at: Instant)
    requires runs.Keys == t.attempts.Keys
    ensures runs[run.RunId() := run].Keys == Written(t, run, version, flag, kind, at).attempts.Keys
    ensures PostgresView(Written(t, run, version, flag, kind, at), runs[run.RunId() := run])
         == PostgresView(t, runs)[run.RunId() := Port.Record(run, flag)]
  {
    hide AnalysisRun.RunId, ToDict, Replaced;
  }

  /** One committed write keeps the whole database consistent and changes one record of the view. */
  lemma WriteKeepsConsistent(sc: Screen, t: Tables, runs: map<string, AnalysisRun>, run: AnalysisRun,
                             version: int, flag: bool, kind: AuditKind, at: Instant)
    requires Consistent(sc, t, runs)
    requires run.Valid(sc) && run.origin.logicalAnalysisId in t.logicalAnalyses
    requires AuditTells(AuditOf(t.auditEvents, run.RunId()) + [EventOf(run, kind, at)], run, version)
    requires forall id :: id in t.attempts && id != run.RunId() ==>
      || t.attempts[id].logicalAnalysisId != run.origin.logicalAnalysisId
      || t.attempts[id].attemptNumber != run.origin.attemptNumber
    ensures Consistent(sc, Written(t, run, version, flag, kind, at), runs[run.RunId() := run])
    ensures PostgresView(Written(t, run, version, flag, kind, at), runs[run.RunId() := run])
         == PostgresView(t, runs)[run.RunId() := Port.Record(run, flag)]
  {
    hide Agrees, AuditTells, AnalysisRun.Valid, ToDict, PairsUnique, NoOrphans, PostgresView;
    WrittenView(t, runs, run, version, flag, kind, at);
    WrittenAgrees(sc, t, run, version, flag, kind, at);
    forall id | id in runs && id != run.RunId()
      ensures Agrees(sc, Written(t, run, version, flag, kind, at), id, runs[id])
    {
      OthersAgree(sc, t, run, version, flag, kind, at, id, runs[id]);
    }
    WriteKeepsKeys(t, run, version, flag, kind, at);
  }

  lemma WriteKeepsKeys(t: Tables, run: AnalysisRun, version: int, flag: bool, kind: AuditKind, at: Instant)
    requires PairsUnique(t) && NoOrphans(t)
    requires forall id :: id in t.attempts && id != run.RunId() ==>
      || t.attempts[id].logicalAnalysisId != run.origin.logicalAnalysisId
      || t.attempts[id].attemptNumber != run.origin.attemptNumber
    ensures PairsUnique(Written(t, run, version, flag, kind, at))
    ensures NoOrphans(Written(t, run, version, flag, kind, at))
  {
    RowsBelong(run.RunId(), StagePairs(run.stages));
    RowsBelong(run.RunId(), ArtifactPairs(run.artifacts));
  }

  // ---------------------------------------------------------------- the repository

  /** The logical analysis is there, created with its first attempt. */
  function WithLogical(t: Tables, run: AnalysisRun): Tables {
    if run.origin.logicalAnalysisId in t.logicalAnalyses then t
    else t.(logicalAnalyses := t.logicalAnalyses[run.origin.logicalAnalysisId :=
                                                   (run.origin.dataOrigin, run.origin.createdAt)])
  }

  class PostgreSQLAnalysisRepository {
    const screen: Screen
    var logicalAnalyses: map<string, (DataOrigin, Instant)>
    var attempts: map<string, AttemptRow>
    var stageExecutions: map<(string, string), StageRow>
    var artifactMetadata: map<(string, string), ArtifactRow>
    var auditEvents: seq<AuditEvent>
    /** The attempts the manifests stand for. */
    ghost var runs: map<string, AnalysisRun>

    constructor (screen: Screen)
      ensures Valid() && View() == map[] && this.screen == screen
    {
      this.screen := screen;
      logicalAnalyses, attempts, stageExecutions, artifactMetadata, auditEvents := map[], map[], map[], map[], [];
      runs := map[];
    }

    function Database(): Tables
      reads this
    {
      Tables(logicalAnalyses, attempts, stageExecutions, artifactMetadata, auditEvents)
    }

    ghost predicate Valid()
      reads this
    {
      Consistent(screen, Database(), runs)
    }

    ghost function View(): Port.Runs
      requires Valid()
      reads this
    {
      PostgresView(Database(), runs)
    }

    /** Insert or update the attempt's row, replace its projections and append the event. */
    method WriteAttempt(run: AnalysisRun, version: int, cancelRequested: bool, kind: AuditKind, at: Instant)
      modifies this
      ensures Database() == Written(old(Database()), run, version, cancelRequested, kind, at)
      ensures runs == old(runs)[run.RunId() := run]
    {
      attempts := attempts[run.RunId() := RowOf(run, version, cancelRequested)];
      stageExecutions := Replaced(stageExecutions, run.RunId(), StagePairs(run.stages));
      artifactMetadata := Replaced(artifactMetadata, run.RunId(), ArtifactPairs(run.artifacts));
      auditEvents := auditEvents + [EventOf(run, kind, at)];
      runs := runs[run.RunId() := run];
    }

    method Create(run: AnalysisRun, at: Instant) returns (r: Result<string>)
      requires Valid() && run.Valid(screen)
      modifies this
      ensures Valid()
      ensures r.Ok? ==> r.value == run.RunId() && Port.Create(old(View()), run) == Ok(View())
      ensures r.Ok? ==> Database() == Written(WithLogical(old(Database()), run), run, 1, false,
                                              AttemptCreated(run.origin.previousAttemptRunId, run.status), at)
      ensures r.Err? ==> Database() == old(Database()) && runs == old(runs)
      ensures r.Err? <==> Port.Create(old(View()), run).Err? || Port.PairTaken(old(View()), run)
      ensures r.Err? ==> r.fault == (if Port.Create(old(View()), run).Err?
                                     then Port.Create(old(View()), run).fault else UniqueViolation)
    {
      hide Agrees, AuditTells, AnalysisRun.Valid, ToDict;
      var creatable := EnsureCreatable(run);
      if creatable.Err? {
        return Err(creatable.fault);
      }
      if run.RunId() in attempts {
        return Err(RunAlreadyExists);
      }
      PairTakenInView(screen, Database(), runs, run);
      if PairTaken(Database(), run) {
        return Err(UniqueViolation);
      }
      if run.origin.logicalAnalysisId !in logicalAnalyses {
        logicalAnalyses := logicalAnalyses[run.origin.logicalAnalysisId := (run.origin.dataOrigin, run.origin.createdAt)];
      }
      LogicalInsertKeeps(screen, old(Database()), Database(), runs);
      var kind := AttemptCreated(run.origin.previousAttemptRunId, run.status);
      CreationAudit(Database(), run, kind, at);
      WriteKeepsConsistent(screen, Database(), runs, run, 1, false, kind, at);
      WriteAttempt(run, 1, false, kind, at);
      r := Ok(run.RunId());
    }

    method Load(runId: string) returns (r: Result<AnalysisRun>)
      requires Valid()
      ensures r == Port.Load(View(), runId)
    {
      if runId !in attempts {
        return Err(RunNotFound);
      }
      r := ParseRow(screen, Database(), runs, runId);
    }

    method Save(run: AnalysisRun, expectedVersion: Option<int>, at: Instant) returns (r: Result<()>)
      requires Valid() && run.Valid(screen)
      modifies this
      ensures Valid()
      ensures r.Err? ==> Database() == old(Database()) && runs == old(runs)
      ensures r.Ok? ==> Port.Save(old(View()), run) == Ok(View())
      ensures r.Ok? ==> run.RunId() in attempts && run.RunId() in old(attempts)
      ensures r.Ok? ==> var row := old(attempts)[run.RunId()];
                        Database() == Written(old(Database()), run, row.version + 1, row.cancelRequested,
                                              AttemptUpdated(run.status, row.version + 1), at)
      ensures StaleVersion(old(attempts), run.RunId(), expectedVersion) ==> r == Err(VersionConflict)
      ensures !StaleVersion(old(attempts), run.RunId(), expectedVersion) && r.Err? ==>
                Port.Save(old(View()), run) == Err(r.fault)
    {
      hide Agrees, AuditTells, AnalysisRun.Valid, ToDict, FromDict, PairsUnique, NoOrphans, Written;
      if run.RunId() !in attempts {
        return Err(RunNotFound);
      }
      var row := attempts[run.RunId()];
      var current := ParseRow(screen, Database(), runs, run.RunId()).value;
      if StaleVersion(attempts, run.RunId(), expectedVersion) {
        return Err(VersionConflict);
      }
      var allowed := EnsureTransitionAllowed(current, run);
      if allowed.Err? {
        return Err(allowed.fault);
      }
      SaveKeepsConsistent(screen, Database(), runs, run, at);
      WriteAttempt(run, row.version + 1, row.cancelRequested, AttemptUpdated(run.status, row.version + 1), at);
      r := Ok(());
    }

    method RequestCancellation(runId: string) returns (r: Result<()>)
      requires Valid()
      modifies this`attempts
      ensures Valid()
      ensures r.Ok? ==> Port.RequestCancellation(old(View()), runId) == Ok(View())
      ensures r.Err? ==> Port.RequestCancellation(old(View()), runId) == Err(r.fault) && attempts == old(attempts)
    {
      hide Agrees, AuditTells, AnalysisRun.Valid, ToDict;
      if runId !in attempts {
        return Err(RunNotFound);
      }
      FlagKeepsConsistent(screen, Database(), runs, runId);
      if attempts[runId].status.IsTerminal() {
        return Ok(());
      }
      attempts := attempts[runId := attempts[runId].(cancelRequested := true)];
      r := Ok(());
    }

    method CancellationRequested(runId: string) returns (requested: bool)
      requires Valid()
      ensures requested == Port.CancellationRequested(View(), runId)
    {
      hide Agrees, PairsUnique, NoOrphans;
      requested := runId in attempts && attempts[runId].cancelRequested;
    }

    method ListRuns() returns (out: seq<AnalysisRun>)
      requires Valid()
      ensures Port.IsListing(View(), out)
    {
      hide Agrees, AnalysisRun.Valid, ToDict, FromDict, AnalysisRun.RunId;
      out := [];
      var rest := attempts.Keys;
      ghost var view := View();
      ghost var listed: Port.Runs := map[];
      while rest != {}
        invariant rest <= attempts.Keys
        invariant listed.Keys == attempts.Keys - rest
        invariant forall id :: id in listed ==> listed[id] == view[id]
        invariant Port.IsListing(listed, out)
      {
        var id :| id in rest;
        var run := ParseRow(screen, Database(), runs, id).value;
        KeysMatch(screen, Database(), runs, id);
        Port.InsertListing(listed, out, id, view[id]);
        out := Port.InsertNewest(out, run);
        rest := rest - {id};
        listed := listed[id := view[id]];
      }
      assert listed == view;
    }

    /** `create_retry_attempt`: one transaction over the locked previous row. */
    method CreateRetryAttempt(previousRunId: string, overrides: Overrides, runId: string, at: Instant)
      returns (r: Result<AnalysisRun>)
      requires Valid()
      modifies this
      ensures Valid()
      ensures r.Err? ==> Database() == old(Database()) && runs == old(runs)
      ensures r == RetrySpec(screen, old(View()), previousRunId, overrides, runId, at)
      ensures r.Ok? ==> View() == old(View())[runId := Port.Record(r.value, false)]
      ensures r.Ok? ==> Database() == Written(old(Database()), r.value, 1, false,
                                              AttemptRetried(r.value.origin.previousAttemptRunId), at)
    {
      hide Agrees, AuditTells, AnalysisRun.Valid, ToDict, FromDict;
      if previousRunId !in attempts {
        return Err(RunNotFound);
      }
      var previous := ParseRow(screen, Database(), runs, previousRunId).value;
      r := RetryFrom(screen, previous, overrides, runId, at);
      if r.Err? {
        return;
      }
      PairTakenInView(screen, Database(), runs, r.value);
      if runId in attempts || PairTaken(Database(), r.value) {
        return Err(UniqueViolation);
      }
      RetryKnowsLogical(screen, Database(), runs, previousRunId);
      var kind := AttemptRetried(r.value.origin.previousAttemptRunId);
      CreationAudit(Database(), r.value, kind, at);
      WriteKeepsConsistent(screen, Database(), runs, r.value, 1, false, kind, at);
      WriteAttempt(r.value, 1, false, kind, at);
    }
  }

  predicate StaleVersion(attempts: map<string, AttemptRow>, runId: string, expected: Option<int>) {
    runId in attempts && expected.Some? && expected.value != attempts[runId].version
  }

  /** What a retry creates, or why not, in terms of the port's view. */
  function RetrySpec(sc: Screen, runs: Port.Runs, previousRunId: string, overrides: Overrides, runId: string,
                     at: Instant): Result<AnalysisRun>
  {
    var previous :- Port.Load(runs, previousRunId);
    var retry :- RetryFrom(sc, previous, overrides, runId, at);
    if runId in runs || Port.PairTaken(runs, retry) then Err(UniqueViolation) else Ok(retry)
  }

  /** Reading a row back: its manifest parses to the run it was printed from. */
  function ParseRow(sc: Screen, t: Tables, ghost runs: map<string, AnalysisRun>, runId: string)
    : (r: Result<AnalysisRun>)
    requires Consistent(sc, t, runs) && runId in t.attempts
    ensures r == Ok(runs[runId])
  {
    assert Agrees(sc, t, runId, runs[runId]);
    RunRoundTrip(sc, runs[runId]);
    FromDict(sc, t.attempts[runId].manifest)
  }

  lemma KeysMatch(sc: Screen, t: Tables, runs: map<string, AnalysisRun>, id: string)
    requires Consistent(sc, t, runs) && id in runs
    ensures runs[id].RunId() == id
  {
    assert Agrees(sc, t, id, runs[id]);
  }

  lemma RetryKnowsLogical(sc: Screen, t: Tables, runs: map<string, AnalysisRun>, previousRunId: string)
    requires Consistent(sc, t, runs) && previousRunId in runs
    ensures runs[previousRunId].origin.logicalAnalysisId in t.logicalAnalyses
  {
    assert Agrees(sc, t, previousRunId, runs[previousRunId]);
  }

  lemma UpdateAudit(trail: seq<AuditEvent>, current: AnalysisRun, run: AnalysisRun, version: int, at: Instant)
    requires AuditTells(trail, current, version) && current.origin == run.origin
    ensures AuditTells(trail + [EventOf(run, AttemptUpdated(run.status, version + 1), at)], run, version + 1)
  {
  }

  lemma UpdateFacts(sc: Screen, t: Tables, runs: map<string, AnalysisRun>, run: AnalysisRun, at: Instant)
    requires Consistent(sc, t, runs) && run.RunId() in runs && runs[run.RunId()].origin == run.origin
    ensures run.origin.logicalAnalysisId in t.logicalAnalyses
    ensures var version := t.attempts[run.RunId()].version;
            AuditTells(AuditOf(t.auditEvents, run.RunId())
                         + [EventOf(run, AttemptUpdated(run.status, version + 1), at)], run, version + 1)
  {
    hide AnalysisRun.Valid, ToDict, AuditTells;
    assert Agrees(sc, t, run.RunId(), runs[run.RunId()]);
    UpdateAudit(AuditOf(t.auditEvents, run.RunId()), runs[run.RunId()], run, t.attempts[run.RunId()].version, at);
  }

  /** A saved replacement lengthens the audit trail by its own numbered event. */
  lemma SaveKeepsConsistent(sc: Screen, t: Tables, runs: map<string, AnalysisRun>, run: AnalysisRun, at: Instant)
    requires Consistent(sc, t, runs) && run.RunId() in t.attempts && run.Valid(sc)
    requires EnsureTransitionAllowed(runs[run.RunId()], run).Ok?
    ensures var row := t.attempts[run.RunId()];
            var t' := Written(t, run, row.version + 1, row.cancelRequested,
                              AttemptUpdated(run.status, row.version + 1), at);
            && Consistent(sc, t', runs[run.RunId() := run])
            && PostgresView(t', runs[run.RunId() := run])
               == PostgresView(t, runs)[run.RunId() := Port.Record(run, row.cancelRequested)]
  {
    hide AnalysisRun.Valid, ToDict, AuditTells, Agrees;
    var row := t.attempts[run.RunId()];
    UpdateFacts(sc, t, runs, run, at);
    PairStillFree(sc, t, runs, run);
    WriteKeepsConsistent(sc, t, runs, run, row.version + 1, row.cancelRequested,
                         AttemptUpdated(run.status, row.version + 1), at);
  }

  lemma PairStillFree(sc: Screen, t: Tables, runs: map<string, AnalysisRun>, run: AnalysisRun)
    requires Consistent(sc, t, runs) && run.RunId() in t.attempts && runs[run.RunId()].origin == run.origin
    ensures forall id :: id in t.attempts && id != run.RunId() ==>
      || t.attempts[id].logicalAnalysisId != run.origin.logicalAnalysisId
      || t.attempts[id].attemptNumber != run.origin.attemptNumber
  {
    hide AnalysisRun.Valid, ToDict, AuditTells;
    assert Agrees(sc, t, run.RunId(), runs[run.RunId()]);
  }

  function Flagged(t: Tables, runId: string): Tables
    requires runId in t.attempts
  {
    t.(attempts := t.attempts[runId := t.attempts[runId].(cancelRequested := true)])
  }

  lemma FlagAgrees(sc: Screen, t: Tables, runId: string, id: string, run: AnalysisRun)
    requires runId in t.attempts && id in t.attempts && Agrees(sc, t, id, run)
    ensures Agrees(sc, Flagged(t, runId), id, run)
    ensures t.attempts[id].status == run.status
  {
    hide AuditTells, AnalysisRun.Valid, ToDict;
  }

  lemma FlagKeepsKeys(t: Tables, runId: string)
    requires runId in t.attempts && PairsUnique(t) && NoOrphans(t)
    ensures PairsUnique(Flagged(t, runId)) && NoOrphans(Flagged(t, runId))
  {
  }

  lemma FlagKeepsConsistent(sc: Screen, t: Tables, runs: map<string, AnalysisRun>, runId: string)
    requires Consistent(sc, t, runs) && runId in t.attempts
    ensures Consistent(sc, Flagged(t, runId), runs)
    ensures PostgresView(Flagged(t, runId), runs) == PostgresView(t, runs)[runId := Port.Record(runs[runId], true)]
    ensures t.attempts[runId].status == runs[runId].status
  {
    hide Agrees, AuditTells, AnalysisRun.Valid, ToDict, PairsUnique, NoOrphans;
    FlagKeepsKeys(t, runId);
    forall id | id in runs
      ensures Agrees(sc, Flagged(t, runId), id, runs[id]) && t.attempts[id].status == runs[id].status
    {
      FlagAgrees(sc, t, runId, id, runs[id]);
    }
  }

  lemma LogicalAgrees(sc: Screen, t: Tables, t': Tables, id: string, run: AnalysisRun)
    requires id in t.attempts && Agrees(sc, t, id, run)
    requires t' == t.(logicalAnalyses := t'.logicalAnalyses)
    requires t.logicalAnalyses.Keys <= t'.logicalAnalyses.Keys
    ensures Agrees(sc, t', id, run)
  {
    hide AuditTells, AnalysisRun.Valid, ToDict;
  }

  /** Adding a logical analysis disturbs no attempt. */
  lemma LogicalInsertKeeps(sc: Screen, t: Tables, t': Tables, runs: map<string, AnalysisRun>)
    requires Consistent(sc, t, runs)
    requires t' == t.(logicalAnalyses := t'.logicalAnalyses)
    requires t.logicalAnalyses.Keys <= t'.logicalAnalyses.Keys
    ensures Consistent(sc, t', runs)
  {
    hide Agrees;
    forall id | id in runs ensures Agrees(sc, t', id, runs[id]) {
      LogicalAgrees(sc, t, t', id, runs[id]);
    }
  }

  lemma PairTakenInView(sc: Screen, t: Tables, runs: map<string, AnalysisRun>, run: AnalysisRun)
    requires Consistent(sc, t, runs)
    ensures PairTaken(t, run) <==> Port.PairTaken(PostgresView(t, runs), run)
  {
    hide AuditTells, AnalysisRun.Valid, ToDict;
    var view := PostgresView(t, runs);
    forall id | id in t.attempts
      ensures t.attempts[id].logicalAnalysisId == view[id].manifest.origin.logicalAnalysisId
      ensures t.attempts[id].attemptNumber == view[id].manifest.origin.attemptNumber
    {
      assert Agrees(sc, t, id, runs[id]);
    }
    if Port.PairTaken(view, run) {
      var id :| id in view && view[id].manifest.origin.logicalAnalysisId == run.origin.logicalAnalysisId
        && view[id].manifest.origin.attemptNumber == run.origin.attemptNumber;
      assert id in t.attempts;
    }
    if PairTaken(t, run) {
      var id :| id in t.attempts && t.attempts[id].logicalAnalysisId == run.origin.logicalAnalysisId
        && t.attempts[id].attemptNumber == run.origin.attemptNumber;
      assert id in view;
    }
  }

  lemma CreationAudit(t: Tables, run: AnalysisRun, kind: AuditKind, at: Instant)
    requires NoOrphans(t) && run.RunId() !in t.attempts && run.status.Queued?
    requires kind.AttemptCreated? || kind.AttemptRetried?
    ensures AuditTells(AuditOf(t.auditEvents, run.RunId()) + [EventOf(run, kind, at)], run, 1)
  {
    AuditOfNone(t.auditEvents, run.RunId());
  }
}
