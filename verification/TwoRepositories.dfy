/** The local store and the PostgreSQL repository, driven by the same calls. */
module TwoRepositories {
  import opened Outcomes
  import opened JsonValues
  import opened Contract
  import opened ObjectStorage
  import opened LocalStore
  import opened Postgres
  import Port = RepositoryPort

  /** The repository port's calls, and the artifact writes that go to disk beside the local store. */
  datatype Call =
    | CreateCall(run: AnalysisRun)
    | SaveCall(run: AnalysisRun)
    | LoadCall(runId: string)
    | ListCall
    | RequestCall(runId: string)
    | FlagCall(runId: string)
    | WriteCall(runId: string, spec: ArtifactSpec)

  /** What the caller sees; a listing up to the order of runs created at the same instant. */
  datatype Answer =
    | Done
    | Refused(fault: Fault)
    | Found(run: AnalysisRun)
    | Listed(runs: multiset<AnalysisRun>)
    | Flag(requested: bool)

  datatype World = World(runs: Port.Runs, files: Files)

  /** Everything stored, once each. */
  ghost function Everything(runs: Port.Runs): multiset<AnalysisRun> {
    multiset(set id | id in runs :: runs[id].manifest)
  }

  /** One call on the specification. */
  ghost function Specified(sha: Bytes -> Digest, w: World, call: Call): (Answer, World) {
    match call
    case CreateCall(run) =>
      (match Port.Create(w.runs, run)
       case Ok(runs) => (Done, w.(runs := runs))
       case Err(f) => (Refused(f), w))
    case SaveCall(run) =>
      (match Port.Save(w.runs, run)
       case Ok(runs) => (Done, w.(runs := runs))
       case Err(f) => (Refused(f), w))
    case LoadCall(runId) =>
      (match Port.Load(w.runs, runId)
       case Ok(run) => (Found(run), w)
       case Err(f) => (Refused(f), w))
    case ListCall => (Listed(Everything(w.runs)), w)
    case RequestCall(runId) =>
      (match Port.RequestCancellation(w.runs, runId)
       case Ok(runs) => (Done, w.(runs := runs))
       case Err(f) => (Refused(f), w))
    case FlagCall(runId) => (Flag(Port.CancellationRequested(w.runs, runId)), w)
    case WriteCall(runId, spec) => (Done, w.(files := WriteSpec(sha, w.runs, w.files, runId, spec).1))
  }

  /** The local store: it also checks the bytes behind a terminal manifest. */
  ghost function LocalAnswer(sha: Bytes -> Digest, w: World, call: Call): (Answer, World) {
    match call
    case SaveCall(run) =>
      (match SaveSpec(sha, w.runs, w.files, run)
       case Ok(runs) => (Done, w.(runs := runs))
       case Err(f) => (Refused(f), w))
    case _ => Specified(sha, w, call)
  }

  /** PostgreSQL: its constraint also refuses a second run with the same logical analysis and
      attempt number. */
  ghost function PostgresAnswer(sha: Bytes -> Digest, w: World, call: Call): (Answer, World) {
    match call
    case CreateCall(run) =>
      if Port.Create(w.runs, run).Ok? && Port.PairTaken(w.runs, run) then (Refused(UniqueViolation), w)
      else Specified(sha, w, call)
    case _ => Specified(sha, w, call)
  }

  /** Runs are contract-valid values and ids are UUIDs. */
  predicate WellFormed(sc: Screen, call: Call) {
    match call
    case CreateCall(run) => run.Valid(sc)
    case SaveCall(run) => run.Valid(sc)
    case LoadCall(runId) => IsUuid4(runId)
    case ListCall => true
    case RequestCall(runId) => IsUuid4(runId)
    case FlagCall(runId) => IsUuid4(runId)
    case WriteCall(runId, _) => IsUuid4(runId)
  }

  /** No admissible create repeats a pair, no admissible terminal save lists bytes not on disk. */
  predicate Ordinary(sc: Screen, sha: Bytes -> Digest, w: World, call: Call) {
    && WellFormed(sc, call)
    && (call.CreateCall? && Port.Create(w.runs, call.run).Ok? ==> !Port.PairTaken(w.runs, call.run))
    && (call.SaveCall? && call.run.status in {Succeeded, Partial} && Port.Save(w.runs, call.run).Ok? ==>
          FilesIntact(sha, w.files, call.run.RunId(), call.run.artifacts))
  }

  /** The adapters agree on a call exactly when it is ordinary, and then both follow the port. */
  lemma AgreeIffOrdinary(sc: Screen, sha: Bytes -> Digest, w: World, call: Call)
    requires WellFormed(sc, call)
    ensures LocalAnswer(sha, w, call) == PostgresAnswer(sha, w, call) <==> Ordinary(sc, sha, w, call)
    ensures Ordinary(sc, sha, w, call) ==> LocalAnswer(sha, w, call) == Specified(sha, w, call)
  {
    hide AnalysisRun.Valid, FilesIntact, WriteSpec, Port.PairTaken;
  }

  ghost predicate AllOrdinary(sc: Screen, sha: Bytes -> Digest, w: World, calls: seq<Call>)
    decreases |calls|
  {
    calls == [] ||
    (Ordinary(sc, sha, w, calls[0]) && AllOrdinary(sc, sha, Specified(sha, w, calls[0]).1, calls[1..]))
  }

  ghost function Answers(sha: Bytes -> Digest, w: World, calls: seq<Call>): (r: seq<Answer>)
    ensures |r| == |calls|
    decreases |calls|
  {
    if calls == [] then []
    else
      var (answer, next) := Specified(sha, w, calls[0]);
      [answer] + Answers(sha, next, calls[1..])
  }

  ghost function Final(sha: Bytes -> Digest, w: World, calls: seq<Call>): World
    decreases |calls|
  {
    if calls == [] then w else Final(sha, Specified(sha, w, calls[0]).1, calls[1..])
  }

  lemma ListingIsEverything(runs: Port.Runs, out: seq<AnalysisRun>)
    requires Port.WellKeyed(runs) && Port.IsListing(runs, out)
    ensures multiset(out) == Everything(runs)
  {
    hide AnalysisRun.Valid;
    Port.ListingCounts(out);
    var all := set id | id in runs :: runs[id].manifest;
    forall r ensures multiset(out)[r] == multiset(all)[r] {
      assert r in out <==> r in all;
    }
  }

  // ---------------------------------------------------------------- each adapter answers as specified

  lemma LocalKeyed(store: LocalAnalysisRunStore)
    requires store.Valid()
    ensures Port.WellKeyed(store.View())
  {
    hide AnalysisRun.Valid;
  }

  lemma PostgresKeyed(repo: PostgreSQLAnalysisRepository)
    requires repo.Valid()
    ensures Port.WellKeyed(repo.View())
  {
    hide AnalysisRun.Valid;
    forall id | id in repo.runs ensures repo.runs[id].RunId() == id {
      KeysMatch(repo.screen, repo.Database(), repo.runs, id);
    }
  }

  method CallLocal(store: LocalAnalysisRunStore, call: Call) returns (a: Answer)
    requires store.Valid() && WellFormed(store.screen, call)
    modifies store
    ensures store.Valid()
    ensures (a, World(store.View(), store.files))
         == LocalAnswer(store.sha, old(World(store.View(), store.files)), call)
  {
    hide LocalAnalysisRunStore.Valid, LocalView, AnalysisRun.Valid, Port.Save, Port.Create, Port.RequestCancellation,
         WriteSpec, FilesIntact, SaveSpec;
    match call
    case CreateCall(run) =>
      var r := store.Create(run);
      a := if r.Ok? then Done else Refused(r.fault);
    case SaveCall(run) =>
      var r := store.Save(run);
      a := if r.Ok? then Done else Refused(r.fault);
    case LoadCall(runId) =>
      var r := store.Load(runId);
      a := if r.Ok? then Found(r.value) else Refused(r.fault);
    case ListCall =>
      var out := store.ListRuns();
      LocalKeyed(store);
      ListingIsEverything(store.View(), out);
      a := Listed(multiset(out));
    case RequestCall(runId) =>
      var r := store.RequestCancellation(runId);
      a := if r.Ok? then Done else Refused(r.fault);
    case FlagCall(runId) =>
      var r := store.CancellationRequested(runId);
      a := Flag(r.Ok? && r.value);
    case WriteCall(runId, spec) =>
      var _ := store.WriteArtifact(runId, spec);
      a := Done;
  }

  method CallPostgres(repo: PostgreSQLAnalysisRepository, call: Call, at: Instant, ghost sha: Bytes -> Digest,
                      ghost files: Files) returns (a: Answer)
    requires repo.Valid() && WellFormed(repo.screen, call)
    modifies repo
    ensures repo.Valid()
    ensures var (answer, after) := PostgresAnswer(sha, World(old(repo.View()), files), call);
            a == answer && repo.View() == after.runs
  {
    hide PostgreSQLAnalysisRepository.Valid, PostgresView, AnalysisRun.Valid, Port.Save, Port.Create,
         Port.RequestCancellation, WriteSpec, FilesIntact, Port.PairTaken;
    match call
    case CreateCall(run) =>
      var r := repo.Create(run, at);
      a := if r.Ok? then Done else Refused(r.fault);
    case SaveCall(run) =>
      var r := repo.Save(run, None, at);
      a := if r.Ok? then Done else Refused(r.fault);
    case LoadCall(runId) =>
      var r := repo.Load(runId);
      a := if r.Ok? then Found(r.value) else Refused(r.fault);
    case ListCall =>
      var out := repo.ListRuns();
      PostgresKeyed(repo);
      ListingIsEverything(repo.View(), out);
      a := Listed(multiset(out));
    case RequestCall(runId) =>
      var r := repo.RequestCancellation(runId);
      a := if r.Ok? then Done else Refused(r.fault);
    case FlagCall(runId) =>
      var requested := repo.CancellationRequested(runId);
      a := Flag(requested);
    case WriteCall(runId, spec) =>
      a := Done;
  }

  // ---------------------------------------------------------------- any sequence of calls

  /** Two repositories, one specification: driven by the same calls from the same view, both answer
      every call alike, as the port says, and hold the same runs and flags afterwards. */
  method DriveBoth(store: LocalAnalysisRunStore, repo: PostgreSQLAnalysisRepository, calls: seq<Call>, at: Instant)
    returns (local: seq<Answer>, cloud: seq<Answer>)
    requires store.Valid() && repo.Valid() && store.screen == repo.screen && store.View() == repo.View()
    requires AllOrdinary(store.screen, store.sha, World(store.View(), store.files), calls)
    modifies store, repo
    ensures store.Valid() && repo.Valid()
    ensures local == cloud == Answers(store.sha, old(World(store.View(), store.files)), calls)
    ensures store.View() == repo.View() == Final(store.sha, old(World(store.View(), store.files)), calls).runs
  {
    hide LocalAnalysisRunStore.Valid, PostgreSQLAnalysisRepository.Valid, PostgresView, LocalView, AnalysisRun.Valid,
         Specified, LocalAnswer, PostgresAnswer;
    local, cloud := [], [];
    ghost var start := World(store.View(), store.files);
    for k := 0 to |calls|
      invariant store.Valid() && repo.Valid() && store.View() == repo.View()
      invariant AllOrdinary(store.screen, store.sha, World(store.View(), store.files), calls[k..])
      invariant local == cloud
      invariant Answers(store.sha, start, calls)
             == local + Answers(store.sha, World(store.View(), store.files), calls[k..])
      invariant Final(store.sha, start, calls) == Final(store.sha, World(store.View(), store.files), calls[k..])
    {
      AgreeIffOrdinary(store.screen, store.sha, World(store.View(), store.files), calls[k]);
      assert calls[k..][0] == calls[k] && calls[k..][1..] == calls[k + 1..];
      var there := CallPostgres(repo, calls[k], at, store.sha, store.files);
      var here := CallLocal(store, calls[k]);
      local, cloud := local + [here], cloud + [there];
    }
    assert calls[|calls|..] == [];
  }
}
