/** Exactly when an undisturbed execution of a fresh run succeeds. */
module ExactSuccess {
  import opened Outcomes
  import opened JsonValues
  import opened Contract
  import opened Jobs
  import opened ObjectKeys
  import opened ObjectStorage
  import opened ExecutorMachine
  import opened RecordValidity
  import opened ExecutionInvariant
  import opened CrashResume
  import opened Redelivery
  import Port = RepositoryPort

  // ---------------------------------------------------------------- artifact paths

  lemma {:induction false} SplitPlain(x: string)
    requires '/' !in x
    ensures Split(x) == [x]
  {
    if x != "" {
      SplitPlain(x[1..]);
      assert x == [x[0]] + x[1..];
    }
  }

  lemma {:induction false} SplitAfter(a: string, x: string)
    requires '/' !in a
    ensures Split(a + "/" + x) == [a] + Split(x)
  {
    var s := a + "/" + x;
    if a == "" {
      assert s[1..] == x;
    } else {
      assert s[1..] == a[1..] + "/" + x;
      SplitAfter(a[1..], x);
      assert a == [a[0]] + a[1..];
    }
  }

  lemma FileInArtifacts(file: string)
    requires '/' !in file && '\\' !in file && file !in {"", ".", ".."}
    ensures IsArtifactPath("artifacts/" + file)
  {
    var path := "artifacts/" + file;
    assert path == "artifacts" + "/" + file;
    SplitAfter("artifacts", file);
    SplitPlain(file);
    assert !IsSpace(path[0]);
  }

  // ---------------------------------------------------------------- which plans can be written

  predicate Publishable(payloads: seq<Payload>) {
    && (forall i :: 0 <= i < |payloads| ==> CategoryOf(payloads[i].artifactId).Some? && NonEmptyText(payloads[i].schema))
    && FindPayload(payloads, "track-summary").Some?
    && FindPayload(payloads, "workload-advisory").Some?
    && FindPayload(payloads, "workload-advisory").value.tracks.Some?
  }

  ghost predicate NoArtifacts(mine: Objects, runId: string) {
    forall i :: 0 <= i < |mine| ==> !HasPrefix(mine[i].0, ArtifactPrefix(runId))
  }

  lemma KnownIdentifiers(id: string)
    requires CategoryOf(id).Some?
    ensures IsIdentifier(id) && |id| > 2
  {
  }

  lemma IdentifierIsPlain(id: string)
    requires IsIdentifier(id)
    ensures '/' !in id && '\\' !in id
  {
  }

  lemma KnownIds(id: string)
    requires CategoryOf(id).Some?
    ensures IsIdentifier(id) && NonEmptyText(CategoryOf(id).value.1)
    ensures '/' !in id && '\\' !in id && |id| > 2
  {
    KnownNames(id);
    KnownIdentifiers(id);
    IdentifierIsPlain(id);
    hide CategoryOf, IsIdentifier;
  }

  lemma KnownNames(id: string)
    requires CategoryOf(id).Some?
    ensures NonEmptyText(CategoryOf(id).value.1)
  {
    var name := CategoryOf(id).value.1;
    assert !IsSpace(name[|name| - 1]);
  }

  lemma JsonFile(id: string)
    requires '/' !in id && '\\' !in id && |id| > 2
    ensures IsArtifactPath(ArtifactFile(id))
  {
    var file := id + ".json";
    assert ArtifactFile(id) == "artifacts/" + file;
    FileInArtifacts(file);
  }

  lemma FreeKey(runId: string, path: string, mine: Objects)
    requires IsUuid4(runId) && IsArtifactPath(path) && NoArtifacts(mine, runId)
    ensures ArtifactKey(runId, path).Ok? && !HasKey(mine, RunPrefix(runId) + path)
  {
    ArtifactApartFromInputs(runId, path, runId);
  }

  lemma MediaType()
    ensures NonEmptyText("application/json")
  {
    var s := "application/json";
    assert !IsSpace(s[|s| - 1]);
  }

  lemma PayloadWritable(cfg: Config, runId: string, mine: Objects, p: Payload)
    requires IsUuid4(runId) && NoArtifacts(mine, runId)
    ensures Writable(cfg, runId, mine, PayloadItem(cfg, p)) <==>
              CategoryOf(p.artifactId).Some? && NonEmptyText(p.schema)
  {
    hide CategoryOf, IsArtifactPath, IsIdentifier, NonEmptyText, NoArtifacts, ArtifactKey, HasKey, IsUuid4;
    if CategoryOf(p.artifactId).Some? {
      KnownIds(p.artifactId);
      JsonFile(p.artifactId);
      FreeKey(runId, ArtifactFile(p.artifactId), mine);
      MediaType();
    }
  }

  lemma AliasTexts()
    ensures IsIdentifier("legacy-player-summary") && IsIdentifier("dashboard-workload-advisory")
    ensures NonEmptyText("Dashboard track summary") && NonEmptyText("Dashboard workload advisory")
    ensures NonEmptyText("footballai.track-summary/v1") && NonEmptyText("footballai.workload-advisory/v1")
  {
    var a, b, c, d := "Dashboard track summary", "Dashboard workload advisory", "footballai.track-summary/v1",
                      "footballai.workload-advisory/v1";
    assert !IsSpace(a[|a| - 1]) && !IsSpace(b[|b| - 1]) && !IsSpace(c[|c| - 1]) && !IsSpace(d[|d| - 1]);
  }

  lemma AliasesWritable(cfg: Config, runId: string, mine: Objects, payloads: seq<Payload>)
    requires IsUuid4(runId) && NoArtifacts(mine, runId)
    ensures Writable(cfg, runId, mine, SummaryAlias(cfg, payloads)) <==> FindPayload(payloads, "track-summary").Some?
    ensures Writable(cfg, runId, mine, AdvisoryAlias(cfg, payloads)) <==>
              && FindPayload(payloads, "workload-advisory").Some?
              && FindPayload(payloads, "workload-advisory").value.tracks.Some?
  {
    hide IsArtifactPath, IsIdentifier, NonEmptyText, NoArtifacts, ArtifactKey, HasKey, IsUuid4, FindPayload,
         ArtifactFile;
    AliasTexts();
    JsonFile("dashboard-track-summary");
    JsonFile("dashboard-workload-advisory");
    MediaType();
    FreeKey(runId, ArtifactFile("dashboard-track-summary"), mine);
    FreeKey(runId, ArtifactFile("dashboard-workload-advisory"), mine);
  }

  /** With no artifact stored yet, the whole plan can be written exactly when every document has a
      known id and a schema, and the two the dashboard needs are among them. */
  lemma PlanWritable(cfg: Config, runId: string, mine: Objects, payloads: seq<Payload>)
    requires IsUuid4(runId) && NoArtifacts(mine, runId)
    ensures CanWrite(cfg, runId, mine, Plan(cfg, payloads), 0) <==> Publishable(payloads)
  {
    hide Writable, PayloadItem, SummaryAlias, AdvisoryAlias, CategoryOf, FindPayload, NoArtifacts, IsUuid4, NonEmptyText;
    var plan, n := Plan(cfg, payloads), |payloads|;
    AliasesWritable(cfg, runId, mine, payloads);
    assert plan[n] == SummaryAlias(cfg, payloads) && plan[n + 1] == AdvisoryAlias(cfg, payloads);
    forall i | 0 <= i < n
      ensures Writable(cfg, runId, mine, plan[i]) <==>
                CategoryOf(payloads[i].artifactId).Some? && NonEmptyText(payloads[i].schema)
    {
      PayloadWritable(cfg, runId, mine, payloads[i]);
      assert plan[i] == PayloadItem(cfg, payloads[i]);
    }
  }

  // ---------------------------------------------------------------- exact success

  /** What a caller can check beforehand: the test profile does not stop it, its stages can be
      concluded, it has one input, and the pipeline turns that input into publishable documents. */
  predicate WillSucceed(cfg: Config, job: ExecutionJob, m: AnalysisRun, mine: Objects) {
    && !(Blocked(job) && |m.stages| > 2)
    && Concludes(m)
    && InputObject(mine, job.runId).Ok?
    && var built := cfg.build(job.profile, m.origin, InputObject(mine, job.runId).value.1.data, false);
       built.Built? && Publishable(built.payloads)
  }

  lemma FateExactly(cfg: Config, job: ExecutionJob, m: AnalysisRun, mine: Objects)
    requires !m.status.IsTerminal() && IsUuid4(job.runId) && NoArtifacts(mine, job.runId)
    requires CancelsOnlyOnRequest(cfg)
    ensures StartFate(cfg, job, m, mine).status == if WillSucceed(cfg, job, m, mine) then EndStatus(m) else Failed
  {
    hide Plan, CanWrite, InputObject, NoArtifacts, Publishable, Concludes;
    if InputObject(mine, job.runId).Ok? {
      var built := cfg.build(job.profile, m.origin, InputObject(mine, job.runId).value.1.data, false);
      if built.Built? {
        PlanWritable(cfg, job.runId, mine, built.payloads);
      }
    }
  }

  /** A complete, undisturbed execution of a run without artifacts ends succeeded, or partial when
      that is forced, if and only if `WillSucceed` held at its start; otherwise it ends failed. */
  lemma SucceedsExactly(cfg: Config, job: ExecutionJob, s: Shared, d: Delivery)
    requires GoodConfig(cfg) && CancelsOnlyOnRequest(cfg) && Calm(cfg, job, Loading, s)
    requires Peaceful(job.runId, d.env) && !Stored(job, s).status.IsTerminal()
    requires NoArtifacts(Mine(s.objects, job.runId), job.runId)
    requires Run(cfg, job, d.worker, d.env, Loading, s, 0, d.crashAt).0.Done?
    ensures var s' := Run(cfg, job, d.worker, d.env, Loading, s, 0, d.crashAt).1;
            && job.runId in s'.runs
            && Stored(job, s').status ==
                 if WillSucceed(cfg, job, Stored(job, s), Mine(s.objects, job.runId)) then EndStatus(Stored(job, s))
                 else Failed
  {
    hide GoodConfig, ObjectsInv, PayloadInv, Duration, Run, Mine, NoArtifacts, WillSucceed, BuildFate, Peaceful,
         CancelsOnlyOnRequest, Blocked;
    UninterruptedOutcome(cfg, job, s, d);
    TryableId(cfg, job, s);
    FateExactly(cfg, job, Stored(job, s), Mine(s.objects, job.runId));
  }

  lemma TryableId(cfg: Config, job: ExecutionJob, s: Shared)
    requires Inv(cfg, job, Loading, s)
    ensures IsUuid4(job.runId)
  {
    hide AnalysisRun.ComponentsValid, PcInv, Stamped;
  }

  // ---------------------------------------------------------------- the theorems apply

  const SOME_ID := "00000000-0000-4000-8000-000000000000"

  function SomeDigest(): Digest {
    seq(64, _ => '0')
  }

  function SomePayloads(): seq<Payload> {
    [Payload("track-summary", "s", Null, None), Payload("workload-advisory", "s", Null, Some(Null))]
  }

  function SomeConfig(): Config {
    Config(Screen((text: string) => false, (key: Key) => false), (b: Bytes) => SomeDigest(),
           (p: Profile, o: Provenance, b: Bytes, c: bool) => Built(SomePayloads()), (j: Json) => [], (j: Json) => [],
           (t: string) => None, (j: ExecutionJob, w: string, n: StageName) => map[])
  }

  function SomeRun(): AnalysisRun {
    AnalysisRun(
      Provenance(CONTRACT_VERSION, SOME_ID, SOME_ID, 1, None, Real, InputReference("i", SomeDigest(), "v"),
                 CodeReference("r", seq(40, _ => '0'), false), "p", map[], [], 0),
      Queued, [], [StageExecution("ingestion", Ingestion, true, StageQueued, 0.0, 1, None, None, [], None, map[], None)],
      None, None, None, None, None)
  }

  function SomeJob(): ExecutionJob {
    ExecutionJob(SOME_ID, SOME_ID, SOME_ID, 1, DemoFast, 0, None, None)
  }

  const SOME_INPUT := (InputPrefix(SOME_ID) + "source" + ".mp4", StoredObject([], None, SomeDigest(), 0, "v"))

  function SomeState(): Shared {
    Shared(map[SOME_ID := Port.Record(SomeRun(), false)], [SOME_INPUT], 0)
  }

  lemma SomeIdOk()
    ensures IsUuid4(SOME_ID)
  {
  }

  lemma SomeTexts()
    ensures NonEmptyText("i") && NonEmptyText("v") && NonEmptyText("r") && NonEmptyText("p") && NonEmptyText("s")
    ensures IsIdentifier("ingestion")
  {
    assert "i"[0] == 'i' && "v"[0] == 'v' && "r"[0] == 'r' && "p"[0] == 'p' && "s"[0] == 's';
  }

  lemma SomeRunValid()
    ensures SomeRun().Valid(SomeConfig().screen) && Stamped(SomeRun(), 0)
  {
    hide NonEmptyText, IsIdentifier, IsUuid4;
    SomeIdOk();
    SomeTexts();
    var stages := SomeRun().stages;
    assert Linked(stages[0], 1, []);
  }

  lemma SomeConfigGood()
    ensures GoodConfig(SomeConfig()) && CancelsOnlyOnRequest(SomeConfig())
  {
    hide TextOf, StageTitle, StageKey;
    assert "track-summary" != "workload-advisory";
  }

  lemma SomeInput()
    ensures !HasPrefix(SOME_INPUT.0, ArtifactPrefix(SOME_ID))
    ensures Mine([SOME_INPUT], SOME_ID) == [SOME_INPUT] && InputObject([SOME_INPUT], SOME_ID).Ok?
  {
    SomeIdOk();
    hide IsUuid4;
    var extension := ".mp4";
    assert InputKey(SOME_ID, extension) == Ok(SOME_INPUT.0);
    InputApartFromArtifacts(SOME_ID, extension, SOME_ID);
    InputPrefixNamesRun(SOME_ID, extension, SOME_ID);
    InputKeyShape(SOME_ID, extension);
    InputUnderRun(SOME_INPUT, SOME_ID);
    assert [SOME_INPUT][1..] == [];
    MineStep([SOME_INPUT], SOME_ID);
    assert IsInputOf(SOME_INPUT, SOME_ID);
    assert Inputs([SOME_INPUT], SOME_ID) == [SOME_INPUT] + Inputs([], SOME_ID) == [SOME_INPUT];
  }

  lemma SomePayloadsPublishable()
    ensures Publishable(SomePayloads())
  {
    SomeTexts();
    hide NonEmptyText;
    var payloads := SomePayloads();
    assert CategoryOf("track-summary").Some? && CategoryOf("workload-advisory").Some?;
    assert payloads[1..][0] == payloads[1];
  }

  /** The assumptions of the theorems can be met, success included. */
  lemma SuccessIsPossible()
    ensures GoodConfig(SomeConfig()) && CancelsOnlyOnRequest(SomeConfig())
    ensures Calm(SomeConfig(), SomeJob(), Loading, SomeState())
    ensures NoArtifacts(Mine(SomeState().objects, SomeJob().runId), SomeJob().runId)
    ensures WillSucceed(SomeConfig(), SomeJob(), SomeRun(), Mine(SomeState().objects, SomeJob().runId))
  {
    hide GoodConfig, NonEmptyText, IsUuid4, AnalysisRun.Valid, Mine, InputObject, Publishable, Inv, ObjectsInv,
         PayloadInv;
    SomeConfigGood();
    SomeRunValid();
    SomeInput();
    SomePayloadsPublishable();
    FreshRunIsCalm(SomeConfig(), SomeJob(), SomeState());
  }
}
