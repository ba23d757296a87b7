/** Concrete inputs at which the code falls short of what its documentation promises. */
module Witnesses {
  import opened Outcomes
  import opened JsonValues
  import opened Contract
  import opened Jobs
  import opened ObjectKeys
  import opened ObjectStorage
  import opened ExecutorMachine
  import opened RecordValidity
  import opened ExecutionInvariant
  import opened CrashResume
  import opened Redelivery
  import opened TerminalSets
  import opened ExactSuccess
  import opened DoomingCrashes
  import LocalStore
  import TwoRepositories
  import opened NewAttempts
  import opened UploadService
  import Port = RepositoryPort

  // ---------------------------------------------------------------- crashes and late flags

  lemma SomeFlagOnlyCancels()
    ensures FlagOnlyCancels(SomeConfig())
  {
  }

  lemma SomeSucceeds()
    ensures GoodConfig(SomeConfig()) && CancelsOnlyOnRequest(SomeConfig())
    ensures Calm(SomeConfig(), SomeJob(), Loading, SomeState())
    ensures SOME_ID in SomeState().runs && OutcomeFrom(SomeConfig(), SomeJob(), SomeState()).status == Succeeded
  {
    hide GoodConfig, Calm, WillSucceed, NoArtifacts, StartFate, IsUuid4, Mine;
    SuccessIsPossible();
    SomeIdOk();
    FateExactly(SomeConfig(), SomeJob(), SomeRun(), Mine(SomeState().objects, SOME_ID));
  }

  /** A crash of this otherwise successful run, alone in the world, leaves only failure. */
  lemma SomeCrashDoomsSomeRun(worker: string)
    ensures exists n: nat :: Dooms(SomeConfig(), SomeJob(), SomeState(), Delivery(worker, Alone(), n))
  {
    hide GoodConfig, Calm, OutcomeFrom, Dooms, Peaceful;
    SomeSucceeds();
    AloneIsPeaceful(SOME_ID);
    SomeCrashDooms(SomeConfig(), SomeJob(), SomeState(), worker, Alone());
  }

  /** A flag set late enough leaves this run to succeed. */
  lemma SomeLateFlagSucceeds(worker: string)
    ensures exists n: nat, fuel: nat :: n < fuel && SucceedsFlagged(SomeConfig(), SomeJob(), SomeState(), worker, n, fuel)
    ensures SOME_ID in SomeState().runs && OutcomeFrom(SomeConfig(), SomeJob(), SomeState()).status == Succeeded
  {
    hide GoodConfig, Calm, OutcomeFrom, SucceedsFlagged;
    SomeSucceeds();
    LateFlagSucceeds(SomeConfig(), SomeJob(), SomeState(), worker);
  }

  // ---------------------------------------------------------------- a forced partial end

  /** The same run, forced to end partial, its only stage optional. */
  function OptionalLastRun(): AnalysisRun {
    SomeRun().(origin := SomeRun().origin.(parameters := map[Named("force_partial") := Bool(true)]),
               stages := [SomeRun().stages[0].(required := false)])
  }

  function OptionalLastState(): Shared {
    Shared(map[SOME_ID := Port.Record(OptionalLastRun(), false)], [SOME_INPUT], 0)
  }

  lemma OptionalLastValid()
    ensures OptionalLastRun().Valid(SomeConfig().screen) && Stamped(OptionalLastRun(), 0)
    ensures !Concludes(OptionalLastRun()) && Duration(SomeConfig(), OptionalLastRun().origin.parameters).Ok?
  {
    SomeRunValid();
    var stages := OptionalLastRun().stages;
    assert Linked(SomeRun().stages[0], 1, []);
    assert Linked(stages[0], 1, []);
    hide IsUuid4, IsIdentifier, NonEmptyText, InputReference.Valid, CodeReference.Valid;
  }

  /** All its documents are publishable, and yet every complete execution of it fails. */
  lemma ForcedPartialEndFails(d: Delivery)
    requires Peaceful(SOME_ID, d.env)
    requires Run(SomeConfig(), SomeJob(), d.worker, d.env, Loading, OptionalLastState(), 0, d.crashAt).0.Done?
    ensures var s' := Run(SomeConfig(), SomeJob(), d.worker, d.env, Loading, OptionalLastState(), 0, d.crashAt).1;
            SOME_ID in s'.runs && Stored(SomeJob(), s').status.Failed?
    ensures ForcePartial(OptionalLastRun()) && Publishable(SomePayloads())
  {
    hide GoodConfig, AnalysisRun.Valid, Mine, InputObject, Publishable, Inv, ObjectsInv, PayloadInv, Run, Stamped,
         Peaceful, Duration, StartFate, CancelsOnlyOnRequest, HasPrefix;
    SomeConfigGood();
    OptionalLastValid();
    SomeInput();
    SomePayloadsPublishable();
    FreshRunIsCalm(SomeConfig(), SomeJob(), OptionalLastState());
    SucceedsExactly(SomeConfig(), SomeJob(), OptionalLastState(), d);
  }

  // ---------------------------------------------------------------- where the repositories differ

  const OTHER_ID := "11111111-1111-4111-8111-111111111111"

  /** The same first attempt of the same logical analysis under another run id. */
  function RepeatedPair(): AnalysisRun {
    SomeRun().(origin := SomeRun().origin.(runId := OTHER_ID))
  }

  lemma OtherIdOk()
    ensures IsUuid4(OTHER_ID) && OTHER_ID != SOME_ID
  {
    assert OTHER_ID[35] == '1' && SOME_ID[35] == '0';
  }

  lemma RepeatedPairValid()
    ensures RepeatedPair().Valid(SomeConfig().screen)
  {
    SomeRunValid();
    OtherIdOk();
    hide IsUuid4, IsIdentifier, NonEmptyText, InputReference.Valid, CodeReference.Valid, StageExecution.Valid, UniqueStages,
         LinksKnown;
  }

  /** Creating it is refused by PostgreSQL and accepted by the local store. */
  lemma RepositoriesDifferOnCreate()
    ensures var w := TwoRepositories.World(map[SOME_ID := Port.Record(SomeRun(), false)], map[]);
            var call := TwoRepositories.CreateCall(RepeatedPair());
            && TwoRepositories.WellFormed(SomeConfig().screen, call)
            && !TwoRepositories.Ordinary(SomeConfig().screen, SomeConfig().sha, w, call)
            && TwoRepositories.PostgresAnswer(SomeConfig().sha, w, call).0 == TwoRepositories.Refused(UniqueViolation)
            && TwoRepositories.LocalAnswer(SomeConfig().sha, w, call).0 == TwoRepositories.Done
  {
    hide AnalysisRun.Valid;
    RepeatedPairValid();
    OtherIdOk();
    var runs := map[SOME_ID := Port.Record(SomeRun(), false)];
    assert SOME_ID in runs && runs[SOME_ID].manifest.origin.logicalAnalysisId == RepeatedPair().origin.logicalAnalysisId;
    assert Port.PairTaken(runs, RepeatedPair());
  }

  function SomeRunning(): AnalysisRun {
    SomeRun().(status := Running, startedAt := Some(0))
  }

  /** A succeeded record of one artifact. */
  function SomeSucceeded(): AnalysisRun {
    SomeRun().(status := Succeeded, startedAt := Some(0), completedAt := Some(0),
               artifacts := [ArtifactReference("abc", "s", Summary, ArtifactFile("abc"), "v", SomeDigest(), 0, None)],
               stages := [SomeRun().stages[0].(status := StageSucceeded, progressPercent := 100.0, finishedAt := Some(0))])
  }

  lemma SomeArtifactValid()
    ensures SomeSucceeded().artifacts[0].Valid()
  {
    SomeTexts();
    hide NonEmptyText, ArtifactFile;
    assert '/' !in "abc" && '\\' !in "abc";
    JsonFile("abc");
    hide IsArtifactPath;
  }

  lemma SomeSucceededValid()
    ensures SomeSucceeded().Valid(SomeConfig().screen)
  {
    SomeRunValid();
    SomeArtifactValid();
    SomeTexts();
    hide IsUuid4, IsIdentifier, NonEmptyText, InputReference.Valid, CodeReference.Valid, ArtifactReference.Valid;
    assert Linked(SomeRun().stages[0], 1, []);
    assert Linked(SomeSucceeded().stages[0], 1, SomeSucceeded().artifacts);
  }

  /** Saving it with no file on disk is refused by the local store and accepted by PostgreSQL. */
  lemma RepositoriesDifferOnSave()
    ensures var w := TwoRepositories.World(map[SOME_ID := Port.Record(SomeRunning(), false)], map[]);
            var call := TwoRepositories.SaveCall(SomeSucceeded());
            && TwoRepositories.WellFormed(SomeConfig().screen, call)
            && !TwoRepositories.Ordinary(SomeConfig().screen, SomeConfig().sha, w, call)
            && TwoRepositories.PostgresAnswer(SomeConfig().sha, w, call).0 == TwoRepositories.Done
            && TwoRepositories.LocalAnswer(SomeConfig().sha, w, call).0 == TwoRepositories.Refused(TransitionForbidden)
  {
    hide AnalysisRun.Valid;
    SomeSucceededValid();
    assert !LocalStore.FilesIntact(SomeConfig().sha, map[], SOME_ID, SomeSucceeded().artifacts) by {
      assert !LocalStore.FileIntact(SomeConfig().sha, map[], SOME_ID, SomeSucceeded().artifacts[0]);
    }
  }

  // ---------------------------------------------------------------- a lost job

  function SomeFinalize(enqueueing: Enqueueing): Finalize {
    Finalize(SOME_ID, Ok(Finalized("i", SomeDigest(), "v")), SOME_ID, OTHER_ID, DemoFast, Real,
             CodeReference("r", seq(40, _ => '0'), false), map[], 0, enqueueing)
  }

  lemma SomeAttemptOk(enqueueing: Enqueueing)
    ensures Attempt(SomeConfig().screen, SomeFinalize(enqueueing)).Ok?
  {
    hide Attempt, IsUuid4, NonEmptyText;
    SomeIdOk();
    SomeTexts();
    UploadIs(SomeConfig().screen, SomeFinalize(enqueueing));
  }

  /** A finalize that dies before it enqueues, then one that would not: the attempt is there, queued,
      and has no job. */
  lemma FinalizeLosesJob()
    ensures var calls := [SomeFinalize(Died), SomeFinalize(Accepted)];
            var service := AfterAll(SomeConfig().screen, calls);
            SOME_ID in service.runs && !HasJob(service, SOME_ID)
  {
    hide Attempt, AfterFinalize, JobsOnce, HasJob, AfterAll, SomeConfig;
    var sc := SomeConfig().screen;
    var calls := [SomeFinalize(Died), SomeFinalize(Accepted)];
    SomeAttemptOk(Died);
    FinalizeOnce(sc, calls, SOME_ID);
    assert calls[..0] == [];
    NoRunsYet(sc);
    assert Creates(sc, calls, 0, SOME_ID);
  }

  lemma NoRunsYet(sc: Screen)
    ensures AfterAll(sc, []).runs == map[]
  {
  }
}
