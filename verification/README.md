# FootballAI verification model

A Dafny model of the FootballAI control plane and of the numeric cores of its
analysis pipeline, with proofs of what they promise. `dafny verify dfyconfig.toml`
checks the whole project.

## What is modelled

| file | part of the system |
|---|---|
| `Outcomes.dfy`, `Contract.dfy`, `Manifest.dfy`, `ManifestAccepts.dfy` | the `AnalysisRun` contract: validity, transitions, `to_dict`/`from_dict`, and the documents accepted |
| `Lifecycle.dfy`, `Postgres.dfy`, `PostgresColumns.dfy`, `LocalStore.dfy`, `TwoRepositories.dfy` | the repository port, its two adapters, and both driven by the same calls |
| `ObjectStorage.dfy` | run-scoped keys and write-once objects |
| `Jobs.dfy`, `ExecutorMachine.dfy`, `Executor.dfy` | `execute` as a step machine, one shared access per step, and as imperative code proved equal to it |
| `RecordValidity.dfy`, `ExecutionInvariant.dfy`, `SavedRecords.dfy` | every record `execute` builds is valid; the stage shape through crashes and redeliveries; what each save changes |
| `ExecutorEffects.dfy`, `CrashResume.dfy`, `Redelivery.dfy`, `ExactSuccess.dfy` | termination, the outcome in closed form, what a crash does to it, and exactly when a run succeeds |
| `TerminalSets.dfy`, `PublishedContents.dfy`, `DoomingCrashes.dfy` | what terminal manifests list, cancellation requested or not, with which bytes, and which crashes leave only failure |
| `CancelLatency.dfy`, `FlagFates.dfy` | how much still happens after a cancellation request, and exactly which executions it cancels |
| `Unreadable.dfy` | exactly when `execute` raises, and what it leaves |
| `Witnesses.dfy` | concrete inputs for the section on broken promises below |
| `Protocol.dfy`, `ProtocolSteps.dfy`, `ProtocolTheorems.dfy` | the whole service as a transition system: agreement, published artifacts, attempt chains |
| `FilesystemQueue.dfy`, `QueueConservation.dfy`, `ClaimRace.dfy` | the filesystem queue, its operation sequences, and its claim at rename granularity |
| `ServiceBus.dfy`, `BusProtocol.dfy` | the Service Bus drain loop, alone and against many workers with expiring locks |
| `Worker.dfy` | the worker's claim, execute and settle loop over the filesystem queue |
| `UploadService.dfy`, `NewAttempts.dfy` | `finalize`, called at least once per upload; what uploads and retries create |
| `Stats.dfy`, `KinematicsExact.dfy`, `Fatigue.dfy` | sprint counting, capped kinematics, regression score, totals, over exact reals |
| `PlanPolicy.dfy` | the one-time Terraform plan policy |

## Reading the models

- An execution is a run of `ExecutorMachine.Next`. Between any two of its
  accesses an `Environment` may change the shared state arbitrarily; the theorems
  say which environments they need. `Quiet` ones leave this run's manifest and
  objects alone, move the clock only forward and never clear a cancel flag (one
  live executor per run); `Peaceful` ones also request no cancellation.
  `ProtocolTheorems` needs neither: there every process is an event source.
- A crash is an access after which a process makes no more; a redelivery starts
  again at `Loading`.
- The PostgreSQL `save` is one step, because of its row lock. The local store is
  a single-writer adapter.
- `Config` holds what the executor calls and does not define: the text screens,
  SHA-256 as a function to 64 hex digits, JSON rendering, number parsing, worker
  metrics and the pipeline adapter. `GoodConfig` asks that the executor's own
  fixed texts pass the screen, that adapters return payloads with distinct ids
  (they are dictionary keys), each with the schema name and document it must
  have, and that their failure codes are identifiers. The closed form of the
  outcome also asks that adapters report a cancellation only when one was requested;
  `TerminalSets.FlagOnlyCancels` that a request either stops an adapter or makes
  no difference to what it builds.
- Timestamps are instants and their printed form is one exact inverse pair;
  UUIDs are texts of the version 4 shape, freshly drawn.
- The fault `TransitionForbidden` stands for the two adapters' own exception
  classes for a refused transition.

## Where the code and its promises part

- The executor speaks of idempotent redelivery, but artifacts are write-once: a
  crash after any artifact write leaves a run that can only end failed
  (`Redelivery.CrashAfterWriteFails`; `TerminalSets.CrashAfterWriteNeverSucceeds`
  with cancellations). Every execution that would succeed has such a crash
  (`DoomingCrashes.SomeCrashDooms`, `Witnesses.SomeCrashDoomsSomeRun`), and
  crashes before the first write are invisible
  (`Redelivery.CrashedRunMatchesUninterrupted`).
- With one live executor `execute` raises, and leaves the run running, if and only
  if the probe duration cannot be read and the run is running already, or queued
  with no cancellation found before its start; then no later delivery and no
  cancellation request ever ends the run
  (`Unreadable.RaisesExactly`, `RaisesForever`, `NullDurationRaises`).
- A forced partial end needs a required last stage; otherwise, and with no stages
  at all, the run ends failed (`ExecutionInvariant.FinalOutcome`,
  `Witnesses.ForcedPartialEndFails`).
- A cancel flag set after the last checkpoint and build changes nothing
  (`FlagFates.FlagDecides`, `LateFlagChangesNothing`, `Witnesses.SomeLateFlagSucceeds`).
- `finalize` promises exactly one job per upload. It is at most one, and none
  when the creating call dies before it enqueues or is refused by the queue: no
  repetition makes up for it (`UploadService.FinalizeOnce`, `Witnesses.FinalizeLosesJob`).
- The two repositories differ on a repeated (logical analysis, attempt number)
  pair and on terminal manifests whose bytes are missing, and on no other
  well-formed call (`TwoRepositories.AgreeIffOrdinary`,
  `Witnesses.RepositoriesDifferOnCreate`, `RepositoriesDifferOnSave`).
- The filesystem queue reports a vanished file as an unreadable record, so a job
  requeued at the wrong moment ends in `failed`: possible from every state in
  which it waits, and only after a requeue (`ClaimRace.WaitingJobCanBeDiscarded`,
  `DiscardNeedsRequeue`).
- The plan policy strips module prefix and index from an address; a `for_each`
  key with one dot also costs the type (`PlanPolicy.BareExactly`,
  `DottedKeyLosesType`).

## Model
| member | source | states |
|---|---|---|
| Manifest.RunRoundTrip | v2/src/footballai_v2/contracts/v1/analysis_run.py:953-1042 | `from_dict(to_dict(run))` succeeds and returns the same run, for every contract-valid run: any number of stages, artifacts and models, any optional field present or absent |
| Manifest.ToDictInjective | v2/src/footballai_v2/contracts/v1/analysis_run.py:953-982 | two contract-valid runs with the same printed manifest are the same run |
| Manifest.ParsedRunIsCanonical | v2/src/footballai_v2/contracts/v1/analysis_run.py:984-1042 | whatever the parser accepts prints to a manifest it accepts again with the same meaning |
| Manifest.StageRoundTrip | v2/src/footballai_v2/contracts/v1/analysis_run.py:540-603 | a valid stage record survives printing and parsing, error and metrics included |
| Manifest.ErrorRoundTrip | v2/src/footballai_v2/contracts/v1/analysis_run.py:433-465 | a valid structured error survives printing and parsing, and its printed form is never mistaken for an absent one |
| ManifestAccepts.AcceptsExactly | v2/src/footballai_v2/contracts/v1/analysis_run.py:984-1042 | a document is accepted as a given run if and only if the run is contract-valid and the document holds its fields under the contract's keys, each in its wire spelling, no key missing and none unknown |
| ManifestAccepts.RefusesExactly | v2/src/footballai_v2/contracts/v1/analysis_run.py:984-1042 | a document is refused if and only if it represents no contract-valid run |
| RecordValidity.StartValid | v2/src/footballai_v2/contracts/v1/analysis_run.py:863-876 | starting any stored queued run not created in the future yields a contract-valid running run |
| RecordValidity.WithStageValid | v2/src/footballai_v2/contracts/v1/analysis_run.py:878-881 | replacing one stage of a running run by a valid version of the same stage keeps the whole record contract-valid |
| RecordValidity.SucceedValid | v2/src/footballai_v2/contracts/v1/analysis_run.py:883-898 | a running run whose stages are all done and whose references are valid and distinct becomes a contract-valid succeeded run |
| RecordValidity.CompletePartialValid | v2/src/footballai_v2/contracts/v1/analysis_run.py:900-917 | the same with the last stage, when it is a required one, marked partial: a contract-valid partial run |
| RecordValidity.FailValid | v2/src/footballai_v2/contracts/v1/analysis_run.py:919-934 | an unfinished run with no stage left running becomes a contract-valid failed run |
| RecordValidity.CancelValid | v2/src/footballai_v2/contracts/v1/analysis_run.py:936-951 | an unfinished run with no stage left running becomes a contract-valid cancelled run |
| Lifecycle.ReplacementEvolves | v2/src/footballai_v2/storage/lifecycle.py:63-85 | admitted replacements compose to an evolution: same provenance, no return to queued, and none follows a terminal record |
| RepositoryPort.ListingsAgree | v2/src/footballai_v2/storage/postgres/repository.py:177-184 | any two newest-first listings of the same runs hold the same runs, ties aside |
| RepositoryPort.SaveLaw | v2/src/footballai_v2/storage/lifecycle.py:63-85 | a save is admitted exactly for a known, unfinished run of the same provenance, a running one not going back to queued nor a queued one on to success; it replaces that record and touches no flag and no other run |
| RepositoryPort.CancellationLaw | v2/src/footballai_v2/storage/postgres/repository.py:146-166 | cancellation can be requested of exactly the known runs, flags exactly an unfinished one, and changes nothing else |
| Postgres.RowsExact | v2/src/footballai_v2/storage/postgres/repository.py:319-364 | a bulk insert of distinct items leaves exactly one row per item, with that item's values, under this run |
| Postgres.ReplacedOnly | v2/src/footballai_v2/storage/postgres/repository.py:319-364 | deleting and reinserting projections gives the run exactly the new rows and touches no other run's |
| Postgres.WriteKeepsConsistent | v2/src/footballai_v2/storage/postgres/repository.py:301-384 | one committed write keeps every attempt's columns, stage rows, artifact rows and audit trail derived from its manifest, keeps (logical, attempt) pairs unique, and changes one record of the view |
| Postgres.SaveKeepsConsistent | v2/src/footballai_v2/storage/postgres/repository.py:111-142 | an admitted save keeps the database consistent: version and audit trail grow together by one numbered event |
| Postgres.FlagKeepsConsistent | v2/src/footballai_v2/storage/postgres/repository.py:146-166 | setting the cancel flag changes nothing else in any row or projection |
| Postgres.PostgreSQLAnalysisRepository.Create | v2/src/footballai_v2/storage/postgres/repository.py:61-98 | follows the port; refuses exactly non-queued runs, a stored run id, and a taken (logical, attempt) pair, and then changes nothing; otherwise the database gains the logical analysis if it is new, the row at version 1, its projections and one creation event, and nothing else changes |
| Postgres.PostgreSQLAnalysisRepository.Load | v2/src/footballai_v2/storage/postgres/repository.py:100-109 | returns the run that was stored, through its printed manifest |
| Postgres.PostgreSQLAnalysisRepository.Save | v2/src/footballai_v2/storage/postgres/repository.py:111-142 | follows the port; refuses a stale expected version; a refused save changes nothing, and an admitted one changes this run's row, at the next version with its flag kept, its projections, and the audit log by one numbered event |
| Postgres.PostgreSQLAnalysisRepository.RequestCancellation | v2/src/footballai_v2/storage/postgres/repository.py:146-166 | sets the flag of an unfinished run only; unknown runs are refused |
| Postgres.PostgreSQLAnalysisRepository.ListRuns | v2/src/footballai_v2/storage/postgres/repository.py:177-184 | lists every stored run once, newest first |
| Postgres.PostgreSQLAnalysisRepository.CreateRetryAttempt | v2/src/footballai_v2/storage/postgres/repository.py:186-237 | one transaction: the linked queued attempt is added at version 1 with its projections and one retry event, or the fault is exactly the port's and nothing changes |
| PostgresColumns.RowsHoldManifest | v2/src/footballai_v2/storage/postgres/repository.py:301-384 | in a consistent database an attempt's columns repeat the fields of its manifest, which parses to the attempt, and it has one stage row per stage and one artifact row per artifact, each with that record's columns, and no others |
| PostgresColumns.WriteIs | v2/src/footballai_v2/storage/postgres/repository.py:301-384 | one write sets the row at its version and flag, appends one event in the run's name, and leaves every other attempt's rows alone |
| NewAttempts.RetryIs | v2/src/footballai_v2/contracts/v1/analysis_run.py:831-861 | a valid attempt can be retried if and only if it failed or ended partial, the new id is canonical and not its own, and the replacements are well formed; the retry is queued, empty, one number on, linked, and keeps whatever is not replaced |
| LocalStore.LocalAnalysisRunStore.Create | v2/src/footballai_v2/storage/local_analysis_runs.py:63-83 | follows the port exactly, faults included |
| LocalStore.LocalAnalysisRunStore.Load | v2/src/footballai_v2/storage/local_analysis_runs.py:85-98 | returns the run the directory's manifest stands for; malformed ids and unknown runs are refused |
| LocalStore.LocalAnalysisRunStore.Save | v2/src/footballai_v2/storage/local_analysis_runs.py:100-142 | follows the port, and refuses a succeeded or partial manifest unless every listed file is there with its size and hash |
| LocalStore.LocalAnalysisRunStore.VerifyArtifacts | v2/src/footballai_v2/storage/local_analysis_runs.py:405-423 | true exactly when every listed file is present with the recorded size and hash |
| LocalStore.LocalAnalysisRunStore.RequestCancellation | v2/src/footballai_v2/storage/local_analysis_runs.py:211-226 | the marker file is the port's cancel flag |
| LocalStore.LocalAnalysisRunStore.ListRuns | v2/src/footballai_v2/storage/local_analysis_runs.py:261-272 | lists every stored run once, newest first, from directories in any order |
| LocalStore.LocalAnalysisRunStore.WriteArtifact | v2/src/footballai_v2/storage/local_analysis_runs.py:329-374 | only while the run is running, only under a contract path, never over a file |
| LocalStore.WrittenIsIntact | v2/src/footballai_v2/storage/local_analysis_runs.py:329-374 | a successful write adds one file, at a new path of a running run, whose reference passes the check of a terminal save; no file changes |
| TwoRepositories.AgreeIffOrdinary | v2/src/footballai_v2/storage/local_analysis_runs.py:63-142 | for well-formed calls the two adapters answer alike if and only if the call is ordinary: no admissible create repeats a (logical, attempt) pair and no admissible terminal save lists bytes missing from disk |
| Witnesses.RepositoriesDifferOnCreate | v2/src/footballai_v2/storage/postgres/repository.py:82-86 | a concrete create, repeating a (logical, attempt) pair, that PostgreSQL refuses and the local store accepts |
| Witnesses.RepositoriesDifferOnSave | v2/src/footballai_v2/storage/local_analysis_runs.py:139-142 | a concrete succeeded manifest, its file missing, that the local store refuses and PostgreSQL accepts |
| TwoRepositories.CallLocal | v2/src/footballai_v2/storage/local_analysis_runs.py:63-272 | the local store answers every well-formed call as specified for it, and its next state is the specified one |
| TwoRepositories.CallPostgres | v2/src/footballai_v2/storage/postgres/repository.py:61-184 | the PostgreSQL repository does the same for its specification |
| TwoRepositories.DriveBoth | v2/src/footballai_v2/storage/postgres/repository.py:61-184 | driven by any sequence of ordinary calls from the same view, both adapters give the same answers, those of the port, and end with the same runs and flags |
| ObjectKeys.ArtifactKeysInjective | v2/src/footballai_v2/storage/object_storage/keys.py:29-31 | two artifact keys are equal exactly when run and path are |
| ObjectKeys.InputApartFromArtifacts | v2/src/footballai_v2/storage/object_storage/keys.py:15-31 | an input key lies under no run's artifact prefix |
| ObjectKeys.ArtifactApartFromInputs | v2/src/footballai_v2/storage/object_storage/keys.py:15-31 | an artifact key lies under its own run's artifact prefix only, and under no input prefix |
| ObjectKeys.InputPrefixNamesRun | v2/src/footballai_v2/storage/object_storage/keys.py:15-26 | an input key lies under a run's input prefix exactly when it is that run's |
| ObjectStorage.WrittenReadsBack | v2/src/footballai_v2/storage/object_storage/memory.py:62-140 | a successful write is stored under the run's own key and reads back with its size and hash, then and after any further writes |
| ObjectStorage.PublishedForever | v2/src/footballai_v2/storage/object_storage/memory.py:62-99 | what is published stays published while the store only appends |
| ObjectStorage.WriteKeepsInputs | v2/src/footballai_v2/storage/object_storage/memory.py:62-99 | writing an artifact changes no run's input |
| ObjectStorage.PutKeepsOtherInputs | v2/src/footballai_v2/storage/object_storage/memory.py:142-152 | storing one run's input changes no other run's |
| ObjectStorage.InMemoryObjectStorage.Write | v2/src/footballai_v2/storage/object_storage/memory.py:62-99 | write-once: a taken key is refused and the store otherwise gains exactly one object |
| ObjectStorage.InMemoryObjectStorage.ReadArtifactBytes | v2/src/footballai_v2/storage/object_storage/memory.py:101-112 | returns the bytes stored under the artifact id if and only if they are whole, with the recorded hash and size, and fit a positive limit; otherwise says which of the three fails |
| ObjectStorage.InMemoryObjectStorage.ArtifactReferenceIntegrity | v2/src/footballai_v2/storage/object_storage/memory.py:121-129 | true exactly when the artifact id resolves to bytes of the recorded size and hash |
| ObjectStorage.InMemoryObjectStorage.CopyInput | v2/src/footballai_v2/storage/object_storage/memory.py:168-176 | copies exactly when the source has a single input and the destination key is valid and free; then the destination has the source's bytes and type as its single input, and otherwise nothing changes |
| Executor.AnalysisExecutor.Execute | v2/src/footballai_v2/execution/executor.py:43-136 | the imperative execution, under any interference before each repository or storage access and a crash at any access, ends exactly where the step machine does; what the machine stores is spelled out by the `PublishedContents` and `SavedRecords` rows below |
| Executor.AnalysisExecutor.BeginQueued | v2/src/footballai_v2/execution/executor.py:50-57 | a queued run is cancelled when that was requested and started otherwise, as the machine steps do |
| Executor.AnalysisExecutor.TryBlock | v2/src/footballai_v2/execution/executor.py:64-113 | stage loop, build, publication, verification and terminal save leave the block exactly where the machine does |
| Executor.AnalysisExecutor.OnCancellation | v2/src/footballai_v2/execution/executor.py:114-120 | the cancellation handler follows the machine to its end |
| Executor.AnalysisExecutor.OnFailure | v2/src/footballai_v2/execution/executor.py:121-136 | the failure handler follows the machine to its end |
| ExecutorEffects.StepEffect | v2/src/footballai_v2/execution/executor.py:43-147 | each access changes the shared state by at most one repository save or one artifact write under the job's run |
| ExecutorEffects.EveryExecutionEnds | v2/src/footballai_v2/execution/executor.py:43-136 | whatever the others do, some number of accesses completes the execution |
| ExecutionInvariant.DeliveriesKeepShape | v2/src/footballai_v2/execution/executor.py:43-136 | stage shape: with one live executor, through any crashes and redeliveries, the stored manifest stays contract-valid, a running one is done stages, then one at most running, then queued ones, with only optional stages skipped; `execute` raises only when the probe duration is unreadable, and what it returns is the stored terminal status |
| Unreadable.RaisesExactly | v2/src/footballai_v2/execution/executor.py:50-63 | with one live executor a complete delivery raises if and only if the probe duration cannot be read and the run was running, or queued and not flagged at the check before its start; three accesses suffice, and the run is then left running with its stages and objects as they were |
| Unreadable.RaisesForever | v2/src/footballai_v2/execution/executor.py:60-63 | every later delivery of such a run that makes an access raises again, whatever is requested meanwhile, and its manifest and objects never change |
| Unreadable.NullDurationRaises | v2/src/footballai_v2/execution/executor.py:61-61 | a concrete contract-valid run, its recorded duration null, on which this happens |
| ExecutionInvariant.StepInv | v2/src/footballai_v2/execution/executor.py:43-136 | every single access keeps the stage shape, the local copy equal to the stored manifest, and the collected references those of the plan |
| ExecutionInvariant.FinalOutcome | v2/src/footballai_v2/execution/executor.py:104-111 | the terminal record can be built if and only if there are stages and a forced partial end has a required last stage; then it is contract-valid with the published references |
| Witnesses.ForcedPartialEndFails | v2/src/footballai_v2/execution/executor.py:105-108 | a concrete run whose documents are all publishable and whose every complete execution fails, its last stage optional and its partial end forced |
| ExecutionInvariant.CancelOutcome | v2/src/footballai_v2/execution/executor.py:114-119 | the cancel handler always builds a contract-valid cancelled record |
| ExecutionInvariant.FailOutcome | v2/src/footballai_v2/execution/executor.py:121-134 | the fail handler always builds a contract-valid failed record |
| ExecutionInvariant.PlanDistinct | v2/src/footballai_v2/execution/executor.py:88-97 | planned artifacts, aliases included, differ pairwise in id, name and path |
| CrashResume.UninterruptedOutcome | v2/src/footballai_v2/execution/executor.py:43-136 | a complete uncancelled delivery ends with the status, references and stored bytes that a closed form computes from its first state |
| CrashResume.RunKeepsFate | v2/src/footballai_v2/execution/executor.py:43-136 | every step of an uncancelled execution keeps that foretold outcome |
| CrashResume.WriteNext | v2/src/footballai_v2/storage/object_storage/memory.py:76-79 | a planned write gets in no later planned write's way, so the remaining plan is writable after it exactly when it was before |
| Redelivery.CrashResumeOutcome | v2/src/footballai_v2/execution/executor.py:58-136 | through any deliveries, crashed anywhere, the outcome in prospect is that of the first state exactly as long as every crash came before the first artifact write, and failure otherwise |
| Redelivery.CrashedRunMatchesUninterrupted | v2/src/footballai_v2/execution/executor.py:58-136 | a run crashed only before its first artifact write ends with the status, references and object bytes of an uninterrupted execution |
| Redelivery.CrashAfterWriteFails | v2/src/footballai_v2/storage/object_storage/memory.py:76-79 | with no cancellation requested, after a crash that followed any artifact write the run can only end failed, listing nothing |
| Redelivery.TerminalSetComplete | v2/src/footballai_v2/execution/executor.py:86-111 | with no cancellation requested, a succeeded or partial run, however often crashed, lists one reference per planned artifact and the store gained exactly those objects |
| TerminalSets.TerminalSetWhole | v2/src/footballai_v2/execution/executor.py:86-111 | no terminal manifest lists a partial set, cancellation requested or not: through any crashes and redeliveries a succeeded or partial run lists one reference per artifact of the whole plan its input was built into, all of it written by the delivery that finished the run |
| TerminalSets.TerminalSetExact | v2/src/footballai_v2/execution/executor.py:86-111 | when a requested cancellation either stops the build or makes no difference to it, the store also gained exactly those objects since the first delivery |
| PublishedContents.DeliveryPublishes | v2/src/footballai_v2/execution/executor.py:86-111 | a delivery that ends succeeded or partial publishes every document built from the run's input under its own id and path, rendered indented, listed with its table name, category and schema; then the two aliases, compact renderings of the track summary and of the advisory's tracks; and stores nothing else |
| PublishedContents.TerminalPublishes | v2/src/footballai_v2/execution/executor.py:86-111 | whoever finds the run succeeded or partial after any crashes and redeliveries, cancellation requested or not, finds exactly that publication, made since some delivery began |
| PublishedContents.TerminalPublishesAll | v2/src/footballai_v2/execution/executor.py:86-111 | when a requested cancellation either stops the build or makes no difference to it, that is all the run's part of the store gained since the first delivery |
| SavedRecords.ExecutionSaves | v2/src/footballai_v2/execution/executor.py:50-147 | between any two accesses the stored manifest changes in one of the listed ways or not at all: started, one stage skipped, restarted or finished, concluded, cancelled or failed, each with its times, progress, metrics, texts and cause spelled out and all else kept |
| SavedRecords.DeliverySaves | v2/src/footballai_v2/execution/executor.py:50-147 | in particular from the first access of any delivery on |
| TerminalSets.CrashAfterWriteNeverSucceeds | v2/src/footballai_v2/storage/object_storage/memory.py:76-79 | under that assumption, whether or not cancellation is requested before, between or after, a run that crashed after any artifact write never ends succeeded or partial and lists nothing |
| DoomingCrashes.SomeCrashDooms | v2/src/footballai_v2/execution/executor.py:86-97 | whenever an execution would succeed, whatever others do short of touching or cancelling the run, some crash of it comes after an artifact write and leaves nothing but failure |
| Witnesses.SomeCrashDoomsSomeRun | v2/src/footballai_v2/storage/object_storage/memory.py:76-79 | it happens to a concrete run with nobody else there |
| Redelivery.FreshRunIsCalm | v2/src/footballai_v2/execution/executor.py:43-57 | a freshly created queued run without artifacts is a first state these theorems apply to |
| ExactSuccess.SucceedsExactly | v2/src/footballai_v2/execution/executor.py:43-136 | a complete, undisturbed execution of a run without artifacts ends succeeded, or partial when forced, if and only if its stages can be concluded, its single input is there, the build succeeds, every document has a known id and a schema, and the two the dashboard needs are among them; otherwise it ends failed |
| ExactSuccess.PlanWritable | v2/src/footballai_v2/execution/executor.py:88-97 | with no artifact stored yet the whole publication plan can be written exactly when every document is publishable and both aliases have their source |
| ExactSuccess.SuccessIsPossible | v2/src/footballai_v2/execution/executor.py:43-57 | a concrete configuration, run and store meet all the assumptions of these theorems, success included |
| CancelLatency.AtMostOneStageWrite | v2/src/footballai_v2/execution/executor.py:65-85 | once the cancel flag is set at most one more stage is saved as running or finished, and only if the checkpoint before that save was already passed |
| CancelLatency.FlagExcludesSuccess | v2/src/footballai_v2/execution/executor.py:65-85 | with a checkpoint still ahead, a set flag excludes succeeded and partial, and no artifact is stored |
| CancelLatency.LateFlagIgnored | v2/src/footballai_v2/execution/executor.py:86-113 | an execution that has reached publication never ends cancelled |
| FlagFates.FlagDecides | v2/src/footballai_v2/execution/executor.py:50-120 | at whichever program point a set flag is found, an execution that ends ends cancelled if and only if a closed form of that point, the stored manifest and the stored input says so: a stage still to be started, or a last build that stops, or a build in the detection stage that does not fail |
| FlagFates.LateFlagChangesNothing | v2/src/footballai_v2/execution/executor.py:88-113 | from publication on an execution with the flag set is, access by access, the same execution without it: same end, same manifest, same objects |
| DoomingCrashes.LateFlagSucceeds | v2/src/footballai_v2/execution/executor.py:86-113 | whenever an execution would succeed, some moment to set the flag leaves it to end as foretold, flag set |
| Witnesses.SomeLateFlagSucceeds | v2/src/footballai_v2/execution/executor.py:86-113 | a concrete run that ends succeeded with its flag set |
| CancelLatency.QueuedFlagCancels | v2/src/footballai_v2/execution/executor.py:50-56 | a flag set while queued: three accesses later the run is cancelled with every stage as it was |
| ProtocolSteps.StepKeeps | v2/src/footballai_v2/execution/executor.py:43-136 | every event of the service (executor access, crash, duplicate delivery, create, retry, clone, stale cancel or fail, cancel request, input upload, clock) keeps the global invariant and only lets stored runs evolve and objects grow |
| ProtocolSteps.RetriedFollows | v2/src/footballai_v2/execution/coordinator.py:202-213 | a retry built from however stale a manifest continues the chain of the run as it is stored now |
| ProtocolTheorems.HistoryIsLifecycle | v2/src/footballai_v2/storage/lifecycle.py:63-85 | over every sequence of events each run's stored history keeps its provenance, never returns to queued, stays contract-valid and is never written again once terminal |
| ProtocolTheorems.ReturnIsStored | v2/src/footballai_v2/execution/executor.py:43-136 | what any execution returns is the stored terminal status, then and ever after |
| ProtocolTheorems.Agreement | v2/src/footballai_v2/execution/executor.py:43-136 | any two normal returns for one run agree, however executors, stale API cancels, duplicates and crashes interleave |
| ProtocolTheorems.PublishedMeansVerified | v2/src/footballai_v2/execution/executor.py:90-111 | each artifact listed by a succeeded or partial run is, from then on, stored under that run's own key with the recorded size and hash and reads back; failed and cancelled runs list none |
| ProtocolTheorems.AttemptsFormLinearChain | v2/src/footballai_v2/contracts/v1/analysis_run.py:831-861 | in every reachable state the attempts of a logical analysis are numbered 1..k, one run each, each linked to the one before, all of one input and origin, and all but the last failed or partial |
| ProtocolTheorems.AtMostOneLiveAttempt | v2/src/footballai_v2/storage/postgres/schema.py:71-73 | at most one attempt of a logical analysis is queued or running |
| FilesystemQueue.LocalFilesystemQueue.Enqueue | v2/src/footballai_v2/execution/queue/local_filesystem.py:51-72 | accepts exactly jobs whose run is not reserved and whose file is not queued, adding that one file; a refusal releases what it took; with an id no claimed or finished job has, the folders stay in order |
| FilesystemQueue.LocalFilesystemQueue.Claim | v2/src/footballai_v2/execution/queue/local_filesystem.py:74-95 | takes the first readable job in file-name order, stamped, after setting aside the unreadable files before it; every other file stays, folder by folder |
| FilesystemQueue.LocalFilesystemQueue.TerminalMove | v2/src/footballai_v2/execution/queue/local_filesystem.py:139-145 | moves the job only out of `claimed`, and otherwise changes nothing |
| FilesystemQueue.LocalFilesystemQueue.Cancel | v2/src/footballai_v2/execution/queue/local_filesystem.py:103-114 | moves the run's queued or claimed job to cancelled and says whether there was one |
| FilesystemQueue.LocalFilesystemQueue.RecoverAbandoned | v2/src/footballai_v2/execution/queue/local_filesystem.py:116-137 | a readable claim of an unfinished run stamped before the cutoff goes back to `queued` with both stamps cleared and is counted; one stamped later or not at all stays; an unreadable record or one of an unknown run goes to `failed`, one of a finished run where its status says; no other file moves |
| FilesystemQueue.Least | v2/src/footballai_v2/execution/queue/local_filesystem.py:77-77 | the first file of a sorted listing precedes every other one |
| QueueConservation.Conservation | v2/src/footballai_v2/execution/queue/local_filesystem.py:51-145 | over any sequence of operations every accepted job stays in exactly one state with the record it was accepted with, reserved run ids stay pairwise distinct, and completed, failed and cancelled absorb |
| QueueConservation.FinishedJobsStayFiled | v2/src/footballai_v2/execution/queue/local_filesystem.py:116-137 | over any operations, a job whose run is terminal at a recovery and that does not wait then is never queued or claimed again, and a claimed one is filed by its run's outcome; one that waits is left queued |
| QueueConservation.Drive | v2/src/footballai_v2/execution/queue/local_filesystem.py:51-145 | driven by any sequence of operations with fresh ids the adapter ends exactly where that specification does |
| ClaimRace.ExclusiveClaim | v2/src/footballai_v2/execution/queue/local_filesystem.py:74-95 | with workers interleaved at read, rename and rewrite, the claims that return a job, plus those about to, never exceed one plus its requeues |
| ClaimRace.DiscardNeedsRequeue | v2/src/footballai_v2/execution/queue/local_filesystem.py:83-86 | the unreadable-file handler is about to set a healthy job aside only if recovery requeued it |
| ClaimRace.WaitingJobCanBeDiscarded | v2/src/footballai_v2/execution/queue/local_filesystem.py:147-157 | from any reachable state in which a job waits, healthy as it is, some continuation in which recovery requeues it ends with a worker setting it aside: a missing file reads as an unreadable record |
| ClaimRace.RequeuedJobCanBeDiscarded | v2/src/footballai_v2/execution/queue/local_filesystem.py:147-157 | so it can happen to a job that has only just been enqueued |
| ServiceBus.DrainExact | v2/src/footballai_v2/execution/queue/azure_service_bus.py:93-127 | one claim handles exactly the first sixteen available messages up to the first runnable one, each by its own disposition and once, leaves all others alone, and hands out that runnable one |
| ServiceBus.DrainMeans | v2/src/footballai_v2/execution/queue/azure_service_bus.py:93-127 | the same said of each message without the adapter's own disposition: which are received, how each ends, and which one is handed out |
| ServiceBus.ReceivedBounded | v2/src/footballai_v2/execution/queue/azure_service_bus.py:96-127 | at most sixteen messages are received by one claim |
| ServiceBus.AzureServiceBusQueue.Claim | v2/src/footballai_v2/execution/queue/azure_service_bus.py:93-127 | the loop computes that result; a received message ends locked, stamped, returned and in flight if and only if it parses, is within the delivery limit and its run is unfinished, completed if and only if its run has ended, and dead-lettered if and only if it does not parse, is over the limit or of an unknown run |
| ServiceBus.AzureServiceBusQueue.Settle | v2/src/footballai_v2/execution/queue/azure_service_bus.py:168-178 | a job settles the message it was handed out under once; an unknown job settles nothing |
| BusProtocol.HandoutsBounded | v2/tests/fakes/service_bus.py:60-125 | under any interleaving of claims, lock expiries and crashes no message is handed out more often than the delivery limit, or than it was delivered |
| BusProtocol.ReceiptsAccounted | v2/src/footballai_v2/execution/queue/azure_service_bus.py:93-127 | every message a claim received is settled, except the one it is deciding on or has returned |
| BusProtocol.FinishedNeverHandedOut | v2/src/footballai_v2/execution/queue/azure_service_bus.py:180-190 | once its run is terminal a message is never handed out again |
| BusProtocol.SoloClaimIsDrain | v2/src/footballai_v2/execution/queue/azure_service_bus.py:93-127 | undisturbed, a claim of this protocol is the adapter's drain loop: same messages after, same message executed |
| Worker.WorkerProcess.WorkOnce | v2/src/footballai_v2/worker.py:63-75 | claims the first waiting job; when its execution returns, the job is settled by the returned status wherever other users of the queue have meanwhile left it, in the folder of that status if they left it alone; when the process is lost it stays as they left it; shared state is exactly what the execution left |
| Worker.WorkerProcess.Work | v2/src/footballai_v2/worker.py:52-75 | over any passes, other users, crashes and stop signals no job file is lost or changes identity, and every job settled while the others left it alone is still in the folder of its status at the end; the recovery at the start goes by the repository |
| Worker.RecoverySettlesAlike | v2/src/footballai_v2/execution/queue/local_filesystem.py:126-130 | a job whose worker was lost after the terminal save is filed by recovery exactly where the worker would have filed it |
| UploadService.DirectUploadService.FinalizeUpload | v2/src/footballai_v2/storage/upload_service.py:81-115 | creates the attempt and then its job, returns the stored attempt of a repeated call, or passes on the queue's refusal |
| UploadService.FinalizeOnce | v2/src/footballai_v2/storage/upload_service.py:81-115 | over any calls each run gets at most one attempt and one job, and has its job if and only if the queue took it from the call that created the attempt |
| NewAttempts.UploadIs | v2/src/footballai_v2/storage/upload_service.py:81-122 | an upload becomes an attempt if and only if the object was accepted and its hash, type, code reference and ids are well formed; the attempt is the first, queued, of that object and profile, with the nine stages in pipeline order, required and queued |
| NewAttempts.FinalizeIs | v2/src/footballai_v2/storage/upload_service.py:81-115 | one call stores that attempt and enqueues one unclaimed job of the call's profile for it, or changes nothing |
| Witnesses.FinalizeLosesJob | v2/src/footballai_v2/storage/upload_service.py:81-115 | a concrete finalize that dies before it enqueues: repeated, it leaves a queued attempt without a job |
| Stats.CountSprints | pipeline/02_stats.py:100-115 | the loop counts exactly the maximal at-or-above-threshold intervals, ended by the first slower or the last sample, that last the minimum |
| KinematicsExact.SprintsAre | pipeline/02_stats.py:100-115 | that count is the number of rows at which a run at 5.5 m/s or more begins that lasts a second at least |
| Stats.CutChangesByOne | pipeline/02_stats.py:215-219 | cutting a time-sorted track changes its sprint count by at most one |
| Stats.BlockCountsNearTotal | pipeline/02_stats.py:242-245 | a player's total and the sum of block counts differ by at most blocks minus one |
| Stats.BlocksPartition | pipeline/02_stats.py:215-216 | grouping by block loses nothing: the groups in order are the track, each of one block, no block twice |
| Stats.RowBounds | pipeline/02_stats.py:84-97 | whatever a row loses: its speed stays within the cap and its distance within the cap times the elapsed time and within the smoothed step |
| Stats.DistanceBounded | pipeline/02_stats.py:84-97 | over any window of a time-sorted track the distance is at most 12 m/s times the elapsed time and at most the smoothed path length |
| KinematicsExact.MedianIs | pipeline/02_stats.py:84-86 | the smoothing median is the one value no more than half of the window lies below and no more than half above, or the mean of the two middle ones |
| KinematicsExact.StepIs | pipeline/02_stats.py:84-94 | the step into a row is the length in metres between the medians of the samples within two rows of the row before and of this one |
| KinematicsExact.RowIs | pipeline/02_stats.py:90-97 | after a gap of 0.05 to 3 seconds a row covers exactly its smoothed step, or what 12 m/s allow if that is less, at the speed that makes it so; the first row and any other gap give neither |
| KinematicsExact.DistanceIsPath | pipeline/02_stats.py:84-97 | the distance over a window is the length of the smoothed path if and only if no row of it loses any of its step to a bad gap or to the cap |
| Stats.AggregateBlocks | pipeline/02_stats.py:213-232 | one record per block in order, each with its half, distance, mean and peak speed, sprints, frames and time; distances and frames add up to the player's, sprint counts are within one per cut of the total |
| KinematicsExact.RecordIs | pipeline/02_stats.py:213-232 | field by field: the fifteen minutes the block spans, the half its first row is in, the sum of distances, the mean and the attained greatest speed, sprints, rows and time |
| Fatigue.CenteredIsPairs | pipeline/03_fatigue.py:69-83 | Chebyshev's identity: n times the centred sum of products is the sum over pairs |
| Fatigue.SlopeFitsBest | pipeline/03_fatigue.py:69-83 | the slope is the least-squares one: the line through the means with it misses the speeds by less, squared, than any line of another slope |
| Fatigue.ScoreIs | pipeline/03_fatigue.py:69-83 | for every timeline: under three blocks or one speed throughout scores nothing; otherwise the slope is that best one, and the score is -250 times it, kept within 0..25 |
| Fatigue.DecaySigns | pipeline/03_fatigue.py:69-83 | never-rising speeds have slope at most zero, strictly negative with a positive score unless constant; never-falling speeds score exactly zero; the score is within 0..25 |
| Fatigue.ExactDecline | pipeline/03_fatigue.py:69-83 | an exact decline of c per block has slope -c and scores min(25, 250 c) |
| Fatigue.HalfTotals | pipeline/03_fatigue.py:134-141 | the two half distances are the sums over the block records of each half, and together the distance of the whole track |
| Fatigue.HalvesCut | pipeline/03_fatigue.py:134-141 | the half distances cut the track at a border between blocks: a block that straddles the boundary counts to the first half with all its rows |
| PlanPolicy.Evaluate | infra/terraform/scripts/p6_plan_policy.py:117-219 | hash gate off: there is no violation if and only if the counted changes, reduced to bare address and actions, are exactly the allowlist entries, each once; the totals are those of the counted changes |
| PlanPolicy.RulesAreExact | infra/terraform/scripts/p6_plan_policy.py:149-181 | the per-change, duplicate and missing rules together say exactly that the plan is the reviewed one |
| PlanPolicy.ExpectedTotals | infra/terraform/scripts/p6_plan_policy.py:183-194 | the totals rule follows from the others |
| PlanPolicy.OrderIrrelevant | infra/terraform/scripts/p6_plan_policy.py:117-219 | the verdict does not depend on the order of the plan |
| PlanPolicy.P6IsGood | infra/terraform/scripts/p6_plan_policy.py:74-94 | the shipped allowlist has ten different addresses, five creates and five updates, as its totals say |
| PlanPolicy.BareExactly | infra/terraform/scripts/p6_plan_policy.py:109-114 | the address of a resource, however nested, reduces to its type and name if and only if its index has no dot, or has two or more and itself ends in them |
| PlanPolicy.DottedKeyLosesType | infra/terraform/scripts/p6_plan_policy.py:109-114 | a concrete `for_each` key with one dot, which leaves only the name |
| PlanPolicy.IgnoredIs | infra/terraform/scripts/p6_plan_policy.py:106-106 | a change is ignored exactly when it does nothing at all, or nothing but read |

## Left out

- Worker.WorkerProcess.WorkOnce: other users act on the queue between the claim and the settling, not inside either; the loop over Service Bus is not spelled out.
- Detection, tracking and the V1-compatible runtime: ML libraries and subprocesses, kept as the uninterpreted `build` function.
- The input bytes are read and the cancel callback is consulted in one step of the build; the adapter's own later polls are not separate steps.
- Azure Blob Storage, credentials, SQLAlchemy, Alembic and composition: foreign calls; the in-memory object store and tables as values stand for them.
- `authorize_upload` and `finalize_upload` of the object stores: the latter's verdict is a parameter of `finalize`.
- FastAPI routing and response views: only cancel, retry and clone appear, as protocol events.
- Probing and streaming of uploads in the coordinator, fsync, temporary files and symlink checks: only exclusive creation, rename and replace matter here.
- A crash inside the local store's `create`, which leaves a directory without a manifest: each local operation is one step.
- The timestamp text of section 5.6 of RFC 3339, UUID generation and SHA-256: library code.
- Unsafe-text screening: two uninterpreted predicates.
- The relative artifact path `.` makes the code fail with an index error instead of a contract error; the model refuses it like any other invalid path.
- Lock renewal threads and wall-clock waits: lock expiry is an event.
- The remaining fatigue scores, the risk flag, heatmaps and halftime stitching: easy bounds, or library semantics.
- Rounding of reported numbers: reals throughout, and the square root in a step's length is an uninterpreted non-negative length.
- The hash gate of the plan policy: the evaluator is modelled with it off.
- LocalStore.LocalAnalysisRunStore.Save: one step for a single writer, because the code loads and replaces without a lock.
- FilesystemQueue.LocalFilesystemQueue.Enqueue: for an id that a claimed or finished job already has, only the raw folders are specified, because the job then has two files; ids are freshly drawn.
- ClaimRace.ExclusiveClaim: recovery's move and rewrite are one step, and file contents other than the job's id are not tracked.
- JSON object keys: a name the contract fixes is its own constructor, and `Named` is meant for the other texts; a `Named` spelling of a fixed name is not identified with it.
