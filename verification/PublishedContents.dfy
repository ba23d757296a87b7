/** The bytes, types and references a finished execution publishes, document by document. */
module PublishedContents {
  import opened Outcomes
  import opened Contract
  import opened Jobs
  import opened ObjectKeys
  import opened ObjectStorage
  import opened ExecutorMachine
  import opened RecordValidity
  import opened ExecutionInvariant
  import opened CrashResume
  import opened Redelivery
  import opened TerminalSets

  // ---------------------------------------------------------------- what is promised

  /** One artifact: the object under the run's key for the path holds these bytes as JSON, and the
      reference describes exactly that object. */
  ghost predicate StoredAs(cfg: Config, runId: string, ref: ArtifactReference, entry: (string, StoredObject),
                           artifactId: string, path: string, data: Bytes)
  {
    && entry.0 == "runs/" + runId + "/" + path
    && entry.1 == StoredObject(data, Some(artifactId), cfg.sha(data), |data|, "application/json")
    && ref.artifactId == artifactId && ref.relativePath == path && ref.mediaType == "application/json"
    && ref.sha256 == cfg.sha(data) && ref.sizeBytes == |data|
  }

  /** The name and category under which each document is listed. */
  predicate ListedAs(artifactId: string, name: string, category: ArtifactCategory) {
    || (artifactId == "team-summary" && name == "Team Summary" && category == Summary)
    || (artifactId == "track-summary" && name == "Track Summary" && category == Tracks)
    || (artifactId == "track-detail" && name == "Track Detail" && category == Tracks)
    || (artifactId == "workload-advisory" && name == "Workload Advisory" && category == Workload)
    || (artifactId == "analysis-diagnostics" && name == "Analysis Diagnostics" && category == Other)
  }

  /** A document is stored indented, under its own id, and listed with its schema. */
  ghost predicate DocumentPublished(cfg: Config, runId: string, p: Payload, ref: ArtifactReference,
                                    entry: (string, StoredObject))
  {
    && StoredAs(cfg, runId, ref, entry, p.artifactId, "artifacts/" + p.artifactId + ".json",
                cfg.renderIndented(p.document))
    && ListedAs(p.artifactId, ref.name, ref.category) && ref.schemaVersion == Some(p.schema)
  }

  /** The first alias: the track summary's document, rendered compactly. */
  ghost predicate SummaryPublished(cfg: Config, runId: string, p: Payload, ref: ArtifactReference,
                                   entry: (string, StoredObject))
  {
    && p.artifactId == "track-summary"
    && StoredAs(cfg, runId, ref, entry, "legacy-player-summary", "artifacts/dashboard-track-summary.json",
                cfg.renderCompact(p.document))
    && ref.name == "Dashboard track summary" && ref.category == Summary
    && ref.schemaVersion == Some("footballai.track-summary/v1")
  }

  /** The second: the `tracks` entry of the workload advisory. */
  ghost predicate AdvisoryPublished(cfg: Config, runId: string, p: Payload, ref: ArtifactReference,
                                    entry: (string, StoredObject))
  {
    && p.artifactId == "workload-advisory" && p.tracks.Some?
    && StoredAs(cfg, runId, ref, entry, "dashboard-workload-advisory", "artifacts/dashboard-workload-advisory.json",
                cfg.renderCompact(p.tracks.value))
    && ref.name == "Dashboard workload advisory" && ref.category == Workload
    && ref.schemaVersion == Some("footballai.workload-advisory/v1")
  }

  /** One artifact per document, in order, then the two aliases, and no other. */
  ghost predicate PublishedAs(cfg: Config, runId: string, payloads: seq<Payload>, refs: seq<ArtifactReference>,
                              gained: Objects)
  {
    var n := |payloads|;
    && |refs| == |gained| == n + 2
    && (forall i :: 0 <= i < n ==> DocumentPublished(cfg, runId, payloads[i], refs[i], gained[i]))
    && (exists p :: p in payloads && SummaryPublished(cfg, runId, p, refs[n], gained[n]))
    && (exists p :: p in payloads && AdvisoryPublished(cfg, runId, p, refs[n + 1], gained[n + 1]))
  }

  /** Object `i` is the one input of the run. */
  ghost predicate OnlyInput(mine: Objects, runId: string, i: nat) {
    i < |mine| && forall j :: 0 <= j < |mine| ==> (HasPrefix(mine[j].0, "runs/" + runId + "/input/") <==> j == i)
  }

  /** The documents are what the pipeline of the job's profile makes of that input. */
  ghost predicate BuiltFromInput(cfg: Config, job: ExecutionJob, origin: Provenance, mine: Objects,
                                 payloads: seq<Payload>)
  {
    exists i: nat, flag: bool ::
      OnlyInput(mine, job.runId, i) && cfg.build(job.profile, origin, mine[i].1.data, flag) == Built(payloads)
  }

  /** From `before` on, the run's part of the store gained the artifacts of some documents built from
      its input and nothing else, and the run lists them. */
  ghost predicate Publication(cfg: Config, job: ExecutionJob, before: Shared, after: Shared, payloads: seq<Payload>,
                              gained: Objects)
    requires job.runId in after.runs
  {
    && BuiltFromInput(cfg, job, Stored(job, after).origin, Mine(before.objects, job.runId), payloads)
    && PublishedAs(cfg, job.runId, payloads, Stored(job, after).artifacts, gained)
    && Mine(after.objects, job.runId) == Mine(before.objects, job.runId) + gained
  }

  ghost predicate Publishes(cfg: Config, job: ExecutionJob, before: Shared, after: Shared)
    requires job.runId in after.runs
  {
    exists payloads, gained :: Publication(cfg, job, before, after, payloads, gained)
  }

  // ---------------------------------------------------------------- inputs

  lemma {:induction false} InputsAre(objects: Objects, runId: string)
    ensures forall e :: e in Inputs(objects, runId) <==> e in objects && IsInputOf(e, runId)
    ensures |Inputs(objects, runId)| == 0 ==> forall j :: 0 <= j < |objects| ==> !IsInputOf(objects[j], runId)
  {
    hide IsInputOf;
    if objects != [] {
      InputsAre(objects[1..], runId);
      assert objects == [objects[0]] + objects[1..];
    }
  }

  lemma InputPrefixIs(runId: string)
    ensures InputPrefix(runId) == "runs/" + runId + "/input/"
  {
  }

  /** The input an execution reads is the only object under the run's input prefix. */
  lemma {:induction false} InputIs(objects: Objects, runId: string) returns (i: nat)
    requires InputObject(objects, runId).Ok?
    ensures OnlyInput(objects, runId, i) && objects[i] == InputObject(objects, runId).value
  {
    hide HasPrefix, InputPrefix;
    InputPrefixIs(runId);
    if IsInputOf(objects[0], runId) {
      InputsAre(objects[1..], runId);
      i := 0;
      forall j | 0 < j < |objects| ensures !HasPrefix(objects[j].0, "runs/" + runId + "/input/") {
        assert !IsInputOf(objects[1..][j - 1], runId);
      }
    } else {
      var k := InputIs(objects[1..], runId);
      i := k + 1;
      forall j | 0 < j < |objects| ensures HasPrefix(objects[j].0, "runs/" + runId + "/input/") <==> j == i {
        assert objects[j] == objects[1..][j - 1];
      }
    }
  }

  lemma BuildIsFromInput(cfg: Config, job: ExecutionJob, origin: Provenance, mine: Objects, payloads: seq<Payload>)
    requires FromBuild(cfg, job, origin, mine, payloads)
    ensures BuiltFromInput(cfg, job, origin, mine, payloads)
  {
    hide InputObject, OnlyInput;
    var i := InputIs(mine, job.runId);
  }

  // ---------------------------------------------------------------- plans

  lemma DocumentItem(cfg: Config, runId: string, p: Payload)
    requires PayloadItem(cfg, p).WriteIt?
    ensures DocumentPublished(cfg, runId, p, RefOf(cfg, PayloadItem(cfg, p)), EntryOf(cfg, runId, PayloadItem(cfg, p)))
  {
  }

  lemma {:induction false} FoundIn(payloads: seq<Payload>, artifactId: string)
    ensures FindPayload(payloads, artifactId).Some? ==>
              FindPayload(payloads, artifactId).value in payloads
              && FindPayload(payloads, artifactId).value.artifactId == artifactId
  {
    if payloads != [] {
      FoundIn(payloads[1..], artifactId);
    }
  }

  lemma SummaryPath()
    ensures ArtifactFile("dashboard-track-summary") == "artifacts/dashboard-track-summary.json"
  {
  }

  lemma AdvisoryPath()
    ensures ArtifactFile("dashboard-workload-advisory") == "artifacts/dashboard-workload-advisory.json"
  {
  }

  lemma SummaryItem(cfg: Config, runId: string, payloads: seq<Payload>)
    requires SummaryAlias(cfg, payloads).WriteIt?
    ensures var item := SummaryAlias(cfg, payloads);
            exists p :: p in payloads && SummaryPublished(cfg, runId, p, RefOf(cfg, item), EntryOf(cfg, runId, item))
  {
    hide FindPayload, ArtifactFile;
    SummaryPath();
    FoundIn(payloads, "track-summary");
    var item, p := SummaryAlias(cfg, payloads), FindPayload(payloads, "track-summary").value;
    assert SummaryPublished(cfg, runId, p, RefOf(cfg, item), EntryOf(cfg, runId, item));
  }

  lemma AdvisoryItem(cfg: Config, runId: string, payloads: seq<Payload>)
    requires AdvisoryAlias(cfg, payloads).WriteIt?
    ensures var item := AdvisoryAlias(cfg, payloads);
            exists p :: p in payloads && AdvisoryPublished(cfg, runId, p, RefOf(cfg, item), EntryOf(cfg, runId, item))
  {
    hide FindPayload, ArtifactFile;
    AdvisoryPath();
    FoundIn(payloads, "workload-advisory");
    var item, p := AdvisoryAlias(cfg, payloads), FindPayload(payloads, "workload-advisory").value;
    assert AdvisoryPublished(cfg, runId, p, RefOf(cfg, item), EntryOf(cfg, runId, item));
  }

  lemma PlanPublishes(cfg: Config, runId: string, payloads: seq<Payload>)
    requires AllWritten(Plan(cfg, payloads), |Plan(cfg, payloads)|)
    ensures var plan := Plan(cfg, payloads);
            PublishedAs(cfg, runId, payloads, PlanRefs(cfg, plan), PlanEntries(cfg, runId, plan))
  {
    hide DocumentPublished, SummaryPublished, AdvisoryPublished, PayloadItem, SummaryAlias, AdvisoryAlias, RefOf, EntryOf;
    var plan, n := Plan(cfg, payloads), |payloads|;
    forall i | 0 <= i < n
      ensures DocumentPublished(cfg, runId, payloads[i], RefOf(cfg, plan[i]), EntryOf(cfg, runId, plan[i]))
    {
      assert plan[i] == PayloadItem(cfg, payloads[i]);
      DocumentItem(cfg, runId, payloads[i]);
    }
    assert plan[n] == SummaryAlias(cfg, payloads) && plan[n + 1] == AdvisoryAlias(cfg, payloads);
    SummaryItem(cfg, runId, payloads);
    AdvisoryItem(cfg, runId, payloads);
  }

  lemma WholePublishes(cfg: Config, job: ExecutionJob, before: Shared, after: Shared, payloads: seq<Payload>)
    requires job.runId in after.runs
    requires WholeSet(cfg, job, Stored(job, after).origin, Stored(job, after).artifacts, Mine(after.objects, job.runId),
                      Mine(before.objects, job.runId), payloads)
    ensures Publishes(cfg, job, before, after)
  {
    hide Plan, FromBuild, BuiltFromInput, PublishedAs, Mine, PlanRefs, PlanEntries;
    BuildIsFromInput(cfg, job, Stored(job, after).origin, Mine(before.objects, job.runId), payloads);
    PlanPublishes(cfg, job.runId, payloads);
    assert Publication(cfg, job, before, after, payloads, PlanEntries(cfg, job.runId, Plan(cfg, payloads)));
  }

  // ---------------------------------------------------------------- executions

  /** A delivery that takes an unfinished run to succeeded or partial publishes the documents built
      from its input, each under its own id, the two aliases, and nothing else. */
  lemma DeliveryPublishes(cfg: Config, job: ExecutionJob, s: Shared, d: Delivery)
    requires GoodConfig(cfg) && Quiet(job.runId, d.env) && Inv(cfg, job, Loading, s)
    requires !Stored(job, s).status.IsTerminal()
    ensures var s' := Run(cfg, job, d.worker, d.env, Loading, s, 0, d.crashAt).1;
            && job.runId in s'.runs
            && (Stored(job, s').status in {Succeeded, Partial} ==> Publishes(cfg, job, s, s'))
  {
    hide GoodConfig, StoredOk, PcInv, Mine, Run, Quiet, WholeSet, Publishes;
    DeliveryWhole(cfg, job, s, d);
    var s' := Run(cfg, job, d.worker, d.env, Loading, s, 0, d.crashAt).1;
    if Stored(job, s').status in {Succeeded, Partial} {
      var payloads :| WholeSet(cfg, job, Stored(job, s').origin, Stored(job, s').artifacts,
                               Mine(s'.objects, job.runId), Mine(s.objects, job.runId), payloads);
      WholePublishes(cfg, job, s, s', payloads);
    }
  }

  /** Through any crashes and redeliveries, cancellation requested or not: whoever finds the run
      succeeded or partial finds exactly that publication, made since some delivery began. */
  lemma TerminalPublishes(cfg: Config, job: ExecutionJob, s: Shared, ds: seq<Delivery>)
    requires GoodConfig(cfg) && AllQuiet(job.runId, ds) && Inv(cfg, job, Loading, s)
    requires !Stored(job, s).status.IsTerminal()
    ensures var s' := Deliver(cfg, job, s, ds).1;
            && job.runId in s'.runs
            && (Stored(job, s').status in {Succeeded, Partial} ==>
                  exists i :: 0 <= i < |ds| && Publishes(cfg, job, After(cfg, job, s, ds, i), s'))
  {
    hide GoodConfig, Inv, Mine, Quiet, Deliver, WholeSet, After, Publishes;
    TerminalSetWhole(cfg, job, s, ds);
    var s' := Deliver(cfg, job, s, ds).1;
    if Stored(job, s').status in {Succeeded, Partial} {
      var i :| WholeSince(cfg, job, s, ds, i, s');
      var before := After(cfg, job, s, ds, i);
      var payloads :| WholeSet(cfg, job, Stored(job, s').origin, Stored(job, s').artifacts,
                               Mine(s'.objects, job.runId), Mine(before.objects, job.runId), payloads);
      WholePublishes(cfg, job, before, s', payloads);
    }
  }

  /** Where a requested cancellation can change nothing about a build but stop it, that is all the
      run's part of the store ever gained. */
  lemma TerminalPublishesAll(cfg: Config, job: ExecutionJob, s: Shared, ds: seq<Delivery>)
    requires GoodConfig(cfg) && FlagOnlyCancels(cfg) && AllQuiet(job.runId, ds) && Inv(cfg, job, Loading, s)
    requires !Stored(job, s).status.IsTerminal()
    ensures var s' := Deliver(cfg, job, s, ds).1;
            && job.runId in s'.runs
            && (Stored(job, s').status in {Succeeded, Partial} ==> Publishes(cfg, job, s, s'))
  {
    hide GoodConfig, FlagOnlyCancels, Inv, Mine, Quiet, Deliver, WholeSet, Publishes;
    TerminalSetExact(cfg, job, s, ds);
    var s' := Deliver(cfg, job, s, ds).1;
    if Stored(job, s').status in {Succeeded, Partial} {
      var payloads :| WholeSet(cfg, job, Stored(job, s').origin, Stored(job, s').artifacts,
                               Mine(s'.objects, job.runId), Mine(s.objects, job.runId), payloads);
      WholePublishes(cfg, job, s, s', payloads);
    }
  }
}
