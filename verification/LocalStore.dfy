/** `storage/local_analysis_runs.py`: one directory per run, for a single writer. */
module LocalStore {
  import opened Outcomes
  import opened JsonValues
  import opened Contract
  import opened Manifest
  import opened ObjectStorage
  import Port = RepositoryPort

  /** Artifact files by run directory and relative path. */
  type Files = map<(string, string), Bytes>

  /** `_verify_artifacts`: every listed file is there with its recorded size and hash. */
  predicate FilesIntact(sha: Bytes -> Digest, files: Files, runId: string, refs: seq<ArtifactReference>) {
    forall i :: 0 <= i < |refs| ==> FileIntact(sha, files, runId, refs[i])
  }

  predicate FileIntact(sha: Bytes -> Digest, files: Files, runId: string, ref: ArtifactReference) {
    && (runId, ref.relativePath) in files
    && |files[(runId, ref.relativePath)]| == ref.sizeBytes
    && sha(files[(runId, ref.relativePath)]) == ref.sha256
  }

  /** The store's own copy of the transition table. */
  function AllowedFrom(current: RunStatus): set<RunStatus> {
    match current
    case Queued => {Queued, Running, Failed, Cancelled}
    case Running => {Running, Succeeded, Partial, Failed, Cancelled}
    case _ => {}
  }

  /** `save` as the port specifies it, plus the check of the bytes behind a terminal manifest. */
  function SaveSpec(sha: Bytes -> Digest, runs: Port.Runs, files: Files, run: AnalysisRun): Result<Port.Runs> {
    var saved :- Port.Save(runs, run);
    if run.status in {Succeeded, Partial} && !FilesIntact(sha, files, run.RunId(), run.artifacts)
    then Err(TransitionForbidden) else Ok(saved)
  }

  /** `write_artifact`: only while the run is running, and never over a file. */
  function WriteSpec(sha: Bytes -> Digest, runs: Port.Runs, files: Files, runId: string, spec: ArtifactSpec)
    : (Result<ArtifactReference>, Files)
  {
    if !IsUuid4(runId) then (Err(ContractViolation), files)
    else if runId !in runs then (Err(RunNotFound), files)
    else if !runs[runId].manifest.status.Running? then (Err(TransitionForbidden), files)
    else if !IsArtifactPath(spec.relativePath) then (Err(ContractViolation), files)
    else if (runId, spec.relativePath) in files then (Err(ObjectExists), files)
    else
      var ref := ReferenceOf(sha, spec);
      (if ref.Valid() then Ok(ref) else Err(ContractViolation), files[(runId, spec.relativePath) := spec.content])
  }

  /** A write that succeeds was for a running run and a new path; its reference passes the check of a
      later terminal save, and every file there was stays as it was. */
  lemma WrittenIsIntact(sha: Bytes -> Digest, runs: Port.Runs, files: Files, runId: string, spec: ArtifactSpec)
    ensures var (r, after) := WriteSpec(sha, runs, files, runId, spec);
            && (forall at :: at in files ==> at in after && after[at] == files[at])
            && (r.Ok? ==>
                  && runId in runs && runs[runId].manifest.status == Running
                  && (runId, spec.relativePath) !in files
                  && after == files[(runId, spec.relativePath) := spec.content]
                  && r.value == ArtifactReference(spec.artifactId, spec.name, spec.category, spec.relativePath,
                                                  spec.mediaType, sha(spec.content), |spec.content|, spec.schemaVersion)
                  && r.value.Valid() && FilesIntact(sha, after, runId, [r.value]))
  {
    hide ArtifactReference.Valid, IsUuid4, IsArtifactPath;
  }

  /** `runs` are the attempts whose manifests are on disk. */
  ghost predicate Holds(sc: Screen, manifests: map<string, Json>, runs: map<string, AnalysisRun>) {
    && runs.Keys == manifests.Keys
    && forall id :: id in runs ==>
         runs[id].Valid(sc) && runs[id].RunId() == id && manifests[id] == ToDict(runs[id])
  }

  ghost function LocalView(runs: map<string, AnalysisRun>, markers: set<string>): Port.Runs {
    map id | id in runs :: Port.Record(runs[id], id in markers)
  }

  function ParseManifest(sc: Screen, manifests: map<string, Json>, ghost runs: map<string, AnalysisRun>, id: string)
    : (r: Result<AnalysisRun>)
    requires Holds(sc, manifests, runs) && id in manifests
    ensures r == Ok(runs[id])
  {
    RunRoundTrip(sc, runs[id]);
    FromDict(sc, manifests[id])
  }

  lemma IdsValid(sc: Screen, manifests: map<string, Json>, runs: map<string, AnalysisRun>, id: string)
    requires Holds(sc, manifests, runs) && id in manifests
    ensures IsUuid4(id) && runs[id].RunId() == id
  {
    hide ToDict, AnalysisRun.ComponentsValid;
  }

  lemma WriteHolds(sc: Screen, manifests: map<string, Json>, runs: map<string, AnalysisRun>, run: AnalysisRun)
    requires Holds(sc, manifests, runs) && run.Valid(sc)
    ensures Holds(sc, manifests[run.RunId() := ToDict(run)], runs[run.RunId() := run])
  {
    hide ToDict, AnalysisRun.Valid;
  }

  class LocalAnalysisRunStore {
    const screen: Screen
    const sha: Bytes -> Digest
    var manifests: map<string, Json>
    var cancelMarkers: set<string>
    var files: Files
    /** The attempts the manifests stand for. */
    ghost var runs: map<string, AnalysisRun>

    constructor (screen: Screen, sha: Bytes -> Digest)
      ensures Valid() && View() == map[] && files == map[] && this.screen == screen && this.sha == sha
    {
      this.screen, this.sha := screen, sha;
      manifests, cancelMarkers, files := map[], {}, map[];
      runs := map[];
    }

    ghost predicate Valid()
      reads this
    {
      Holds(screen, manifests, runs) && cancelMarkers <= manifests.Keys
    }

    ghost function View(): Port.Runs
      reads this
    {
      LocalView(runs, cancelMarkers)
    }

    method WriteManifest(run: AnalysisRun)
      requires Valid() && run.Valid(screen)
      modifies this`manifests, this`runs
      ensures Valid() && runs == old(runs)[run.RunId() := run]
    {
      WriteHolds(screen, manifests, runs, run);
      manifests := manifests[run.RunId() := ToDict(run)];
      runs := runs[run.RunId() := run];
    }

    method Create(run: AnalysisRun) returns (r: Result<string>)
      requires Valid() && run.Valid(screen)
      modifies this`manifests, this`runs
      ensures Valid()
      ensures r.Ok? ==> r.value == run.RunId() && Port.Create(old(View()), run) == Ok(View())
      ensures r.Err? ==> Port.Create(old(View()), run) == Err(r.fault) && View() == old(View())
    {
      hide Holds, AnalysisRun.Valid, ToDict;
      SameIds();
      if !run.status.Queued? {
        return Err(TransitionForbidden);
      }
      if run.RunId() in manifests {
        return Err(RunAlreadyExists);
      }
      ghost var before := View();
      WriteManifest(run);
      assert View() == before[run.RunId() := Port.Record(run, false)];
      r := Ok(run.RunId());
    }

    lemma SameIds()
      requires Valid()
      ensures runs.Keys == manifests.Keys
    {
      hide ToDict, AnalysisRun.Valid;
    }

    method Load(runId: string) returns (r: Result<AnalysisRun>)
      requires Valid()
      ensures r == if IsUuid4(runId) then Port.Load(View(), runId) else Err(ContractViolation)
    {
      hide Holds, AnalysisRun.Valid, ToDict, FromDict;
      SameIds();
      if !IsUuid4(runId) {
        return Err(ContractViolation);
      }
      if runId !in manifests {
        return Err(RunNotFound);
      }
      r := ParseManifest(screen, manifests, runs, runId);
    }

    method VerifyArtifacts(run: AnalysisRun) returns (intact: bool)
      ensures intact <==> FilesIntact(sha, files, run.RunId(), run.artifacts)
    {
      for i := 0 to |run.artifacts|
        invariant forall j :: 0 <= j < i ==> FileIntact(sha, files, run.RunId(), run.artifacts[j])
      {
        var ref := run.artifacts[i];
        if (run.RunId(), ref.relativePath) !in files {
          return false;
        }
        var content := files[(run.RunId(), ref.relativePath)];
        if |content| != ref.sizeBytes || sha(content) != ref.sha256 {
          return false;
        }
      }
      intact := true;
    }

    method Save(run: AnalysisRun) returns (r: Result<()>)
      requires Valid() && run.Valid(screen)
      modifies this`manifests, this`runs
      ensures Valid()
      ensures r.Ok? ==> SaveSpec(sha, old(View()), files, run) == Ok(View())
      ensures r.Err? ==> SaveSpec(sha, old(View()), files, run) == Err(r.fault) && View() == old(View())
    {
      hide Holds, AnalysisRun.Valid, ToDict, FilesIntact;
      RunIdValid(run);
      var loaded := Load(run.RunId());
      if loaded.Err? {
        return Err(loaded.fault);
      }
      var current := loaded.value;
      if current.status.IsTerminal() {
        return Err(TransitionForbidden);
      }
      if run.status !in AllowedFrom(current.status) {
        return Err(TransitionForbidden);
      }
      if current.origin != run.origin {
        return Err(TransitionForbidden);
      }
      if run.status in {Succeeded, Partial} {
        var intact := VerifyArtifacts(run);
        if !intact {
          return Err(TransitionForbidden);
        }
      }
      ghost var before := View();
      WriteManifest(run);
      assert View() == before[run.RunId() := before[run.RunId()].(manifest := run)];
      r := Ok(());
    }

    lemma RunIdValid(run: AnalysisRun)
      requires run.Valid(screen)
      ensures IsUuid4(run.RunId())
    {
      hide AnalysisRun.ComponentsValid;
    }

    method RequestCancellation(runId: string) returns (r: Result<()>)
      requires Valid()
      modifies this`cancelMarkers
      ensures Valid()
      ensures r.Ok? ==> IsUuid4(runId) && Port.RequestCancellation(old(View()), runId) == Ok(View())
      ensures r.Err? ==> cancelMarkers == old(cancelMarkers)
      ensures r.Err? ==> r.fault == if IsUuid4(runId) then RunNotFound else ContractViolation
      ensures r.Err? && IsUuid4(runId) ==> Port.RequestCancellation(old(View()), runId) == Err(r.fault)
    {
      hide Holds, AnalysisRun.Valid, ToDict;
      SameIds();
      var loaded := Load(runId);
      if loaded.Err? {
        return Err(loaded.fault);
      }
      if loaded.value.status.IsTerminal() {
        return Ok(());
      }
      ghost var before := View();
      cancelMarkers := cancelMarkers + {runId};
      assert View() == before[runId := before[runId].(cancelRequested := true)];
      r := Ok(());
    }

    method CancellationRequested(runId: string) returns (r: Result<bool>)
      requires Valid()
      ensures r == if IsUuid4(runId) then Ok(Port.CancellationRequested(View(), runId)) else Err(ContractViolation)
    {
      hide AnalysisRun.Valid, ToDict;
      if !IsUuid4(runId) {
        return Err(ContractViolation);
      }
      r := Ok(runId in cancelMarkers);
    }

    /** Directories come in any order; the listing is sorted by creation time, newest first. */
    method ListRuns() returns (out: seq<AnalysisRun>)
      requires Valid()
      ensures Port.IsListing(View(), out)
    {
      hide Holds, AnalysisRun.Valid, ToDict, FromDict, AnalysisRun.RunId;
      SameIds();
      out := [];
      var rest := manifests.Keys;
      ghost var view := View();
      ghost var listed: Port.Runs := map[];
      while rest != {}
        invariant rest <= manifests.Keys
        invariant listed.Keys == manifests.Keys - rest
        invariant forall id :: id in listed ==> listed[id] == view[id]
        invariant Port.IsListing(listed, out)
      {
        var id :| id in rest;
        var run := ParseManifest(screen, manifests, runs, id).value;
        IdsValid(screen, manifests, runs, id);
        Port.InsertListing(listed, out, id, view[id]);
        out := Port.InsertNewest(out, run);
        rest := rest - {id};
        listed := listed[id := view[id]];
      }
      assert listed == view;
    }

    method WriteArtifact(runId: string, spec: ArtifactSpec) returns (r: Result<ArtifactReference>)
      requires Valid()
      modifies this`files
      ensures Valid()
      ensures (r, files) == WriteSpec(sha, View(), old(files), runId, spec)
    {
      hide Holds, AnalysisRun.Valid, ToDict, ArtifactReference.Valid;
      SameIds();
      var loaded := Load(runId);
      if loaded.Err? {
        return Err(loaded.fault);
      }
      if !loaded.value.status.Running? {
        return Err(TransitionForbidden);
      }
      if !IsArtifactPath(spec.relativePath) {
        return Err(ContractViolation);
      }
      if (runId, spec.relativePath) in files {
        return Err(ObjectExists);
      }
      files := files[(runId, spec.relativePath) := spec.content];
      var ref := ReferenceOf(sha, spec);
      r := if ref.Valid() then Ok(ref) else Err(ContractViolation);
    }
  }
}
