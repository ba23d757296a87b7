/** `storage/object_storage/keys.py`: deterministic run-scoped keys. */
module ObjectKeys {
  import opened Outcomes
  import opened Contract

  function RunPrefix(runId: string): string {
    "runs/" + runId + "/"
  }

  function InputPrefix(runId: string): string {
    RunPrefix(runId) + "input/"
  }

  function ArtifactPrefix(runId: string): string {
    RunPrefix(runId) + "artifacts/"
  }

  predicate IsExtension(extension: string) {
    |extension| > 0 && extension[0] == '.' && '/' !in extension && '\\' !in extension
  }

  function InputKey(runId: string, extension: string): Result<string> {
    if !IsExtension(extension) || !IsUuid4(runId) then Err(ContractViolation)
    else Ok(InputPrefix(runId) + "source" + extension)
  }

  function ArtifactKey(runId: string, relativePath: string): Result<string> {
    if !IsArtifactPath(relativePath) || !IsUuid4(runId) then Err(ContractViolation)
    else Ok(RunPrefix(runId) + relativePath)
  }

  function HasPrefix(key: string, prefix: string): (b: bool) {
    |prefix| <= |key| && key[..|prefix|] == prefix
  }

  /** The last suffix of the final path component, as `Path(key).suffix` finds it. */
  function Suffix(key: string): string {
    SuffixFrom(key, |key|)
  }

  /** `key[end..]` holds neither a dot nor a slash. */
  function SuffixFrom(key: string, end: nat): string
    requires end <= |key|
  {
    if end == 0 || key[end - 1] == '/' then ""
    else if key[end - 1] == '.' then
      if end == |key| || end == 1 || key[end - 2] == '/' then "" else key[end - 1..]
    else SuffixFrom(key, end - 1)
  }

  // ---------------------------------------------------------------- separation

  lemma {:induction false} SplitStart(s: string)
    ensures Split(s)[0] <= s
    ensures |Split(s)| >= 2 ==> |Split(s)[0]| < |s| && s[|Split(s)[0]|] == '/'
  {
    if s == "" || s[0] == '/' {
    } else {
      SplitStart(s[1..]);
      assert s == [s[0]] + s[1..];
    }
  }

  lemma ArtifactPathStart(path: string)
    requires IsArtifactPath(path)
    ensures HasPrefix(path, "artifacts/")
  {
    SplitStart(path);
    assert path[..10] == path[..9] + [path[9]];
  }

  /** A key under one run's prefix is under no other run's. */
  lemma PrefixNamesRun(key: string, a: string, b: string)
    requires IsUuid4(a) && IsUuid4(b)
    requires HasPrefix(key, RunPrefix(a)) && HasPrefix(key, RunPrefix(b))
    ensures a == b
  {
    assert RunPrefix(a) == key[..42] == RunPrefix(b);
    assert a == RunPrefix(a)[5..41] && b == RunPrefix(b)[5..41];
  }

  lemma KeyRest(runId: string, rest: string)
    requires IsUuid4(runId)
    ensures HasPrefix(RunPrefix(runId) + rest, RunPrefix(runId))
    ensures |RunPrefix(runId)| == 42 && (RunPrefix(runId) + rest)[42..] == rest
  {
  }

  /** Artifact keys name their run and path, and never collide with an input key. */
  lemma ArtifactKeysInjective(a: string, p: string, b: string, q: string)
    requires ArtifactKey(a, p).Ok? && ArtifactKey(b, q).Ok?
    ensures ArtifactKey(a, p) == ArtifactKey(b, q) <==> a == b && p == q
  {
    KeyRest(a, p);
    KeyRest(b, q);
    if ArtifactKey(a, p) == ArtifactKey(b, q) {
      PrefixNamesRun(RunPrefix(a) + p, a, b);
    }
  }

  lemma InputKeyShape(a: string, extension: string)
    requires InputKey(a, extension).Ok?
    ensures InputKey(a, extension).value == RunPrefix(a) + ("input/" + "source" + extension)
    ensures HasPrefix(InputKey(a, extension).value, InputPrefix(a))
  {
  }

  lemma InputApartFromArtifacts(a: string, extension: string, b: string)
    requires InputKey(a, extension).Ok? && IsUuid4(b)
    ensures !HasPrefix(InputKey(a, extension).value, ArtifactPrefix(b))
  {
    InputKeyShape(a, extension);
    var key := InputKey(a, extension).value;
    KeyRest(a, "input/" + "source" + extension);
    assert key[42] == 'i' && ArtifactPrefix(b)[42] == 'a';
  }

  lemma ArtifactApartFromInputs(a: string, path: string, b: string)
    requires ArtifactKey(a, path).Ok? && IsUuid4(b)
    ensures HasPrefix(ArtifactKey(a, path).value, ArtifactPrefix(a))
    ensures HasPrefix(ArtifactKey(a, path).value, ArtifactPrefix(b)) ==> a == b
    ensures !HasPrefix(ArtifactKey(a, path).value, InputPrefix(b))
  {
    var key := ArtifactKey(a, path).value;
    ArtifactPathStart(path);
    KeyRest(a, path);
    assert path == path[..10] + path[10..];
    assert key == ArtifactPrefix(a) + path[10..];
    if HasPrefix(key, ArtifactPrefix(b)) {
      assert RunPrefix(b) == ArtifactPrefix(b)[..42] == key[..42];
      PrefixNamesRun(key, a, b);
    }
    assert key[42] == 'a' && InputPrefix(b)[42] == 'i';
  }

  lemma InputPrefixNamesRun(a: string, extension: string, b: string)
    requires InputKey(a, extension).Ok? && IsUuid4(b)
    ensures HasPrefix(InputKey(a, extension).value, InputPrefix(b)) <==> a == b
  {
    InputKeyShape(a, extension);
    var key := InputKey(a, extension).value;
    KeyRest(a, "input/" + "source" + extension);
    if HasPrefix(key, InputPrefix(b)) {
      assert RunPrefix(b) == InputPrefix(b)[..42] == key[..42];
      PrefixNamesRun(key, a, b);
    }
  }
}

/** `storage/object_storage/memory.py`: write-once objects with integrity metadata. */
module ObjectStorage {
  import opened Outcomes
  import opened Contract
  import opened ObjectKeys

  datatype StoredObject = StoredObject(
    data: Bytes, artifactId: Option<string>, sha256: string, sizeBytes: int, contentType: string)

  /** The dictionary of objects, in insertion order. */
  type Objects = seq<(string, StoredObject)>

  datatype ArtifactSpec = ArtifactSpec(
    artifactId: string, name: string, category: ArtifactCategory, relativePath: string,
    content: Bytes, mediaType: string, schemaVersion: Option<string>)

  predicate HasKey(objects: Objects, key: string) {
    exists i :: 0 <= i < |objects| && objects[i].0 == key
  }

  ghost predicate KeysUnique(objects: Objects) {
    forall i, j :: 0 <= i < j < |objects| ==> objects[i].0 != objects[j].0
  }

  predicate IsArtifactOf(entry: (string, StoredObject), runId: string, artifactId: string) {
    HasPrefix(entry.0, ArtifactPrefix(runId)) && entry.1.artifactId == Some(artifactId)
  }

  predicate IsInputOf(entry: (string, StoredObject), runId: string) {
    HasPrefix(entry.0, InputPrefix(runId))
  }

  function ReferenceOf(sha: Bytes -> Digest, spec: ArtifactSpec): ArtifactReference {
    ArtifactReference(spec.artifactId, spec.name, spec.category, spec.relativePath, spec.mediaType,
                      sha(spec.content), |spec.content|, spec.schemaVersion)
  }

  function ObjectOf(sha: Bytes -> Digest, spec: ArtifactSpec): StoredObject {
    StoredObject(spec.content, Some(spec.artifactId), sha(spec.content), |spec.content|, spec.mediaType)
  }

  /** The outcome of a write and the objects afterwards. The object is stored before the reference
      is validated, so an invalid reference still leaves its object behind. */
  function WriteArtifact(sha: Bytes -> Digest, objects: Objects, runId: string, spec: ArtifactSpec)
    : (Result<ArtifactReference>, Objects)
  {
    match ArtifactKey(runId, spec.relativePath)
    case Err(f) => (Err(f), objects)
    case Ok(key) =>
      if HasKey(objects, key) then (Err(ObjectExists), objects)
      else
        var ref := ReferenceOf(sha, spec);
        (if ref.Valid() then Ok(ref) else Err(ContractViolation), objects + [(key, ObjectOf(sha, spec))])
  }

  /** The first object of the run carrying the artifact id. */
  function Resolve(objects: Objects, runId: string, artifactId: string): Option<StoredObject> {
    if objects == [] then None
    else if IsArtifactOf(objects[0], runId, artifactId) then Some(objects[0].1)
    else Resolve(objects[1..], runId, artifactId)
  }

  /** `artifact_reference_integrity`. */
  predicate ReferenceIntact(sha: Bytes -> Digest, objects: Objects, runId: string, ref: ArtifactReference) {
    match Resolve(objects, runId, ref.artifactId)
    case None => false
    case Some(stored) => |stored.data| == ref.sizeBytes && sha(stored.data) == ref.sha256
  }

  function Inputs(objects: Objects, runId: string): seq<(string, StoredObject)> {
    if objects == [] then []
    else (if IsInputOf(objects[0], runId) then [objects[0]] else []) + Inputs(objects[1..], runId)
  }

  /** The run's single input; none or several is an error. */
  function InputObject(objects: Objects, runId: string): Result<(string, StoredObject)> {
    var found := Inputs(objects, runId);
    if |found| == 1 then Ok(found[0]) else Err(ObjectNotFound)
  }

  function PutInput(sha: Bytes -> Digest, objects: Objects, runId: string, content: Bytes,
                          extension: string, contentType: string): (Result<string>, Objects)
  {
    match InputKey(runId, extension)
    case Err(f) => (Err(f), objects)
    case Ok(key) =>
      if HasKey(objects, key) then (Err(ObjectExists), objects)
      else (Ok(key), objects + [(key, StoredObject(content, None, sha(content), |content|, contentType))])
  }

  // ---------------------------------------------------------------- what the store promises

  /** The reference's bytes are stored under the run's own key with the recorded size and hash. */
  ghost predicate Published(sha: Bytes -> Digest, objects: Objects, runId: string, ref: ArtifactReference) {
    && ArtifactKey(runId, ref.relativePath).Ok?
    && exists i :: 0 <= i < |objects|
         && objects[i].0 == ArtifactKey(runId, ref.relativePath).value
         && objects[i].1.artifactId == Some(ref.artifactId)
         && |objects[i].1.data| == ref.sizeBytes && sha(objects[i].1.data) == ref.sha256
  }

  /** Every store operation appends: `later` keeps every object of `earlier`. */
  ghost predicate Extends(earlier: Objects, later: Objects) {
    earlier <= later
  }

  lemma PublishedForever(sha: Bytes -> Digest, earlier: Objects, later: Objects, runId: string, ref: ArtifactReference)
    requires Extends(earlier, later) && Published(sha, earlier, runId, ref)
    ensures Published(sha, later, runId, ref)
  {
    var key := ArtifactKey(runId, ref.relativePath).value;
    var i :| 0 <= i < |earlier| && earlier[i].0 == key && earlier[i].1.artifactId == Some(ref.artifactId)
      && |earlier[i].1.data| == ref.sizeBytes && sha(earlier[i].1.data) == ref.sha256;
    assert later[i] == earlier[i];
  }

  /** Only the artifact's own path can carry its id: no other object of the run answers for it. */
  ghost predicate OwnPath(objects: Objects, runId: string, artifactId: string, relativePath: string) {
    forall i :: 0 <= i < |objects| && IsArtifactOf(objects[i], runId, artifactId) ==>
      objects[i].0 == RunPrefix(runId) + relativePath
  }

  lemma {:induction false} ResolveFinds(objects: Objects, runId: string, artifactId: string, i: nat)
    requires i < |objects| && IsArtifactOf(objects[i], runId, artifactId)
    requires forall j :: 0 <= j < |objects| && IsArtifactOf(objects[j], runId, artifactId) ==>
      objects[j].1 == objects[i].1
    ensures Resolve(objects, runId, artifactId) == Some(objects[i].1)
  {
    if !IsArtifactOf(objects[0], runId, artifactId) {
      ResolveFinds(objects[1..], runId, artifactId, i - 1);
    }
  }

  /** A fresh write reads back intact, now and after any further writes. */
  lemma WrittenReadsBack(sha: Bytes -> Digest, objects: Objects, runId: string, spec: ArtifactSpec, later: Objects)
    requires KeysUnique(later)
    requires WriteArtifact(sha, objects, runId, spec).0.Ok?
    requires Extends(WriteArtifact(sha, objects, runId, spec).1, later)
    requires OwnPath(later, runId, spec.artifactId, spec.relativePath)
    ensures Published(sha, later, runId, ReferenceOf(sha, spec))
    ensures ReferenceIntact(sha, later, runId, ReferenceOf(sha, spec))
  {
    var key := ArtifactKey(runId, spec.relativePath).value;
    var i := |objects|;
    assert later[i] == WriteArtifact(sha, objects, runId, spec).1[i] == (key, ObjectOf(sha, spec));
    ArtifactApartFromInputs(runId, spec.relativePath, runId);
    ResolveFinds(later, runId, spec.artifactId, i);
  }

  lemma {:induction false} ResolveSome(objects: Objects, runId: string, artifactId: string)
    ensures match Resolve(objects, runId, artifactId)
            case Some(stored) => exists i :: 0 <= i < |objects| && objects[i].1 == stored
                                             && IsArtifactOf(objects[i], runId, artifactId)
            case None => forall i :: 0 <= i < |objects| ==> !IsArtifactOf(objects[i], runId, artifactId)
  {
    if objects != [] && !IsArtifactOf(objects[0], runId, artifactId) {
      ResolveSome(objects[1..], runId, artifactId);
      if Resolve(objects[1..], runId, artifactId).Some? {
        var i :| 0 <= i < |objects[1..]| && objects[1..][i].1 == Resolve(objects[1..], runId, artifactId).value
          && IsArtifactOf(objects[1..][i], runId, artifactId);
        assert objects[i + 1] == objects[1..][i];
      } else {
        forall i | 0 <= i < |objects| ensures !IsArtifactOf(objects[i], runId, artifactId) {
          assert i > 0 ==> objects[i] == objects[1..][i - 1];
        }
      }
    }
  }

  lemma {:induction false} InputsAppend(objects: Objects, entry: (string, StoredObject), runId: string)
    ensures Inputs(objects + [entry], runId) == Inputs(objects, runId) + (if IsInputOf(entry, runId) then [entry] else [])
  {
    hide IsInputOf;
    var all := objects + [entry];
    var last := if IsInputOf(entry, runId) then [entry] else [];
    if objects == [] {
      assert all == [entry] && all[1..] == [];
      assert Inputs(all, runId) == last + Inputs(all[1..], runId);
    } else {
      assert all[0] == objects[0] && all[1..] == objects[1..] + [entry];
      var head := if IsInputOf(objects[0], runId) then [objects[0]] else [];
      InputsAppend(objects[1..], entry, runId);
      assert Inputs(all, runId) == head + Inputs(all[1..], runId);
      assert Inputs(objects, runId) == head + Inputs(objects[1..], runId);
      assert head + (Inputs(objects[1..], runId) + last) == (head + Inputs(objects[1..], runId)) + last;
    }
  }

  /** Writing an artifact never changes any run's input. */
  lemma WriteKeepsInputs(sha: Bytes -> Digest, objects: Objects, runId: string, spec: ArtifactSpec, other: string)
    requires IsUuid4(other)
    ensures InputObject(WriteArtifact(sha, objects, runId, spec).1, other) == InputObject(objects, other)
  {
    if ArtifactKey(runId, spec.relativePath).Ok? {
      var key := ArtifactKey(runId, spec.relativePath).value;
      ArtifactApartFromInputs(runId, spec.relativePath, other);
      InputsAppend(objects, (key, ObjectOf(sha, spec)), other);
    }
  }

  /** Storing one run's input never changes another's. */
  lemma PutKeepsOtherInputs(sha: Bytes -> Digest, objects: Objects, runId: string, content: Bytes,
                            extension: string, contentType: string, other: string)
    requires IsUuid4(other) && other != runId
    ensures InputObject(PutInput(sha, objects, runId, content, extension, contentType).1, other)
         == InputObject(objects, other)
  {
    if InputKey(runId, extension).Ok? {
      var key := InputKey(runId, extension).value;
      InputPrefixNamesRun(runId, extension, other);
      InputsAppend(objects, (key, StoredObject(content, None, sha(content), |content|, contentType)), other);
    }
  }

  /** The bytes are of the recorded size and hash. */
  predicate Whole(sha: Bytes -> Digest, stored: StoredObject) {
    |stored.data| == stored.sizeBytes && sha(stored.data) == stored.sha256
  }

  class InMemoryObjectStorage {
    const sha: Bytes -> Digest
    var objects: Objects

    constructor (sha: Bytes -> Digest)
      ensures Valid() && objects == [] && this.sha == sha
    {
      this.sha := sha;
      objects := [];
    }

    ghost predicate Valid()
      reads this
    {
      KeysUnique(objects)
    }

    method Find(key: string) returns (found: bool)
      ensures found <==> HasKey(objects, key)
    {
      found := false;
      for i := 0 to |objects|
        invariant !found && forall j :: 0 <= j < i ==> objects[j].0 != key
      {
        if objects[i].0 == key {
          return true;
        }
      }
    }

    method Write(runId: string, spec: ArtifactSpec) returns (r: Result<ArtifactReference>)
      requires Valid()
      modifies this
      ensures Valid()
      ensures (r, objects) == WriteArtifact(sha, old(objects), runId, spec)
    {
      var key := ArtifactKey(runId, spec.relativePath);
      if key.Err? {
        return Err(key.fault);
      }
      var taken := Find(key.value);
      if taken {
        return Err(ObjectExists);
      }
      objects := objects + [(key.value, ObjectOf(sha, spec))];
      var ref := ReferenceOf(sha, spec);
      r := if ref.Valid() then Ok(ref) else Err(ContractViolation);
    }

    method ResolveArtifact(runId: string, artifactId: string) returns (r: Option<StoredObject>)
      ensures r == Resolve(objects, runId, artifactId)
    {
      for i := 0 to |objects|
        invariant Resolve(objects, runId, artifactId) == Resolve(objects[i..], runId, artifactId)
      {
        if IsArtifactOf(objects[i], runId, artifactId) {
          return Some(objects[i].1);
        }
      }
      r := None;
    }

    method ArtifactReferenceIntegrity(runId: string, ref: ArtifactReference) returns (ok: bool)
      ensures ok <==> ReferenceIntact(sha, objects, runId, ref)
    {
      var stored := ResolveArtifact(runId, ref.artifactId);
      ok := stored.Some? && |stored.value.data| == ref.sizeBytes && sha(stored.value.data) == ref.sha256;
    }

    /** Bytes are returned only when they match the registered size and hash and fit the limit. */
    method ReadArtifactBytes(runId: string, artifactId: string, maxBytes: int) returns (r: Result<Bytes>)
      ensures r == Err(ContractViolation) <==> maxBytes < 1
      ensures r.Ok? ==> exists i :: 0 <= i < |objects| && IsArtifactOf(objects[i], runId, artifactId)
                                     && objects[i].1.data == r.value && sha(r.value) == objects[i].1.sha256
                                     && |r.value| == objects[i].1.sizeBytes <= maxBytes
      ensures r.Ok? <==> && maxBytes >= 1 && Resolve(objects, runId, artifactId).Some?
                         && Whole(sha, Resolve(objects, runId, artifactId).value)
                         && Resolve(objects, runId, artifactId).value.sizeBytes <= maxBytes
      ensures r.Err? ==> r.fault in {ContractViolation, ObjectNotFound, InvalidObject}
      ensures r == Err(ObjectNotFound) <==> maxBytes >= 1 && Resolve(objects, runId, artifactId).None?
      ensures r.Ok? ==> Resolve(objects, runId, artifactId).Some? && Resolve(objects, runId, artifactId).value.data == r.value
    {
      if maxBytes < 1 {
        return Err(ContractViolation);
      }
      var stored := ResolveArtifact(runId, artifactId);
      ResolveSome(objects, runId, artifactId);
      if stored.None? {
        return Err(ObjectNotFound);
      }
      var size := stored.value.sizeBytes;
      if size > maxBytes || |stored.value.data| != size || sha(stored.value.data) != stored.value.sha256 {
        return Err(InvalidObject);
      }
      r := Ok(stored.value.data);
    }

    method SoleInput(runId: string) returns (r: Result<(string, StoredObject)>)
      ensures r == InputObject(objects, runId)
    {
      var matches := [];
      assert objects[..0] == [];
      for i := 0 to |objects|
        invariant matches == Inputs(objects[..i], runId)
      {
        assert objects[..i + 1] == objects[..i] + [objects[i]];
        InputsAppend(objects[..i], objects[i], runId);
        if IsInputOf(objects[i], runId) {
          matches := matches + [objects[i]];
        }
      }
      assert objects[..|objects|] == objects;
      r := if |matches| == 1 then Ok(matches[0]) else Err(ObjectNotFound);
    }

    method Put(runId: string, content: Bytes, extension: string, contentType: string) returns (r: Result<string>)
      requires Valid()
      modifies this
      ensures Valid()
      ensures (r, objects) == PutInput(sha, old(objects), runId, content, extension, contentType)
    {
      var key := InputKey(runId, extension);
      if key.Err? {
        return Err(key.fault);
      }
      var taken := Find(key.value);
      if taken {
        return Err(ObjectExists);
      }
      objects := objects + [(key.value, StoredObject(content, None, sha(content), |content|, contentType))];
      r := Ok(key.value);
    }

    /** Copy the single input of one run to another; the bytes and type travel unchanged. */
    method CopyInput(source: string, destination: string) returns (r: Result<()>)
      requires Valid()
      modifies this
      ensures Valid() && Extends(old(objects), objects)
      ensures r.Err? ==> objects == old(objects)
      ensures r.Ok? <==> && InputObject(old(objects), source).Ok?
                         && var key := InputKey(destination, Suffix(InputObject(old(objects), source).value.0));
                            key.Ok? && !HasKey(old(objects), key.value)
      ensures r.Ok? ==> |objects| == |old(objects)| + 1 && InputObject(old(objects), source).Ok?
      ensures r.Ok? && Inputs(old(objects), destination) == [] ==>
                var given, copy := InputObject(old(objects), source), InputObject(objects, destination);
                && copy.Ok? && given.Ok?
                && copy.value.1.data == given.value.1.data && copy.value.1.contentType == given.value.1.contentType
    {
      var found := SoleInput(source);
      if found.Err? {
        return Err(found.fault);
      }
      var put := Put(destination, found.value.1.data, Suffix(found.value.0), found.value.1.contentType);
      if put.Err? {
        return Err(put.fault);
      }
      InputPrefixNamesRun(destination, Suffix(found.value.0), destination);
      InputsAppend(old(objects), objects[|objects| - 1], destination);
      r := Ok(());
    }
  }
}
