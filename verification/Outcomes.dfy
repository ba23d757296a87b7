/** Failure-carrying results shared by every module, and the JSON values that
    manifests, parameters and metrics are made of. */
module Outcomes {

  datatype Option<+T> = None | Some(value: T)

  /** The exceptions of the modelled code, one constructor per class that is told apart. */
  datatype Fault =
    | ContractViolation                                // ContractValidationError
    | InvalidTransition                                // InvalidStatusTransition
    | TransitionForbidden                              // ManifestTransitionError / ManifestConflictError
    | RunNotFound
    | RunAlreadyExists
    | UniqueViolation                                  // a database uniqueness constraint
    | VersionConflict                                  // ConcurrencyConflictError
    | ObjectExists                                     // write-once object storage
    | ObjectNotFound
    | InvalidObject
    | DuplicateJob
    | LookupFault                                      // IndexError / KeyError
    | ExecutionFailure(code: string, message: string)

  datatype Result<+T> = Ok(value: T) | Err(fault: Fault) {
    predicate IsFailure() {
      Err?
    }

    function PropagateFailure<U>(): Result<U>
      requires Err?
    {
      Err(fault)
    }

    function Extract(): T
      requires Ok?
    {
      value
    }
  }

  predicate Distinct<T(==)>(s: seq<T>) {
    forall i, j :: 0 <= i < j < |s| ==> s[i] != s[j]
  }
}

module JsonValues {
  import opened Outcomes

  /** An instant on the UTC time line. */
  type Instant = int

  /** An object key: the names the contract fixes, and every other text. */
  datatype Key =
    | KUri | KSha256 | KMediaType | KRepository | KRevision | KDirty | KName | KVersion | KArtifactId 
    | KCategory | KRelativePath | KSizeBytes | KSchemaVersion | KErrorCode | KSafeMessage | KRetryable 
    | KOccurredAt | KTechnicalDetails | KStageId | KStageName | KRequired | KStatus | KProgressPercent 
    | KAttemptNumber | KStartedAt | KFinishedAt | KProducedArtifactIds | KError | KPerformanceMetrics 
    | KMessage | KContractVersion | KLogicalAnalysisId | KRunId | KPreviousAttemptRunId | KDataOrigin 
    | KInput | KCode | KPipelineVersion | KParameters | KModels | KArtifacts | KStages | KCreatedAt 
    | KCompletedAt | KFailure | KPartialReason | KCancellationReason
    | Named(text: string)

  /** A decoded JSON value. `Stamp` is the RFC 3339 text of an instant: printing and parsing
      that text is left to the platform library, as one exact inverse pair. */
  datatype Json =
    | Null
    | Bool(flag: bool)
    | Int(number: int)
    | Num(quantity: real)
    | Str(chars: string)
    | Stamp(instant: Instant)
    | Arr(items: seq<Json>)
    | Obj(fields: map<Key, Json>)
  {
    /** The truth value Python gives the decoded value. */
    predicate Truthy() {
      match this
      case Null => false
      case Bool(b) => b
      case Int(i) => i != 0
      case Num(x) => x != 0.0
      case Str(s) => s != ""
      case Stamp(_) => true
      case Arr(xs) => xs != []
      case Obj(m) => |m| != 0
    }
  }

  predicate ExactKeys(m: map<Key, Json>, required: set<Key>, optional: set<Key>) {
    required <= m.Keys && m.Keys <= required + optional
  }

  function AsText(j: Json): Result<string> {
    if j.Str? then Ok(j.chars) else Err(ContractViolation)
  }

  function AsInt(j: Json): Result<int> {
    if j.Int? then Ok(j.number) else Err(ContractViolation)
  }

  function AsBool(j: Json): Result<bool> {
    if j.Bool? then Ok(j.flag) else Err(ContractViolation)
  }

  function AsNumber(j: Json): Result<real> {
    match j
    case Int(i) => Ok(i as real)
    case Num(x) => Ok(x)
    case _ => Err(ContractViolation)
  }

  function AsInstant(j: Json): Result<Instant> {
    if j.Stamp? then Ok(j.instant) else Err(ContractViolation)
  }

  function AsArray(j: Json): Result<seq<Json>> {
    if j.Arr? then Ok(j.items) else Err(ContractViolation)
  }

  function AsObject(j: Json): Result<map<Key, Json>> {
    if j.Obj? then Ok(j.fields) else Err(ContractViolation)
  }

  /** Absent and null both mean `None`, as for `data.get(key)`. */
  function OptionalText(j: Json): Result<Option<string>> {
    if j.Null? then Ok(None) else var t :- AsText(j); Ok(Some(t))
  }

  function GetOrNull(m: map<Key, Json>, key: Key): Json {
    if key in m then m[key] else Null
  }
}
