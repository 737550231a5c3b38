/** The store's rows, its journal events and its error answers
    (internal/store/store.go, internal/store/events.go). */
module Records {
  import opened Lifecycle

  datatype Option<+T> = None | Some(value: T)

  datatype Reason =
    | MaintenanceIdExists | ImmutableCaptureMismatch | CaptureRequiresNewMaintenance | LockInUse
    | UncapturedFailureReopensToNew | CapturedFailureReopensToActivePhase | MaintenanceIsTerminal
    | CancelRequiresUnexercisedTargets | TargetsNotStopped | MaintenanceHasNoCapture
    | MaintenanceHasNoTargets | TargetNotReconciled | ParentMaintenanceTerminal
    | UnresolvedTargetRequiresSkip | TargetIsTerminal | OriginallyStoppedTarget | TargetPhaseMismatch
    | ObservationRequestIdReused

  datatype Error =
    | NotFound | Conflict(reason: Reason) | VersionConflict | PreconditionRequired | Forbidden | Invalid | Internal

  datatype Outcome<+T> = Ok(value: T) | Err(error: Error)

  // ---- Requests ----

  datatype AuditContext = AuditContext(actor: string, role: string, requestId: string)

  /** Empty audit fields are stored as "system" (auditValues). */
  function AuditValues(a: AuditContext): AuditContext {
    AuditContext(
      if a.actor == "" then "system" else a.actor,
      if a.role == "" then "system" else a.role,
      if a.requestId == "" then "system" else a.requestId)
  }

  predicate IsAdmin(role: string) { role == "admin" }

  /** The versions an If-Match request accepts. */
  datatype VersionPrecondition = VersionPrecondition(any: bool, versions: seq<int>) {
    predicate Matches(version: int) {
      any || version in versions
    }

    /** The answer of `require`: nothing to object, or the error sent back. */
    function Objection(version: int): Option<Error> {
      if !any && |versions| == 0 then Some(PreconditionRequired)
      else if !Matches(version) then Some(VersionConflict)
      else None
    }
  }

  /** `VersionPrecondition.match` walks the listed versions. */
  method MatchVersion(p: VersionPrecondition, version: int) returns (found: bool)
    ensures found == p.Matches(version)
  {
    if p.any {
      return true;
    }
    for i := 0 to |p.versions|
      invariant version !in p.versions[..i]
    {
      if p.versions[i] == version {
        return true;
      }
    }
    return false;
  }

  /** How many arrays and objects may enclose each other: in a text that Go's decoder reads, and in one that
      SQLite's json_valid accepts. */
  const GO_DEPTH := 10000
  const SQL_DEPTH := 1000

  /** An opaque text that holds JSON, and how deeply that JSON is nested. What Go cannot decode is no value of
      this type: where a request may carry it, the request's field is None. */
  datatype RawJson = RawJson(text: string, depth: nat)
  type Json = j: RawJson | j.depth <= GO_DEPTH witness RawJson("{}", 1)

  const EMPTY_OBJECT: Json := RawJson("{}", 1)

  function Max(a: nat, b: nat): nat { if a < b then b else a }

  /** A requested state; `detail` is None when it is not valid JSON or too large. */
  datatype StateChange = StateChange(state: StateName, justification: string, detail: Option<Json>)

  /** A new run; `identity` stands for the ticket, workflow label, metadata and creation time, and is
      None when they fail their size or JSON checks. */
  datatype RunInput = RunInput(id: string, state: StateName, identity: Option<Json>)

  /** One target of a discovery document as it arrives; `carried` stands for kind, host, observation
      time and metadata, and is None when they fail their checks. */
  datatype TargetInput = TargetInput(id: string, lockKey: string, original: StateName, carried: Option<Json>)

  /** The "targets" member of a discovery document. */
  datatype TargetsField = Absent | NotAnArray | Items(items: seq<TargetInput>)

  /** How deeply the array of targets nests below its own brackets. */
  function TargetsDepth(ts: seq<TargetInput>): nat {
    if ts == [] then 0
    else
      var t := ts[|ts| - 1];
      Max(TargetsDepth(ts[..|ts| - 1]), 1 + (if t.carried.Some? then t.carried.value.depth else 0))
  }

  /** A discovery document in canonical form; `rest` stands for every other member. */
  datatype RawDocument = RawDocument(targets: TargetsField, rest: Json) {
    function Depth(): nat {
      1 + Max(rest.depth, if targets.Items? then 1 + TargetsDepth(targets.items) else 0)
    }
  }
  type Document = d: RawDocument | d.Depth() <= GO_DEPTH witness RawDocument(Absent, RawJson("", 0))

  const EMPTY_DOCUMENT: Document := RawDocument(Absent, RawJson("", 0))

  /** The depth of a document is the least that its members allow: one level for the document, one for the
      array of targets, one for each target. */
  lemma DepthIsLeast(d: RawDocument, bound: nat)
    ensures d.Depth() <= bound <==>
              && 1 + d.rest.depth <= bound
              && (d.targets.Items? ==>
                    && 2 <= bound
                    && forall i :: 0 <= i < |d.targets.items| ==>
                         3 + (if d.targets.items[i].carried.Some? then d.targets.items[i].carried.value.depth
                             else 0) <= bound)
  {
    if d.targets.Items? && bound >= 2 {
      TargetsDepthIsLeast(d.targets.items, bound - 2);
    }
  }

  lemma {:induction false} TargetsDepthIsLeast(ts: seq<TargetInput>, bound: nat)
    ensures TargetsDepth(ts) <= bound <==>
              forall i :: 0 <= i < |ts| ==> 1 + (if ts[i].carried.Some? then ts[i].carried.value.depth else 0) <= bound
  {
    if ts == [] {
    } else {
      var n := |ts| - 1;
      TargetsDepthIsLeast(ts[..n], bound);
      assert forall i :: 0 <= i < n ==> ts[..n][i] == ts[i];
    }
  }

  /** The document of one target. */
  function Single(t: TargetInput): (d: Document)
    requires t.carried.Some? && t.carried.value.depth + 3 <= GO_DEPTH
    ensures d.targets == Items([t]) && d.Depth() == t.carried.value.depth + 3
  {
    assert TargetsDepth([t][..0]) == 0;
    RawDocument(Items([t]), EMPTY_OBJECT)
  }

  /** The metadata of a target lies three levels deep in its document. */
  lemma {:induction false} MetadataWithin(ts: seq<TargetInput>, i: int)
    requires 0 <= i < |ts| && ts[i].carried.Some?
    ensures 1 + ts[i].carried.value.depth <= TargetsDepth(ts)
  {
    var n := |ts| - 1;
    if i < n {
      assert ts[..n][i] == ts[i];
      MetadataWithin(ts[..n], i);
    }
  }

  /** The digest of a canonical document, idealised as collision free. */
  datatype Digest = Sha256(of: Document)

  // ---- Rows ----

  /** A target of a parsed capture, its lock key trimmed. */
  datatype CaptureTarget = CaptureTarget(id: string, lockKey: string, original: StateName, carried: Json)

  datatype Capture = Capture(document: Document, digest: Digest)

  datatype Target = Target(lockKey: string, state: StateName, original: StateName, carried: Json, version: int)

  /** A run with its capture and its targets: everything the store keeps under one run id. */
  datatype RunRecord = RunRecord(
    state: StateName, version: int, identity: Json, capture: Option<Capture>, targets: map<string, Target>)

  // ---- Journal ----

  datatype EventKind =
    | MaintenanceCreated | MaintenanceCaptured | MaintenanceTransitioned | MaintenanceReopened
    | MaintenanceCompleted | TargetTransitioned | TargetSkipped | TargetObserved
    | BackupCreated | BackupDownloaded
    | UnknownKind(name: string)

  datatype ResourceType = MaintenanceResource | TargetResource | BackupResource | OtherResource(name: string)

  datatype Payload =
    | CreatedPayload(id: string, state: StateName, version: int, identity: Json)
    | CapturePayload(digest: Digest, targets: int)
    | TransitionPayload(justification: string, detail: Json)
    | ObservationPayload(document: Json)
    | BackupPayload(filename: string, sha256: string, bytes: int, artifact: string)
    | OtherPayload(json: Json)

  /** How deeply a payload is nested: a created run and a transition enclose what they carry. */
  function PayloadDepth(p: Payload): nat {
    match p
    case CreatedPayload(_, _, _, identity) => identity.depth + 1
    case CapturePayload(_, _) => 1
    case TransitionPayload(_, detail) => detail.depth + 1
    case ObservationPayload(document) => document.depth
    case BackupPayload(_, _, _, _) => 1
    case OtherPayload(json) => json.depth
  }

  /** A journal row. Empty text, `NoState` and the number 0 are the NULL columns. */
  datatype Event = Event(
    id: int, kind: EventKind, requestId: string, actor: string, role: string,
    resourceType: ResourceType, resourceId: string, maintenanceId: string, targetId: string,
    fromState: StateName, toState: StateName, fromVersion: int, toVersion: int, aggregateVersion: int,
    payload: Payload)

  /** A published backup as its manifest describes it: named, hashed and not empty. */
  datatype RawManifest = RawManifest(filename: string, sha256: string, bytes: int)
  type Manifest = m: RawManifest | m.filename != "" && m.sha256 != "" && m.bytes >= 1
    witness RawManifest("lazarus-0.db", "0", 1)

  /** The whole database as one value. */
  datatype Db = Db(runs: map<string, RunRecord>, journal: seq<Event>)

  const EMPTY_DB := Db(map[], [])

  /** The journal of one run, in journal order. */
  function EventsOf(journal: seq<Event>, id: string): seq<Event> {
    if journal == [] then []
    else
      var n := |journal| - 1;
      EventsOf(journal[..n], id) + (if journal[n].maintenanceId == id then [journal[n]] else [])
  }

  lemma EventsOfAppend(journal: seq<Event>, e: Event, id: string)
    ensures EventsOf(journal + [e], id) == EventsOf(journal, id) + (if e.maintenanceId == id then [e] else [])
  {
    assert (journal + [e])[..|journal|] == journal;
  }

  lemma {:induction false} EventsOfMember(journal: seq<Event>, id: string, e: Event)
    ensures e in EventsOf(journal, id) <==> e in journal && e.maintenanceId == id
  {
    if journal == [] {
    } else {
      var n := |journal| - 1;
      EventsOfMember(journal[..n], id, e);
      assert journal == journal[..n] + [journal[n]];
    }
  }

  /** The rows of one capture as the capture inserts them. */
  function InsertedTarget(t: CaptureTarget): Target {
    Target(t.lockKey, InitialState(t.original), t.original, t.carried, 1)
  }

  function InsertedTargets(ts: seq<CaptureTarget>): (m: map<string, Target>)
    ensures forall k :: k in m <==> exists i :: 0 <= i < |ts| && ts[i].id == k
  {
    if ts == [] then map[]
    else
      var n := |ts| - 1;
      assert forall i :: 0 <= i < n ==> ts[..n][i] == ts[i];
      InsertedTargets(ts[..n])[ts[n].id := InsertedTarget(ts[n])]
  }

  predicate DistinctIds(ts: seq<CaptureTarget>) {
    forall i, j :: 0 <= i < j < |ts| ==> ts[i].id != ts[j].id
  }

  lemma {:induction false} InsertedTargetsAt(ts: seq<CaptureTarget>, i: int)
    requires DistinctIds(ts) && 0 <= i < |ts|
    ensures ts[i].id in InsertedTargets(ts) && InsertedTargets(ts)[ts[i].id] == InsertedTarget(ts[i])
  {
    var n := |ts| - 1;
    if i < n {
      assert ts[..n][i] == ts[i];
      InsertedTargetsAt(ts[..n], i);
    }
  }

  lemma {:induction false} InsertedTargetsCount(ts: seq<CaptureTarget>)
    requires DistinctIds(ts)
    ensures |InsertedTargets(ts)| == |ts|
  {
    if ts == [] {
    } else {
      var n := |ts| - 1;
      InsertedTargetsCount(ts[..n]);
      var before := InsertedTargets(ts[..n]);
      hide InsertedTarget;
      assert ts[n].id !in before;
      assert InsertedTargets(ts) == before[ts[n].id := InsertedTarget(ts[n])];
      assert InsertedTargets(ts).Keys == before.Keys + {ts[n].id};
    }
  }
}
