/** What each store call decides (internal/store/mutations.go): the error it answers, or the record
    and the journal event it writes. The checks come in the order in which the service makes them. */
module Writer {
  import opened Lifecycle
  import opened Text
  import opened Records

  /** What an accepted call did: nothing, one run's record and one event, or one event of no run. */
  datatype Effect =
    | Unchanged
    | Recorded(id: string, record: RunRecord, event: Event)
    | Noted(note: Event)

  function RunEvent(next: int, kind: EventKind, id: string, audit: AuditContext, from: StateName, to: StateName,
                    fromVersion: int, toVersion: int, aggregate: int, payload: Payload): Event
  {
    var a := AuditValues(audit);
    Event(next, kind, a.requestId, a.actor, a.role, MaintenanceResource, id, id, "", from, to,
          fromVersion, toVersion, aggregate, payload)
  }

  function TargetEvent(next: int, kind: EventKind, id: string, tid: string, audit: AuditContext, from: StateName,
                       to: StateName, fromVersion: int, toVersion: int, aggregate: int, payload: Payload): Event
  {
    var a := AuditValues(audit);
    Event(next, kind, a.requestId, a.actor, a.role, TargetResource, tid, id, tid, from, to,
          fromVersion, toVersion, aggregate, payload)
  }

  // ---- What the tables take ----

  /** The json_valid checks of the schema, for JSON that Go has read. */
  predicate Shallow(depth: nat) { depth <= SQL_DEPTH }

  /** What becomes of a decision when its event is appended: the payload that encloses the request's JSON
      must still be JSON to Go, and then to SQLite; the call fails if it is not. */
  function Journalled(w: Effect): Outcome<Effect>
    requires w.Recorded?
  {
    if PayloadDepth(w.event.payload) > GO_DEPTH then Err(Invalid)
    else if !Shallow(PayloadDepth(w.event.payload)) then Err(Internal)
    else Ok(w)
  }

  // ---- Create ----

  function DecideCreate(db: Db, input: RunInput, audit: AuditContext): Outcome<Effect> {
    var state := if input.state.NoState? then New else input.state;
    if !ValidId(input.id) || !state.New? || input.identity.None? then Err(Invalid)
    else if !Shallow(input.identity.value.depth) then Err(Internal)
    else if input.id in db.runs then Err(Conflict(MaintenanceIdExists))
    else
      Journalled(
        Recorded(input.id, RunRecord(New, 1, input.identity.value, None, map[]),
                 RunEvent(|db.journal| + 1, MaintenanceCreated, input.id, audit, NoState, NoState, 0, 0, 1,
                          CreatedPayload(input.id, New, 1, input.identity.value))))
  }

  // ---- Capture ----

  predicate ValidTargetInput(t: TargetInput) {
    && ValidId(t.id)
    && Trim(t.lockKey) != "" && Utf8Length(Trim(t.lockKey)) <= 512
    && ValidOriginalState(t.original)
    && t.carried.Some?
  }

  predicate ValidTargetInputs(ts: seq<TargetInput>) {
    && (forall i :: 0 <= i < |ts| ==> ValidTargetInput(ts[i]))
    && (forall i, j :: 0 <= i < j < |ts| ==> ts[i].id != ts[j].id)
  }

  function Normalized(t: TargetInput): CaptureTarget
    requires ValidTargetInput(t)
  {
    CaptureTarget(t.id, Trim(t.lockKey), t.original, t.carried.value)
  }

  /** The targets a discovery document captures, or None when one of them is unacceptable. */
  function ParseTargets(d: Document): (r: Option<seq<CaptureTarget>>)
    ensures r.Some? ==> DistinctIds(r.value)
    ensures r.Some? ==> forall i :: 0 <= i < |r.value| ==>
                          && ValidId(r.value[i].id) && ValidOriginalState(r.value[i].original)
                          && r.value[i].lockKey != "" && Utf8Length(r.value[i].lockKey) <= 512
  {
    match d.targets
    case Absent => Some([])
    case NotAnArray => None
    case Items(ts) =>
      if !ValidTargetInputs(ts) then None
      else Some(seq(|ts|, i requires 0 <= i < |ts| => Normalized(ts[i])))
  }

  method ParseTarget(t: TargetInput) returns (r: Option<CaptureTarget>)
    ensures r.Some? <==> ValidTargetInput(t)
    ensures r.Some? ==> r.value == Normalized(t)
  {
    hide Trim, Utf8Length, ValidId, ValidOriginalState;
    if !ValidId(t.id) {
      return None;
    }
    var lockKey := Trim(t.lockKey);
    if lockKey == "" || Utf8Length(lockKey) > 512 {
      return None;
    }
    if !ValidOriginalState(t.original) || t.carried.None? {
      return None;
    }
    return Some(CaptureTarget(t.id, lockKey, t.original, t.carried.value));
  }

  /** parseCaptureTargets: one pass over the targets with a set of the ids seen so far. */
  method ParseCaptureTargets(d: Document) returns (r: Option<seq<CaptureTarget>>)
    ensures r == ParseTargets(d)
  {
    hide ValidTargetInput, Normalized, ParseTargets, ValidTargetInputs;
    NoItems(d);
    if d.targets.Absent? {
      return Some([]);
    }
    if d.targets.NotAnArray? {
      return None;
    }
    var ts := d.targets.items;
    var seen: set<string> := {};
    var parsed: seq<CaptureTarget> := [];
    for i := 0 to |ts|
      invariant ParsedSoFar(ts, i, parsed)
      invariant seen == set j | 0 <= j < i :: ts[j].id
    {
      if ts[i].id in seen {
        RefusedTarget(d, i);
        return None;
      }
      var target := ParseTarget(ts[i]);
      if target.None? {
        RefusedTarget(d, i);
        return None;
      }
      seen := seen + {ts[i].id};
      parsed := parsed + [target.value];
    }
    AcceptedTargets(d, parsed);
    return Some(parsed);
  }

  ghost predicate ParsedSoFar(ts: seq<TargetInput>, n: nat, parsed: seq<CaptureTarget>)
    requires n <= |ts|
  {
    && |parsed| == n
    && (forall j :: 0 <= j < n ==> ValidTargetInput(ts[j]) && parsed[j] == Normalized(ts[j]))
    && (forall j, k :: 0 <= j < k < n ==> ts[j].id != ts[k].id)
  }

  lemma NoItems(d: Document)
    ensures d.targets.Absent? ==> ParseTargets(d) == Some([])
    ensures d.targets.NotAnArray? ==> ParseTargets(d).None?
  {
  }

  lemma RefusedTarget(d: Document, i: nat)
    requires d.targets.Items? && i < |d.targets.items|
    requires || !ValidTargetInput(d.targets.items[i])
             || exists j :: 0 <= j < i && d.targets.items[j].id == d.targets.items[i].id
    ensures ParseTargets(d).None?
  {
    hide ValidTargetInput;
  }

  lemma AcceptedTargets(d: Document, parsed: seq<CaptureTarget>)
    requires d.targets.Items? && ParsedSoFar(d.targets.items, |d.targets.items|, parsed)
    ensures ParseTargets(d) == Some(parsed)
  {
    hide ValidTargetInput, Normalized;
    assert ParseTargets(d).value == parsed;
  }

  /** A key is held while some run that is neither completed nor cancelled has a target with it. */
  predicate HoldsLock(rec: RunRecord, key: string) {
    !IsClosed(rec.state) && exists t :: t in rec.targets && rec.targets[t].lockKey == key
  }

  predicate LockHeld(db: Db, key: string) {
    exists id :: id in db.runs && HoldsLock(db.runs[id], key)
  }

  function CapturedRecord(rec: RunRecord, capture: Capture, targets: seq<CaptureTarget>): RunRecord {
    RunRecord(Captured, rec.version + 1, rec.identity, Some(capture), InsertedTargets(targets))
  }

  function CaptureEvent(next: int, id: string, rec: RunRecord, capture: Capture, count: int,
      audit: AuditContext): Event {
    RunEvent(next, MaintenanceCaptured, id, audit, New, Captured, rec.version, rec.version + 1, rec.version + 1,
             CapturePayload(capture.digest, count))
  }

  /** Every target row passes the length check of its key. A row that fails it makes its INSERT fail, and
      with it the transaction. */
  predicate KeysStorable(ts: seq<CaptureTarget>) {
    forall i :: 0 <= i < |ts| ==> StorableKey(ts[i].lockKey)
  }

  function DecideCapture(db: Db, id: string, document: Option<Document>, audit: AuditContext): Outcome<Effect> {
    if !ValidId(id) || document.None? || ParseTargets(document.value).None? then Err(Invalid)
    else
      var targets := ParseTargets(document.value).value;
      var capture := Capture(document.value, Sha256(document.value));
      if id !in db.runs then Err(NotFound)
      else
        var rec := db.runs[id];
        if rec.capture.Some? then
          if rec.capture.value == capture then Ok(Unchanged) else Err(Conflict(ImmutableCaptureMismatch))
        else if !rec.state.New? then Err(Conflict(CaptureRequiresNewMaintenance))
        else if exists i :: 0 <= i < |targets| && LockHeld(db, targets[i].lockKey) then Err(Conflict(LockInUse))
        else if !Shallow(document.value.Depth()) || !KeysStorable(targets) then Err(Internal)
        else
          Ok(Recorded(id, CapturedRecord(rec, capture, targets),
              CaptureEvent(|db.journal| + 1, id, rec, capture, |targets|, audit)))
  }

  // ---- Run transitions ----

  /** The SQL condition of validateStoppedBarrier. */
  predicate Unresolved(t: Target) {
    if t.original.Running? || t.original.Stopped? then !t.state.Stopped? && !t.state.Skipped?
    else !t.state.Skipped?
  }

  predicate StoppedBarrier(targets: map<string, Target>) {
    forall t :: t in targets ==> !Unresolved(targets[t])
  }

  /** validateCompletion. */
  function CompletionObjection(rec: RunRecord): Option<Error> {
    if rec.capture.None? then Some(Conflict(MaintenanceHasNoCapture))
    else if exists t :: t in rec.targets && !TargetCompletionAllowed(rec.targets[t].original, rec.targets[t].state)
      then Some(Conflict(TargetNotReconciled))
    else if rec.targets == map[] then Some(Conflict(MaintenanceHasNoTargets))
    else None
  }

  /** Whether a target of the run was ever moved to a normal state. */
  predicate Exercised(events: seq<Event>) {
    exists i :: 0 <= i < |events| && events[i].kind.TargetTransitioned?
  }

  /** The rules special to a failed run, which only an administrator may reopen. */
  function ReopenObjection(rec: RunRecord, change: StateChange, audit: AuditContext): Option<Error> {
    if !IsAdmin(audit.role) then Some(Forbidden)
    else if !ValidJustification(change.justification) then Some(Invalid)
    else if rec.capture.None? && !change.state.New? then Some(Conflict(UncapturedFailureReopensToNew))
    else if rec.capture.Some? && (change.state.New? || change.state.Completed? || change.state.Cancelled?)
      then Some(Conflict(CapturedFailureReopensToActivePhase))
    else None
  }

  function TransitionObjection(rec: RunRecord, exercised: bool, change: StateChange, pre: VersionPrecondition,
                               audit: AuditContext): Option<Error>
  {
    if pre.Objection(rec.version).Some? then pre.Objection(rec.version)
    else if rec.state.Failed? && ReopenObjection(rec, change, audit).Some? then ReopenObjection(rec, change, audit)
    else if !rec.state.Failed? && IsMaintenanceTerminal(rec.state) then Some(Conflict(MaintenanceIsTerminal))
    else if change.state.Captured? && !rec.state.Failed? then Some(Invalid)
    else if !ValidMaintenanceTransition(rec.state, change.state) then Some(Invalid)
    else if change.state.Cancelled? && rec.state.Captured? && exercised
      then Some(Conflict(CancelRequiresUnexercisedTargets))
    else if change.state.Stopped? && !StoppedBarrier(rec.targets) then Some(Conflict(TargetsNotStopped))
    else if change.state.Completed? then CompletionObjection(rec)
    else None
  }

  /** A phase change advances the version of every captured target. */
  function BumpTargets(targets: map<string, Target>): map<string, Target> {
    map t | t in targets :: targets[t].(version := targets[t].version + 1)
  }

  function TransitionKind(from: StateName, to: StateName): EventKind {
    if to.Completed? then MaintenanceCompleted
    else if from.Failed? then MaintenanceReopened
    else MaintenanceTransitioned
  }

  function Transitioned(rec: RunRecord, to: StateName): RunRecord {
    rec.(state := to, version := rec.version + 1,
         targets := if rec.capture.Some? then BumpTargets(rec.targets) else rec.targets)
  }

  function TransitionEvent(next: int, id: string, rec: RunRecord, change: StateChange, audit: AuditContext): Event
    requires change.detail.Some?
  {
    RunEvent(next, TransitionKind(rec.state, change.state), id, audit, rec.state, change.state, rec.version,
             rec.version + 1, rec.version + 1, TransitionPayload(Trim(change.justification), change.detail.value))
  }

  function DecideTransition(db: Db, id: string, change: StateChange, pre: VersionPrecondition, audit: AuditContext)
    : Outcome<Effect>
  {
    if !ValidId(id) || !ValidMaintenanceState(change.state) || change.detail.None? then Err(Invalid)
    else if id !in db.runs then Err(NotFound)
    else
      var rec := db.runs[id];
      var objection := TransitionObjection(rec, Exercised(EventsOf(db.journal, id)), change, pre, audit);
      if objection.Some? then Err(objection.value)
      else
        Journalled(
          Recorded(id, Transitioned(rec, change.state), TransitionEvent(|db.journal| + 1, id, rec, change, audit)))
  }

  // ---- Target transitions ----

  function TargetObjection(phase: StateName, target: Target, change: StateChange, pre: VersionPrecondition,
                           audit: AuditContext): Option<Error>
  {
    if pre.Objection(target.version).Some? then pre.Objection(target.version)
    else if change.state.Skipped? && !IsAdmin(audit.role) then Some(Forbidden)
    else if change.state.Skipped? && !ValidJustification(change.justification) then Some(Invalid)
    else if !change.state.Skipped? && (target.original.Degraded? || target.original.Unknown?)
      then Some(Conflict(UnresolvedTargetRequiresSkip))
    else if target.state.Healthy? || target.state.Skipped? then Some(Conflict(TargetIsTerminal))
    else if !ValidTargetTransition(target.state, change.state) then Some(Invalid)
    else if target.original.Stopped? && !change.state.Skipped? then Some(Conflict(OriginallyStoppedTarget))
    else if !change.state.Skipped? && !TargetPhaseAllowed(phase, change.state) then Some(Conflict(TargetPhaseMismatch))
    else None
  }

  function WithTarget(rec: RunRecord, tid: string, to: StateName): RunRecord
    requires tid in rec.targets
  {
    var target := rec.targets[tid];
    rec.(version := rec.version + 1,
         targets := rec.targets[tid := target.(state := to, version := target.version + 1)])
  }

  function MoveEvent(next: int, id: string, tid: string, rec: RunRecord, change: StateChange,
      audit: AuditContext): Event
    requires tid in rec.targets && change.detail.Some?
  {
    var target := rec.targets[tid];
    TargetEvent(next, if change.state.Skipped? then TargetSkipped else TargetTransitioned, id, tid, audit,
                target.state, change.state, target.version, target.version + 1, rec.version + 1,
                TransitionPayload(Trim(change.justification), change.detail.value))
  }

  function DecideTarget(db: Db, id: string, tid: string, change: StateChange, pre: VersionPrecondition,
                        audit: AuditContext): Outcome<Effect>
  {
    if !ValidId(id) || !ValidId(tid) || !ValidTargetState(change.state) || change.detail.None? then Err(Invalid)
    else if id !in db.runs then Err(NotFound)
    else
      var rec := db.runs[id];
      if IsMaintenanceTerminal(rec.state) then Err(Conflict(ParentMaintenanceTerminal))
      else if tid !in rec.targets then Err(NotFound)
      else
        var target := rec.targets[tid];
        var objection := TargetObjection(rec.state, target, change, pre, audit);
        if objection.Some? then Err(objection.value)
        else
          Journalled(
            Recorded(id, WithTarget(rec, tid, change.state), MoveEvent(|db.journal| + 1, id, tid, rec, change, audit)))
  }

  // ---- Observations ----

  predicate IsObservation(e: Event, tid: string, requestId: string) {
    e.kind.TargetObserved? && e.targetId == tid && e.requestId == requestId
  }

  /** The recorded observation of one target under one request id, if there is one. */
  function FindObservation(events: seq<Event>, tid: string, requestId: string): Option<Payload> {
    if events == [] then None
    else if IsObservation(events[0], tid, requestId) then Some(events[0].payload)
    else FindObservation(events[1..], tid, requestId)
  }

  function ObserveEvent(next: int, id: string, tid: string, payload: Json, audit: AuditContext): Event {
    TargetEvent(next, TargetObserved, id, tid, audit, NoState, NoState, 0, 0, 0, ObservationPayload(payload))
  }

  function DecideObserve(db: Db, id: string, tid: string, payload: Option<Json>, pre: VersionPrecondition,
                         audit: AuditContext): Outcome<Effect>
  {
    if !ValidId(id) || !ValidId(tid) || payload.None? then Err(Invalid)
    else
      var found := FindObservation(EventsOf(db.journal, id), tid, AuditValues(audit).requestId);
      if found.Some? then
        if found.value == ObservationPayload(payload.value) then Ok(Unchanged)
        else Err(Conflict(ObservationRequestIdReused))
      else if id !in db.runs then Err(NotFound)
      else
        var rec := db.runs[id];
        if tid !in rec.targets then Err(NotFound)
        else if IsMaintenanceTerminal(rec.state) then Err(Conflict(ParentMaintenanceTerminal))
        else if pre.Objection(rec.targets[tid].version).Some? then Err(pre.Objection(rec.targets[tid].version).value)
        else
          Journalled(Recorded(id, rec, ObserveEvent(|db.journal| + 1, id, tid, payload.value, audit)))
  }

  // ---- Backup notes ----

  function DecideBackupNote(db: Db, artifact: string, manifest: Manifest, audit: AuditContext): Outcome<Effect> {
    var a := AuditValues(audit);
    Ok(Noted(Event(|db.journal| + 1, if artifact == "" then BackupCreated else BackupDownloaded, a.requestId, a.actor,
                   a.role, BackupResource, manifest.filename, "", "", NoState, NoState, 0, 0, 0,
                   BackupPayload(manifest.filename, manifest.sha256, manifest.bytes, artifact))))
  }

  // ---- Steps ----

  /** Every call of the store. `BackupNote` journals a created backup (no artifact) or a download. */
  datatype Call =
    | Create(input: RunInput, audit: AuditContext)
    | CaptureRun(id: string, document: Option<Document>, audit: AuditContext)
    | TransitionRun(id: string, change: StateChange, pre: VersionPrecondition, audit: AuditContext)
    | TransitionTarget(id: string, tid: string, change: StateChange, pre: VersionPrecondition, audit: AuditContext)
    | Observe(id: string, tid: string, payload: Option<Json>, pre: VersionPrecondition, audit: AuditContext)
    | BackupNote(artifact: string, manifest: Manifest, audit: AuditContext)

  function Decide(db: Db, call: Call): Outcome<Effect> {
    match call
    case Create(input, audit) => DecideCreate(db, input, audit)
    case CaptureRun(id, document, audit) => DecideCapture(db, id, document, audit)
    case TransitionRun(id, change, pre, audit) => DecideTransition(db, id, change, pre, audit)
    case TransitionTarget(id, tid, change, pre, audit) => DecideTarget(db, id, tid, change, pre, audit)
    case Observe(id, tid, payload, pre, audit) => DecideObserve(db, id, tid, payload, pre, audit)
    case BackupNote(artifact, manifest, audit) => DecideBackupNote(db, artifact, manifest, audit)
  }

  function Commit(db: Db, effect: Effect): Db {
    match effect
    case Unchanged => db
    case Recorded(id, record, event) => Db(db.runs[id := record], db.journal + [event])
    case Noted(event) => Db(db.runs, db.journal + [event])
  }

  /** One call as one transaction: a rejected call changes nothing. */
  function Step(db: Db, call: Call): Db {
    match Decide(db, call)
    case Ok(effect) => Commit(db, effect)
    case Err(_) => db
  }

  predicate Accepted(db: Db, call: Call) { Decide(db, call).Ok? }

  /** A whole run: calls of any clients, accepted or not, one after the other. */
  function Exec(db: Db, calls: seq<Call>): Db
    decreases |calls|
  {
    if calls == [] then db
    else Step(Exec(db, calls[..|calls| - 1]), calls[|calls| - 1])
  }
}
