/** The independent rule set of the verifier (internal/store/verify.go): rebuild one run from its
    journal alone, refusing any event the lifecycle does not allow. */
module Replay {
  import opened Lifecycle
  import opened Text
  import opened Records
  import opened Writer

  datatype ReplayTarget = ReplayTarget(state: StateName, version: int, original: StateName)

  datatype Created = CreatedRun(id: string, identity: Json)

  datatype ReplayRun = ReplayRun(
    state: StateName, revision: int, captured: bool, targets: map<string, ReplayTarget>,
    physicalTransition: bool, created: Option<Created>)

  const BLANK_REPLAY := ReplayRun(NoState, 0, false, map[], false, None)

  /** validateEventShape. */
  predicate EventShapeOk(e: Event) {
    && e.id >= 1 && e.requestId != "" && e.actor != "" && e.role != "" && e.resourceId != ""
    && match e.kind
       case MaintenanceCreated | MaintenanceCaptured | MaintenanceTransitioned | MaintenanceReopened
          | MaintenanceCompleted =>
         e.resourceType.MaintenanceResource? && e.maintenanceId != "" && e.resourceId == e.maintenanceId
             && e.targetId == ""
       case TargetTransitioned | TargetSkipped | TargetObserved =>
         e.resourceType.TargetResource? && e.maintenanceId != "" && e.targetId != "" && e.resourceId == e.targetId
       case BackupCreated | BackupDownloaded =>
         && e.resourceType.BackupResource? && e.maintenanceId == "" && e.targetId == "" && e.fromState.NoState?
         && e.toState.NoState? && e.fromVersion == 0 && e.toVersion == 0 && e.aggregateVersion == 0
       case UnknownKind(_) => false
  }

  /** What verifyGlobalEvents asks of an event that belongs to no run. */
  predicate GlobalEventOk(e: Event) {
    && (e.kind.BackupCreated? || e.kind.BackupDownloaded?)
    && e.payload.BackupPayload? && e.payload.filename == e.resourceId && e.payload.sha256 != "" && e.payload.bytes >= 1
    && (e.kind.BackupDownloaded? ==> e.payload.artifact != "")
  }

  /** validEventJustification. */
  predicate EventJustified(p: Payload) {
    p.TransitionPayload? && ValidJustification(p.justification)
  }

  /** The targets a capture event adds to those already there. */
  function AddCaptured(targets: map<string, ReplayTarget>, ts: seq<CaptureTarget>): map<string, ReplayTarget> {
    if ts == [] then targets
    else
      var n := |ts| - 1;
      AddCaptured(targets, ts[..n])[ts[n].id := ReplayTarget(InitialState(ts[n].original), 1, ts[n].original)]
  }

  function BumpReplay(targets: map<string, ReplayTarget>): map<string, ReplayTarget> {
    map t | t in targets :: targets[t].(version := targets[t].version + 1)
  }

  /** The stop barrier as the replayer spells it. */
  predicate ReplayStopped(t: ReplayTarget) {
    if t.original.Running? || t.original.Stopped? then t.state.Stopped? || t.state.Skipped? else t.state.Skipped?
  }

  function ApplyCreated(r: ReplayRun, e: Event): Option<ReplayRun> {
    if || r.revision != 0 || !e.resourceType.MaintenanceResource? || e.targetId != "" || e.aggregateVersion != 1
       || !e.fromState.NoState? || !e.toState.NoState? || e.fromVersion != 0 || e.toVersion != 0
    then None
    else if || !e.payload.CreatedPayload? || e.payload.id != e.maintenanceId || !e.payload.state.New?
            || e.payload.version != 1
    then None
    else Some(r.(state := New, revision := 1, created := Some(CreatedRun(e.payload.id, e.payload.identity))))
  }

  function ApplyCaptured(r: ReplayRun, e: Event, capture: Option<Capture>): Option<ReplayRun> {
    if || capture.None? || r.captured || e.fromState != r.state || e.fromVersion != r.revision
       || !e.toState.Captured? || e.toVersion != r.revision + 1 || e.aggregateVersion != e.toVersion
    then None
    else
      var parsed := ParseTargets(capture.value.document);
      if parsed.None? || e.payload != CapturePayload(capture.value.digest, |parsed.value|) then None
      else Some(r.(state := Captured, revision := e.toVersion, captured := true,
                   targets := AddCaptured(r.targets, parsed.value)))
  }

  predicate RunEventAllowed(r: ReplayRun, e: Event) {
    && r.revision != 0 && e.resourceType.MaintenanceResource? && e.targetId == "" && e.fromState == r.state
    && e.fromVersion == r.revision && e.toVersion == r.revision + 1 && e.aggregateVersion == e.toVersion
    && ValidMaintenanceTransition(r.state, e.toState)
    && (if e.kind.MaintenanceReopened? then
          && r.state.Failed? && IsAdmin(e.role) && EventJustified(e.payload)
          && (r.captured || e.toState.New?)
          && !(r.captured && (e.toState.New? || e.toState.Completed? || e.toState.Cancelled?))
        else !r.state.Failed?)
    && e.payload.TransitionPayload?
    && (e.toState.Captured? ==> e.kind.MaintenanceReopened?)
    && !(e.toState.Cancelled? && r.captured && r.physicalTransition)
    && (e.toState.Stopped? ==> forall t :: t in r.targets ==> ReplayStopped(r.targets[t]))
    && (if e.toState.Completed? then
          && e.kind.MaintenanceCompleted? && r.targets != map[]
          && forall t :: t in r.targets ==> TargetCompletionAllowed(r.targets[t].original, r.targets[t].state)
        else !e.kind.MaintenanceCompleted?)
  }

  function ApplyRunEvent(r: ReplayRun, e: Event): Option<ReplayRun> {
    if !RunEventAllowed(r, e) then None
    else Some(r.(state := e.toState, revision := e.toVersion,
                 targets := if r.captured then BumpReplay(r.targets) else r.targets))
  }

  predicate TargetEventAllowed(r: ReplayRun, e: Event) {
    && r.revision != 0 && !IsMaintenanceTerminal(r.state) && e.resourceType.TargetResource? && e.targetId != ""
    && e.aggregateVersion == r.revision + 1
    && e.targetId in r.targets
    && var target := r.targets[e.targetId];
    && e.fromState == target.state && e.fromVersion == target.version && e.toVersion == target.version + 1
    && ValidTargetTransition(target.state, e.toState)
    && (if e.toState.Skipped? then e.kind.TargetSkipped? && IsAdmin(e.role) && EventJustified(e.payload)
        else
          && e.kind.TargetTransitioned? && !target.original.Degraded? && !target.original.Unknown?
          && !target.original.Stopped? && TargetPhaseAllowed(r.state, e.toState))
    && e.payload.TransitionPayload?
  }

  function ApplyTargetEvent(r: ReplayRun, e: Event): Option<ReplayRun> {
    if !TargetEventAllowed(r, e) then None
    else Some(r.(revision := e.aggregateVersion,
                 physicalTransition := r.physicalTransition || !e.toState.Skipped?,
                 targets := r.targets[e.targetId :=
                   r.targets[e.targetId].(state := e.toState, version := e.toVersion)]))
  }

  function ApplyObserved(r: ReplayRun, e: Event): Option<ReplayRun> {
    if || IsMaintenanceTerminal(r.state) || e.targetId == "" || e.targetId !in r.targets || e.aggregateVersion != 0
       || !e.fromState.NoState? || !e.toState.NoState? || e.fromVersion != 0 || e.toVersion != 0
       || !e.payload.ObservationPayload?
    then None
    else Some(r)
  }

  /** replayMaintenance.apply: the rebuilt run after one event, or None when the event is refused. */
  function Apply(r: ReplayRun, e: Event, capture: Option<Capture>): Option<ReplayRun> {
    match e.kind
    case MaintenanceCreated => ApplyCreated(r, e)
    case MaintenanceCaptured => ApplyCaptured(r, e, capture)
    case MaintenanceTransitioned | MaintenanceReopened | MaintenanceCompleted => ApplyRunEvent(r, e)
    case TargetTransitioned | TargetSkipped => ApplyTargetEvent(r, e)
    case TargetObserved => ApplyObserved(r, e)
    case _ => None
  }

  /** Checking one event: its shape first, then the rules. */
  function Check(r: ReplayRun, e: Event, capture: Option<Capture>): Option<ReplayRun> {
    if EventShapeOk(e) then Apply(r, e, capture) else None
  }

  /** Replaying a journal from nothing. */
  function ReplayAll(events: seq<Event>, capture: Option<Capture>): Option<ReplayRun> {
    if events == [] then Some(BLANK_REPLAY)
    else
      var n := |events| - 1;
      var r := ReplayAll(events[..n], capture);
      if r.None? then None else Check(r.value, events[n], capture)
  }

  lemma ReplayAppend(events: seq<Event>, e: Event, capture: Option<Capture>)
    requires ReplayAll(events, capture).Some?
    ensures ReplayAll(events + [e], capture) == Check(ReplayAll(events, capture).value, e, capture)
  {
    assert (events + [e])[..|events|] == events;
  }

  /** Until a capture is journalled, the saved capture plays no part in the replay. */
  lemma {:induction false} ReplayIgnoresCapture(events: seq<Event>, c: Option<Capture>, d: Option<Capture>)
    requires forall e :: e in events ==> !e.kind.MaintenanceCaptured?
    ensures ReplayAll(events, c) == ReplayAll(events, d)
  {
    if events == [] {
    } else {
      assert events[|events| - 1] in events;
      ReplayIgnoresCapture(events[..|events| - 1], c, d);
    }
  }

  // ---- The stored run seen as a replayed one ----

  function MirrorTargets(targets: map<string, Target>): map<string, ReplayTarget> {
    map t | t in targets :: ReplayTarget(targets[t].state, targets[t].version, targets[t].original)
  }

  function Mirror(id: string, rec: RunRecord, exercised: bool): ReplayRun {
    ReplayRun(rec.state, rec.version, rec.capture.Some?, MirrorTargets(rec.targets), exercised,
              Some(CreatedRun(id, rec.identity)))
  }
}
