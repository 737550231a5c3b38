/** What every call keeps: each run's record is well formed, equals what the verifier rebuilds from
    its journal, and shares no lock key with another run that still holds its locks. */
module Invariant {
  import opened Lifecycle
  import opened Text
  import opened Records
  import opened Writer
  import opened Replay

  // ---- One run ----

  predicate TargetOk(t: Target) {
    && t.version >= 1 && ValidOriginalState(t.original) && ValidTargetState(t.state) && StorableKey(t.lockKey)
    && Shallow(t.carried.depth)
    && (t.original.Stopped? ==> t.state.Stopped? || t.state.Skipped?)
    && (t.original.Degraded? || t.original.Unknown? ==> t.state.Captured? || t.state.Skipped?)
  }

  predicate SameIdentity(t: Target, c: CaptureTarget) {
    t.lockKey == c.lockKey && t.original == c.original && t.carried == c.carried
  }

  /** The targets are exactly those of the parsed capture, with the identities it gave them. */
  ghost predicate TargetsOfCapture(targets: map<string, Target>, ts: seq<CaptureTarget>) {
    && (forall k :: k in targets <==> exists i :: 0 <= i < |ts| && ts[i].id == k)
    && (forall i :: 0 <= i < |ts| ==> ts[i].id in targets && SameIdentity(targets[ts[i].id], ts[i]))
  }

  ghost predicate CaptureOk(rec: RunRecord) {
    rec.capture.Some? ==>
      && rec.capture.value.digest == Sha256(rec.capture.value.document)
      && Shallow(rec.capture.value.document.Depth())
      && ParseTargets(rec.capture.value.document).Some?
      && TargetsOfCapture(rec.targets, ParseTargets(rec.capture.value.document).value)
  }

  ghost predicate RecordOk(id: string, rec: RunRecord) {
    && ValidId(id) && rec.version >= 1 && ValidMaintenanceState(rec.state) && Shallow(rec.identity.depth)
    && (rec.capture.None? ==> rec.targets == map[] && (rec.state.New? || rec.state.Failed? || rec.state.Cancelled?))
    && (rec.state.New? ==> rec.capture.None?)
    && (rec.state.Stopped? ==> StoppedBarrier(rec.targets))
    && (rec.state.Completed? ==> CompletionObjection(rec).None?)
    && CaptureOk(rec)
    && forall t :: t in rec.targets ==> ValidId(t) && TargetOk(rec.targets[t])
  }

  predicate Untouched(t: Target) {
    t.state == InitialState(t.original) || t.state.Skipped?
  }

  ghost predicate HistoryOk(id: string, rec: RunRecord, events: seq<Event>) {
    && ReplayAll(events, rec.capture) == Some(Mirror(id, rec, Exercised(events)))
    && (rec.capture.None? ==> forall e :: e in events ==> !e.kind.MaintenanceCaptured?)
    && (!Exercised(events) ==> forall t :: t in rec.targets ==> Untouched(rec.targets[t]))
    && (rec.state.Cancelled? ==> !Exercised(events))
  }

  ghost predicate RunOk(db: Db, id: string)
    requires id in db.runs
  {
    RecordOk(id, db.runs[id]) && HistoryOk(id, db.runs[id], EventsOf(db.journal, id))
  }

  // ---- The database ----

  /** An event of a run names an existing run, and a target event an existing target. */
  predicate EventInPlace(db: Db, e: Event) {
    && EventShapeOk(e)
    && (if e.maintenanceId == "" then GlobalEventOk(e) else e.maintenanceId in db.runs)
    && (e.targetId != "" ==> e.maintenanceId in db.runs && e.targetId in db.runs[e.maintenanceId].targets)
  }

  predicate JournalOk(db: Db) {
    forall i :: 0 <= i < |db.journal| ==> db.journal[i].id == i + 1 && EventInPlace(db, db.journal[i])
  }

  ghost predicate LocksExclusive(db: Db) {
    forall a, b, key :: a in db.runs && b in db.runs && HoldsLock(db.runs[a], key) && HoldsLock(db.runs[b], key) ==>
        a == b
  }

  ghost predicate DbOk(db: Db) {
    && (forall id :: id in db.runs ==> RunOk(db, id))
    && JournalOk(db)
    && LocksExclusive(db)
  }

  // ---- Small facts ----

  lemma ExercisedAppend(events: seq<Event>, e: Event)
    ensures Exercised(events + [e]) <==> Exercised(events) || e.kind.TargetTransitioned?
  {
    if Exercised(events) {
      var i :| 0 <= i < |events| && events[i].kind.TargetTransitioned?;
      assert (events + [e])[i].kind.TargetTransitioned?;
    }
    if e.kind.TargetTransitioned? {
      assert (events + [e])[|events|].kind.TargetTransitioned?;
    }
  }

  lemma AuditNeverEmpty(a: AuditContext)
    ensures var v := AuditValues(a); v.actor != "" && v.role != "" && v.requestId != ""
    ensures IsAdmin(a.role) <==> IsAdmin(AuditValues(a).role)
  {
  }

  /** A capture inserts exactly the targets the replayer adds. */
  lemma {:induction false} InsertedMirrorsAdded(ts: seq<CaptureTarget>)
    ensures MirrorTargets(InsertedTargets(ts)) == AddCaptured(map[], ts)
  {
    if ts == [] {
    } else {
      InsertedMirrorsAdded(ts[..|ts| - 1]);
    }
  }

  lemma InsertedAreOfCapture(ts: seq<CaptureTarget>)
    requires DistinctIds(ts)
    ensures TargetsOfCapture(InsertedTargets(ts), ts)
    ensures forall t :: t in InsertedTargets(ts) ==>
              exists i :: 0 <= i < |ts| && ts[i].id == t && InsertedTargets(ts)[t] == InsertedTarget(ts[i])
  {
    hide InsertedTargets;
    var m := InsertedTargets(ts);
    forall i | 0 <= i < |ts|
      ensures ts[i].id in m && m[ts[i].id] == InsertedTarget(ts[i])
    {
      InsertedTargetsAt(ts, i);
    }
    forall t | t in m
      ensures exists i :: 0 <= i < |ts| && ts[i].id == t && m[t] == InsertedTarget(ts[i])
    {
      var i :| 0 <= i < |ts| && ts[i].id == t;
    }
  }

  // ---- Each call's event passes the replayer ----

  lemma CreateReplays(next: int, id: string, identity: Json, audit: AuditContext)
    requires ValidId(id) && next >= 1
    ensures var rec := RunRecord(New, 1, identity, None, map[]);
            var e := RunEvent(next, MaintenanceCreated, id, audit, NoState, NoState, 0, 0, 1,
                CreatedPayload(id, New, 1, identity));
            Check(BLANK_REPLAY, e, None) == Some(Mirror(id, rec, false))
  {
    AuditNeverEmpty(audit);
    assert MirrorTargets(map[]) == map[];
  }

  lemma CaptureReplays(next: int, id: string, rec: RunRecord, capture: Capture, audit: AuditContext)
    requires ValidId(id) && next >= 1 && rec.state.New? && rec.capture.None? && rec.targets == map[]
    requires ParseTargets(capture.document).Some?
    ensures var ts := ParseTargets(capture.document).value;
            Check(Mirror(id, rec, false), CaptureEvent(next, id, rec, capture, |ts|, audit), Some(capture))
            == Some(Mirror(id, CapturedRecord(rec, capture, ts), false))
  {
    var ts := ParseTargets(capture.document).value;
    AuditNeverEmpty(audit);
    InsertedMirrorsAdded(ts);
    assert MirrorTargets(rec.targets) == map[];
  }

  lemma BumpMirrors(targets: map<string, Target>)
    ensures MirrorTargets(BumpTargets(targets)) == BumpReplay(MirrorTargets(targets))
  {
  }

  /** The saved justification is the trimmed one, and it is judged as the original was. */
  lemma JustificationSurvives(justification: string, detail: Json)
    ensures EventJustified(TransitionPayload(Trim(justification), detail)) <==> ValidJustification(justification)
  {
    TrimIdempotent(justification);
  }

  lemma TransitionAllowed(r: ReplayRun, e: Event, rec: RunRecord, exercised: bool, change: StateChange,
                          pre: VersionPrecondition, audit: AuditContext)
    requires rec.version >= 1 && (rec.state.New? ==> rec.capture.None?)
    requires TransitionObjection(rec, exercised, change, pre, audit).None?
    requires r.state == rec.state && r.revision == rec.version && r.captured == rec.capture.Some?
    requires r.targets == MirrorTargets(rec.targets) && r.physicalTransition == exercised
    requires e.kind == TransitionKind(rec.state, change.state) && e.resourceType.MaintenanceResource?
             && e.targetId == ""
    requires e.fromState == rec.state && e.toState == change.state && e.fromVersion == rec.version
    requires e.toVersion == e.aggregateVersion == rec.version + 1 && e.payload.TransitionPayload?
    requires IsAdmin(e.role) <==> IsAdmin(audit.role)
    requires EventJustified(e.payload) <==> ValidJustification(change.justification)
    ensures RunEventAllowed(r, e)
  {
    hide ValidJustification, IsAdmin;
    if change.state.Completed? {
      var t :| t in rec.targets;
      assert t in r.targets;
    }
  }

  lemma TransitionReplays(next: int, id: string, rec: RunRecord, exercised: bool, change: StateChange,
                          pre: VersionPrecondition, audit: AuditContext, capture: Option<Capture>)
    requires ValidId(id) && next >= 1 && rec.version >= 1 && change.detail.Some?
    requires rec.state.New? ==> rec.capture.None?
    requires TransitionObjection(rec, exercised, change, pre, audit).None?
    ensures Check(Mirror(id, rec, exercised), TransitionEvent(next, id, rec, change, audit), capture)
            == Some(Mirror(id, Transitioned(rec, change.state), exercised))
  {
    hide ValidJustification, IsAdmin, Trim, RunEventAllowed, TransitionObjection;
    var r, e := Mirror(id, rec, exercised), TransitionEvent(next, id, rec, change, audit);
    AuditNeverEmpty(audit);
    JustificationSurvives(change.justification, change.detail.value);
    TransitionAllowed(r, e, rec, exercised, change, pre, audit);
    BumpMirrors(rec.targets);
  }

  lemma TargetAllowed(r: ReplayRun, e: Event, tid: string, target: Target, change: StateChange,
                      pre: VersionPrecondition, audit: AuditContext)
    requires r.revision >= 1 && tid != "" && !IsMaintenanceTerminal(r.state)
    requires TargetObjection(r.state, target, change, pre, audit).None?
    requires tid in r.targets && r.targets[tid] == ReplayTarget(target.state, target.version, target.original)
    requires e.kind == if change.state.Skipped? then TargetSkipped else TargetTransitioned
    requires e.resourceType.TargetResource? && e.targetId == tid && e.fromState == target.state
             && e.toState == change.state
    requires e.fromVersion == target.version && e.toVersion == target.version + 1
             && e.aggregateVersion == r.revision + 1
    requires e.payload.TransitionPayload? && (IsAdmin(e.role) <==> IsAdmin(audit.role))
    requires EventJustified(e.payload) <==> ValidJustification(change.justification)
    ensures TargetEventAllowed(r, e)
  {
  }

  lemma TargetReplays(next: int, id: string, tid: string, rec: RunRecord, exercised: bool, change: StateChange,
                      pre: VersionPrecondition, audit: AuditContext, capture: Option<Capture>)
    requires ValidId(id) && ValidId(tid) && next >= 1 && rec.version >= 1 && change.detail.Some? && tid in rec.targets
    requires !IsMaintenanceTerminal(rec.state) && TargetObjection(rec.state, rec.targets[tid], change, pre, audit).None?
    ensures Check(Mirror(id, rec, exercised), MoveEvent(next, id, tid, rec, change, audit), capture)
            == Some(Mirror(id, WithTarget(rec, tid, change.state), exercised || !change.state.Skipped?))
  {
    hide ValidJustification, IsAdmin, Trim, TargetEventAllowed, TargetObjection;
    var r, e := Mirror(id, rec, exercised), MoveEvent(next, id, tid, rec, change, audit);
    AuditNeverEmpty(audit);
    JustificationSurvives(change.justification, change.detail.value);
    TargetAllowed(r, e, tid, rec.targets[tid], change, pre, audit);
    assert MirrorTargets(WithTarget(rec, tid, change.state).targets)
        == r.targets[tid := r.targets[tid].(state := e.toState, version := e.toVersion)];
  }

  lemma ObserveReplays(next: int, id: string, tid: string, rec: RunRecord, exercised: bool, payload: Json,
                       audit: AuditContext, capture: Option<Capture>)
    requires ValidId(id) && ValidId(tid) && next >= 1 && tid in rec.targets && !IsMaintenanceTerminal(rec.state)
    ensures Check(Mirror(id, rec, exercised), ObserveEvent(next, id, tid, payload, audit), capture)
            == Some(Mirror(id, rec, exercised))
  {
    AuditNeverEmpty(audit);
  }

  // ---- Each call keeps the run it writes ----

  /** Without targets there is no target event. */
  lemma {:induction false} UncapturedIsUnexercised(events: seq<Event>, capture: Option<Capture>)
    requires ReplayAll(events, capture).Some? && ReplayAll(events, capture).value.targets == map[]
    ensures !Exercised(events)
  {
    if events == [] {
    } else {
      hide TargetEventAllowed, RunEventAllowed;
      var n := |events| - 1;
      var before := ReplayAll(events[..n], capture).value;
      CheckKeepsTargets(before, events[n], capture);
      assert before.targets == map[];
      UncapturedIsUnexercised(events[..n], capture);
      ExercisedAppend(events[..n], events[n]);
      assert events == events[..n] + [events[n]];
      TargetEventNeedsTarget(before, events[n], capture);
    }
  }

  lemma TargetEventNeedsTarget(r: ReplayRun, e: Event, capture: Option<Capture>)
    requires Check(r, e, capture).Some?
    ensures e.kind.TargetTransitioned? || e.kind.TargetSkipped? ==> e.targetId in r.targets
  {
  }

  lemma UncapturedRun(id: string, rec: RunRecord, events: seq<Event>)
    requires HistoryOk(id, rec, events) && rec.targets == map[]
    ensures !Exercised(events)
  {
    hide Check;
    assert MirrorTargets(rec.targets) == map[];
    UncapturedIsUnexercised(events, rec.capture);
  }

  lemma {:induction false} AddCapturedKeeps(targets: map<string, ReplayTarget>, ts: seq<CaptureTarget>)
    ensures targets.Keys <= AddCaptured(targets, ts).Keys
  {
    if ts == [] {
    } else {
      AddCapturedKeeps(targets, ts[..|ts| - 1]);
    }
  }

  lemma CheckKeepsTargets(r: ReplayRun, e: Event, capture: Option<Capture>)
    requires Check(r, e, capture).Some?
    ensures r.targets.Keys <= Check(r, e, capture).value.targets.Keys
  {
    hide RunEventAllowed, ParseTargets, EventShapeOk;
    if e.kind.MaintenanceCaptured? {
      AddCapturedKeeps(r.targets, ParseTargets(capture.value.document).value);
    }
  }

  /** One more event extends a consistent history when the replayer takes it to the new record. */
  lemma HistoryExtends(id: string, rec: RunRecord, rec': RunRecord, events: seq<Event>, e: Event)
    requires HistoryOk(id, rec, events) && rec'.capture == rec.capture
    requires Check(Mirror(id, rec, Exercised(events)), e, rec.capture)
          == Some(Mirror(id, rec', Exercised(events) || e.kind.TargetTransitioned?))
    requires !e.kind.MaintenanceCaptured?
    requires !Exercised(events) && !e.kind.TargetTransitioned? ==> forall t :: t in rec'.targets ==>
             Untouched(rec'.targets[t])
    requires rec'.state.Cancelled? ==> !Exercised(events) && !e.kind.TargetTransitioned?
    ensures HistoryOk(id, rec', events + [e])
  {
    hide Check, Mirror;
    ReplayAppend(events, e, rec.capture);
    ExercisedAppend(events, e);
  }

  lemma CreateKeepsRun(next: int, id: string, identity: Json, audit: AuditContext)
    requires ValidId(id) && next >= 1 && Shallow(identity.depth)
    ensures var rec := RunRecord(New, 1, identity, None, map[]);
            var e := RunEvent(next, MaintenanceCreated, id, audit, NoState, NoState, 0, 0, 1,
                CreatedPayload(id, New, 1, identity));
            RecordOk(id, rec) && HistoryOk(id, rec, [e])
  {
    var e := RunEvent(next, MaintenanceCreated, id, audit, NoState, NoState, 0, 0, 1,
        CreatedPayload(id, New, 1, identity));
    CreateReplays(next, id, identity, audit);
    NewRecordOk(id, identity);
    hide Check, Mirror, RecordOk, ReplayAll, ValidId;
    ReplayNothing(None);
    ReplayAppend([], e, None);
    assert [] + [e] == [e];
    ExercisedAppend([], e);
  }

  lemma NewRecordOk(id: string, identity: Json)
    requires ValidId(id) && Shallow(identity.depth)
    ensures RecordOk(id, RunRecord(New, 1, identity, None, map[]))
  {
    hide ValidId, CompletionObjection, StoppedBarrier, TargetOk;
  }

  lemma ReplayNothing(capture: Option<Capture>)
    ensures ReplayAll([], capture) == Some(BLANK_REPLAY)
  {
  }

  /** A document that is not too deep has no metadata that is. */
  lemma MetadataShallow(d: Document)
    requires ParseTargets(d).Some? && Shallow(d.Depth())
    ensures forall i :: 0 <= i < |ParseTargets(d).value| ==> Shallow(ParseTargets(d).value[i].carried.depth)
  {
    hide ValidId, Utf8Length, Trim, ValidOriginalState;
    if d.targets.Items? {
      var ts := ParseTargets(d).value;
      forall i | 0 <= i < |ts|
        ensures Shallow(ts[i].carried.depth)
      {
        assert ts[i].carried == d.targets.items[i].carried.value;
        MetadataWithin(d.targets.items, i);
      }
    }
  }

  lemma CapturedRecordOk(id: string, rec: RunRecord, capture: Capture)
    requires RecordOk(id, rec) && capture.digest == Sha256(capture.document) && ParseTargets(capture.document).Some?
    requires Shallow(capture.document.Depth()) && KeysStorable(ParseTargets(capture.document).value)
    ensures RecordOk(id, CapturedRecord(rec, capture, ParseTargets(capture.document).value))
    ensures forall t :: t in CapturedRecord(rec, capture, ParseTargets(capture.document).value).targets ==>
              Untouched(CapturedRecord(rec, capture, ParseTargets(capture.document).value).targets[t])
  {
    hide ValidId, Utf8Length, InsertedTargets, ParseTargets, StorableKey;
    var ts := ParseTargets(capture.document).value;
    MetadataShallow(capture.document);
    InsertedAreOfCapture(ts);
  }

  lemma CaptureKeepsRun(next: int, id: string, rec: RunRecord, events: seq<Event>, capture: Capture,
      audit: AuditContext)
    requires next >= 1 && RecordOk(id, rec) && HistoryOk(id, rec, events) && rec.state.New? && rec.capture.None?
    requires capture.digest == Sha256(capture.document) && ParseTargets(capture.document).Some?
    requires Shallow(capture.document.Depth()) && KeysStorable(ParseTargets(capture.document).value)
    ensures var ts := ParseTargets(capture.document).value;
            var rec' := CapturedRecord(rec, capture, ts);
            RecordOk(id, rec') && HistoryOk(id, rec', events + [CaptureEvent(next, id, rec, capture, |ts|, audit)])
  {
    var ts := ParseTargets(capture.document).value;
    var e := CaptureEvent(next, id, rec, capture, |ts|, audit);
    CapturedRecordOk(id, rec, capture);
    UncapturedRun(id, rec, events);
    CaptureReplays(next, id, rec, capture, audit);
    hide Check, Mirror, RecordOk, CapturedRecord;
    ReplayIgnoresCapture(events, rec.capture, Some(capture));
    ReplayAppend(events, e, Some(capture));
    ExercisedAppend(events, e);
  }

  lemma TransitionedRecordOk(id: string, rec: RunRecord, exercised: bool, change: StateChange,
                             pre: VersionPrecondition, audit: AuditContext)
    requires RecordOk(id, rec) && ValidMaintenanceState(change.state)
    requires TransitionObjection(rec, exercised, change, pre, audit).None?
    ensures RecordOk(id, Transitioned(rec, change.state))
  {
    hide ValidId, ValidJustification, IsAdmin, ParseTargets, CaptureOk;
    var rec' := Transitioned(rec, change.state);
    assert rec'.targets.Keys == rec.targets.Keys;
    assert forall t :: t in rec.targets ==>
             rec'.targets[t].state == rec.targets[t].state && rec'.targets[t].original == rec.targets[t].original;
    BumpKeepsCapture(rec, change.state);
  }

  lemma BumpKeepsCapture(rec: RunRecord, to: StateName)
    requires CaptureOk(rec)
    ensures CaptureOk(Transitioned(rec, to))
  {
    hide ParseTargets;
    assert Transitioned(rec, to).targets.Keys == rec.targets.Keys;
  }

  lemma TransitionKeepsRun(next: int, id: string, rec: RunRecord, events: seq<Event>, change: StateChange,
                           pre: VersionPrecondition, audit: AuditContext)
    requires next >= 1 && RecordOk(id, rec) && HistoryOk(id, rec, events)
    requires ValidMaintenanceState(change.state) && change.detail.Some?
    requires TransitionObjection(rec, Exercised(events), change, pre, audit).None?
    ensures var rec' := Transitioned(rec, change.state);
            RecordOk(id, rec') && HistoryOk(id, rec', events + [TransitionEvent(next, id, rec, change, audit)])
  {
    hide Check, Mirror, Trim, ValidJustification, IsAdmin, ReplayAll, CaptureOk, ValidId, StoppedBarrier,
         CompletionObjection, TargetOk;
    var e := TransitionEvent(next, id, rec, change, audit);
    TransitionedRecordOk(id, rec, Exercised(events), change, pre, audit);
    TransitionReplays(next, id, rec, Exercised(events), change, pre, audit, rec.capture);
    if change.state.Cancelled? && rec.capture.None? {
      UncapturedRun(id, rec, events);
    }
    HistoryExtends(id, rec, Transitioned(rec, change.state), events, e);
  }

  lemma MovedRecordOk(id: string, tid: string, rec: RunRecord, change: StateChange, pre: VersionPrecondition,
      audit: AuditContext)
    requires RecordOk(id, rec) && ValidTargetState(change.state) && tid in rec.targets
             && !IsMaintenanceTerminal(rec.state)
    requires TargetObjection(rec.state, rec.targets[tid], change, pre, audit).None?
    ensures RecordOk(id, WithTarget(rec, tid, change.state))
  {
    hide ValidId, ValidJustification, IsAdmin, ParseTargets, CaptureOk;
    var rec' := WithTarget(rec, tid, change.state);
    assert rec'.targets.Keys == rec.targets.Keys;
    assert TargetOk(rec'.targets[tid]);
    MoveKeepsCapture(rec, tid, change.state);
  }

  lemma MoveKeepsCapture(rec: RunRecord, tid: string, to: StateName)
    requires CaptureOk(rec) && tid in rec.targets
    ensures CaptureOk(WithTarget(rec, tid, to))
  {
    hide ParseTargets;
    assert WithTarget(rec, tid, to).targets.Keys == rec.targets.Keys;
  }

  lemma TargetKeepsRun(next: int, id: string, tid: string, rec: RunRecord, events: seq<Event>, change: StateChange,
                       pre: VersionPrecondition, audit: AuditContext)
    requires next >= 1 && RecordOk(id, rec) && HistoryOk(id, rec, events) && tid in rec.targets
    requires ValidTargetState(change.state) && change.detail.Some? && !IsMaintenanceTerminal(rec.state)
    requires TargetObjection(rec.state, rec.targets[tid], change, pre, audit).None?
    ensures var rec' := WithTarget(rec, tid, change.state);
            RecordOk(id, rec') && HistoryOk(id, rec', events + [MoveEvent(next, id, tid, rec, change, audit)])
  {
    hide Check, Mirror, Trim, ValidJustification, IsAdmin, ReplayAll, CaptureOk, StoppedBarrier, CompletionObjection,
         TargetOk, TargetObjection;
    var e := MoveEvent(next, id, tid, rec, change, audit);
    MovedRecordOk(id, tid, rec, change, pre, audit);
    TargetReplays(next, id, tid, rec, Exercised(events), change, pre, audit, rec.capture);
    HistoryExtends(id, rec, WithTarget(rec, tid, change.state), events, e);
  }

  lemma ObserveKeepsRun(next: int, id: string, tid: string, rec: RunRecord, events: seq<Event>, payload: Json,
      audit: AuditContext)
    requires next >= 1 && RecordOk(id, rec) && HistoryOk(id, rec, events) && tid in rec.targets
             && !IsMaintenanceTerminal(rec.state)
    ensures HistoryOk(id, rec, events + [ObserveEvent(next, id, tid, payload, audit)])
  {
    ObserveReplays(next, id, tid, rec, Exercised(events), payload, audit, rec.capture);
    hide Check, Mirror, ReplayAll, CaptureOk, ValidId;
    HistoryExtends(id, rec, rec, events, ObserveEvent(next, id, tid, payload, audit));
  }
}
