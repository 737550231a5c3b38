/** The writer's rules and the verifier's rules agree: verification accepts every reachable database,
    and, event by event, the verifier accepts exactly what some store call would have written. */
module Agreement {
  import opened Lifecycle
  import opened Text
  import opened Records
  import opened Writer
  import opened Replay
  import opened Invariant
  import opened Histories

  // ---- Verification of a whole database ----

  /** loadCaptureForVerify. */
  predicate CaptureLoads(capture: Option<Capture>) {
    capture.Some? ==>
      capture.value.digest == Sha256(capture.value.document) && ParseTargets(capture.value.document).Some?
  }

  function CapturedTargets(capture: Option<Capture>): seq<CaptureTarget>
    requires CaptureLoads(capture)
  {
    if capture.None? then [] else ParseTargets(capture.value.document).value
  }

  /** A stored target agrees with the capture and with the replay. */
  predicate TargetVerified(t: string, target: Target, ts: seq<CaptureTarget>, replayed: map<string, ReplayTarget>) {
    && (exists i :: 0 <= i < |ts| && ts[i].id == t && SameIdentity(target, ts[i]))
    && t in replayed && replayed[t].state == target.state && replayed[t].version == target.version
  }

  /** verifyMaintenanceReplay. */
  predicate RunVerified(id: string, rec: RunRecord, events: seq<Event>) {
    && CaptureLoads(rec.capture)
    && events != []
    && ReplayAll(events, rec.capture).Some?
    && var r := ReplayAll(events, rec.capture).value;
    && r.state == rec.state && r.revision == rec.version && r.captured == rec.capture.Some?
    && r.created == Some(CreatedRun(id, rec.identity))
    && var ts := CapturedTargets(rec.capture);
    && |rec.targets| == |ts| && |rec.targets| == |r.targets|
    && forall t :: t in rec.targets ==> TargetVerified(t, rec.targets[t], ts, r.targets)
  }

  /** verifyApplicationData: locks, every run, and the events that belong to no run. */
  ghost predicate Verified(db: Db) {
    && LocksExclusive(db)
    && (forall id :: id in db.runs ==> RunVerified(id, db.runs[id], EventsOf(db.journal, id)))
    && (forall i :: 0 <= i < |db.journal| && db.journal[i].maintenanceId == "" ==>
          EventShapeOk(db.journal[i]) && GlobalEventOk(db.journal[i]))
  }

  lemma MirrorSize(targets: map<string, Target>)
    ensures |MirrorTargets(targets)| == |targets|
  {
    assert MirrorTargets(targets).Keys == targets.Keys;
  }

  lemma SameKeysSameSize(targets: map<string, Target>, ts: seq<CaptureTarget>)
    requires TargetsOfCapture(targets, ts) && DistinctIds(ts)
    ensures |targets| == |ts|
  {
    InsertedTargetsCount(ts);
    assert targets.Keys == InsertedTargets(ts).Keys;
    assert |targets| == |targets.Keys| && |InsertedTargets(ts)| == |InsertedTargets(ts).Keys|;
  }

  lemma ConsistentRunVerifies(id: string, rec: RunRecord, events: seq<Event>)
    requires RecordOk(id, rec) && HistoryOk(id, rec, events)
    ensures RunVerified(id, rec, events)
  {
    hide Check, ParseTargets, StoppedBarrier, CompletionObjection, ValidId, Exercised, TargetOk;
    var ts := CapturedTargets(rec.capture);
    MirrorSize(rec.targets);
    if rec.capture.Some? {
      SameKeysSameSize(rec.targets, ts);
      hide ReplayAll;
      forall t | t in rec.targets
        ensures TargetVerified(t, rec.targets[t], ts, MirrorTargets(rec.targets))
      {
        var i :| 0 <= i < |ts| && ts[i].id == t;
      }
    }
  }

  /** Replay refines storage: after any calls, accepted or rejected, in any interleaving of clients,
      replaying each run's journal from nothing accepts every event and ends in exactly the stored
      state, version, capture flag and targets; so verification accepts the database. */
  lemma ReplayRefinesStorage(calls: seq<Call>)
    ensures var db := Exec(EMPTY_DB, calls);
            && Verified(db)
            && forall id :: id in db.runs ==>
                 var events := EventsOf(db.journal, id);
                 ReplayAll(events, db.runs[id].capture) == Some(Mirror(id, db.runs[id], Exercised(events)))
  {
    var db := Exec(EMPTY_DB, calls);
    Reachable(calls);
    hide Exec, LocksExclusive, EventShapeOk, GlobalEventOk, RunVerified, EventsOf, RecordOk, Mirror, ReplayAll,
         Exercised;
    forall id | id in db.runs
      ensures RunVerified(id, db.runs[id], EventsOf(db.journal, id))
      ensures var events := EventsOf(db.journal, id);
              ReplayAll(events, db.runs[id].capture) == Some(Mirror(id, db.runs[id], Exercised(events)))
    {
      assert RunOk(db, id);
      ConsistentRunVerifies(id, db.runs[id], EventsOf(db.journal, id));
    }
    forall i | 0 <= i < |db.journal| && db.journal[i].maintenanceId == ""
      ensures EventShapeOk(db.journal[i]) && GlobalEventOk(db.journal[i])
    {
      assert EventInPlace(db, db.journal[i]);
    }
  }

  // ---- Event by event ----

  predicate IsChangeKind(k: EventKind) {
    || k.MaintenanceTransitioned? || k.MaintenanceReopened? || k.MaintenanceCompleted?
    || k.TargetTransitioned? || k.TargetSkipped?
  }

  /** A change event as the journal would hold it next: shaped and numbered. */
  predicate WellFormedNext(db: Db, e: Event) {
    && EventShapeOk(e) && e.id == |db.journal| + 1 && e.maintenanceId in db.runs
    && IsChangeKind(e.kind)
  }

  /** The writer trims a justification before it journals it, where the verifier trims what it reads, and the
      journal takes no payload that is too deep. */
  predicate TrimmedReason(e: Event) {
    && e.payload.TransitionPayload? && Trim(e.payload.justification) == e.payload.justification
    && Shallow(PayloadDepth(e.payload))
  }

  predicate Appends(db: Db, call: Call, e: Event) {
    Accepted(db, call) && Step(db, call).journal == db.journal + [e]
  }

  /** The call that would have written a change event. */
  function CallFor(e: Event): Call
    requires e.payload.TransitionPayload?
  {
    var change := StateChange(e.toState, e.payload.justification, Some(e.payload.detail));
    var pre := VersionPrecondition(false, [e.fromVersion]);
    var audit := AuditContext(e.actor, e.role, e.requestId);
    if e.kind.TargetTransitioned? || e.kind.TargetSkipped?
    then TransitionTarget(e.maintenanceId, e.targetId, change, pre, audit)
    else TransitionRun(e.maintenanceId, change, pre, audit)
  }

  lemma RunEventIsWritten(db: Db, e: Event)
    requires DbOk(db) && WellFormedNext(db, e) && TrimmedReason(e) && IsRunChange(e.kind)
    requires RunEventAllowed(Mirror(e.maintenanceId, db.runs[e.maintenanceId],
             Exercised(EventsOf(db.journal, e.maintenanceId))), e)
    ensures Decide(db, CallFor(e)).Ok? && Decide(db, CallFor(e)).value.Recorded?
            && Decide(db, CallFor(e)).value.event == e
  {
    hide EventsOf, Exercised, ParseTargets, CaptureOk, HistoryOk, LocksExclusive, JournalOk, ValidId, Trim, Utf8Length,
         TargetOk;
    var id := e.maintenanceId;
    var rec, exercised := db.runs[id], Exercised(EventsOf(db.journal, id));
    var r := Mirror(id, rec, exercised);
    assert RunOk(db, id);
    var change := StateChange(e.toState, e.payload.justification, Some(e.payload.detail));
    var pre := VersionPrecondition(false, [e.fromVersion]);
    var audit := AuditContext(e.actor, e.role, e.requestId);
    RunChangeUnopposed(id, rec, exercised, e, change, pre, audit);
    hide TransitionObjection, RunEventAllowed, StoppedBarrier, RecordOk;
    assert TransitionEvent(|db.journal| + 1, id, rec, change, audit) == e;
  }

  predicate IsRunChange(k: EventKind) {
    k.MaintenanceTransitioned? || k.MaintenanceReopened? || k.MaintenanceCompleted?
  }

  lemma RunChangeUnopposed(id: string, rec: RunRecord, exercised: bool, e: Event, change: StateChange,
                           pre: VersionPrecondition, audit: AuditContext)
    requires RecordOk(id, rec) && RunEventAllowed(Mirror(id, rec, exercised), e) && IsRunChange(e.kind)
    requires change.state == e.toState && change.justification == e.payload.justification
    requires pre == VersionPrecondition(false, [e.fromVersion]) && audit.role == e.role
    ensures TransitionObjection(rec, exercised, change, pre, audit).None?
    ensures ValidMaintenanceState(e.toState) && ValidId(id)
    ensures e.kind == TransitionKind(rec.state, e.toState)
    ensures e.fromState == rec.state && e.fromVersion == rec.version
            && e.toVersion == e.aggregateVersion == rec.version + 1
  {
    hide ValidId, ParseTargets, Trim, Utf8Length, CaptureOk, TargetOk, IsAdmin;
    var r := Mirror(id, rec, exercised);
    assert forall t :: t in rec.targets ==> t in r.targets;
    assert StoppedBarrier(rec.targets) <==> forall t :: t in r.targets ==> ReplayStopped(r.targets[t]);
    if e.toState.Completed? {
      var t :| t in r.targets;
      assert t in rec.targets;
    }
  }

  lemma TargetEventIsWritten(db: Db, e: Event)
    requires DbOk(db) && WellFormedNext(db, e) && TrimmedReason(e) && !IsRunChange(e.kind)
    requires TargetEventAllowed(Mirror(e.maintenanceId, db.runs[e.maintenanceId],
             Exercised(EventsOf(db.journal, e.maintenanceId))), e)
    ensures Decide(db, CallFor(e)).Ok? && Decide(db, CallFor(e)).value.Recorded?
            && Decide(db, CallFor(e)).value.event == e
  {
    hide EventsOf, Exercised, ParseTargets, CaptureOk, HistoryOk, LocksExclusive, JournalOk, ValidId, Trim, Utf8Length,
         StoppedBarrier, CompletionObjection;
    var id, tid := e.maintenanceId, e.targetId;
    var rec := db.runs[id];
    var r := Mirror(id, rec, Exercised(EventsOf(db.journal, id)));
    assert RunOk(db, id);
    var change := StateChange(e.toState, e.payload.justification, Some(e.payload.detail));
    var pre := VersionPrecondition(false, [e.fromVersion]);
    var audit := AuditContext(e.actor, e.role, e.requestId);
    assert tid in r.targets && tid in rec.targets && ValidId(tid);
    assert TargetObjection(rec.state, rec.targets[tid], change, pre, audit).None? by { hide IsAdmin; }
    assert MoveEvent(|db.journal| + 1, id, tid, rec, change, audit) == e;
  }

  /** Only a capture changes the capture. */
  lemma CaptureOnlyByCapture(db: Db, call: Call)
    requires Accepted(db, call) && Decide(db, call).value.Recorded? && Decide(db, call).value.id in db.runs
    ensures var w := Decide(db, call).value;
            !w.event.kind.MaintenanceCaptured? ==> w.record.capture == db.runs[w.id].capture
  {
    hide ParseTargets, Trim, ValidId, TransitionObjection, TargetObjection, FindObservation, LockHeld, InsertedTargets;
  }

  /** What a call writes, the verifier accepts. */
  lemma WrittenIsAllowed(db: Db, call: Call, e: Event)
    requires DbOk(db) && Appends(db, call, e) && e.maintenanceId in db.runs && !e.kind.MaintenanceCaptured?
    ensures var id := e.maintenanceId;
            Check(Mirror(id, db.runs[id], Exercised(EventsOf(db.journal, id))), e, db.runs[id].capture).Some?
  {
    hide Exercised, Mirror, Check, Decide, RecordOk, LocksExclusive, JournalOk, EventShapeOk, LockHeld;
    DecidedEffectOk(db, call);
    var w := Decide(db, call).value;
    var id := e.maintenanceId;
    var events := EventsOf(db.journal, id);
    assert RunOk(db, id);
    assert (db.journal + [e])[|db.journal|] == e;
    assert Commit(db, w).journal[|db.journal|] == e;
    RecordIdNotEmpty(id, db.runs[id]);
    assert w.Recorded? && w.event == e && w.id == id;
    CaptureOnlyByCapture(db, call);
    ReplayAppend(events, e, db.runs[id].capture);
  }

  lemma WrittenIsTrimmed(db: Db, call: Call, e: Event)
    requires Appends(db, call, e) && IsChangeKind(e.kind)
    ensures TrimmedReason(e)
  {
    hide ParseTargets, Trim, ValidId, TransitionObjection, TargetObjection, FindObservation, LockHeld, InsertedTargets,
         Exercised, EventsOf, KeysStorable;
    var w := Decide(db, call).value;
    assert (db.journal + [e])[|db.journal|] == e;
    assert Commit(db, w).journal[|db.journal|] == e;
    if call.TransitionRun? || call.TransitionTarget? {
      TrimIdempotent(call.change.justification);
    }
  }

  lemma AllowedIsWritten(db: Db, e: Event)
    requires DbOk(db) && WellFormedNext(db, e) && TrimmedReason(e)
    requires var id := e.maintenanceId;
             Check(Mirror(id, db.runs[id], Exercised(EventsOf(db.journal, id))), e, db.runs[id].capture).Some?
    ensures Appends(db, CallFor(e), e)
  {
    hide DbOk, Mirror, Exercised, EventsOf, EventShapeOk, RunEventAllowed, TargetEventAllowed, Decide, Trim;
    if IsRunChange(e.kind) {
      RunEventIsWritten(db, e);
    } else {
      TargetEventIsWritten(db, e);
    }
  }

  /** The two rule sets agree step by step: in a consistent database (every reachable one is), the
      verifier accepts a well-formed phase change, reopening, completion, target move or skip, and its
      justification is trimmed, if and only if some store call would append exactly that event. */
  lemma RulesAgree(db: Db, e: Event)
    requires DbOk(db) && WellFormedNext(db, e)
    ensures var id := e.maintenanceId;
            && Check(Mirror(id, db.runs[id], Exercised(EventsOf(db.journal, id))), e, db.runs[id].capture).Some?
            && TrimmedReason(e)
            <==> exists call :: Appends(db, call, e)
  {
    hide DbOk, Mirror, Exercised, EventsOf, EventShapeOk, Check, Appends, Trim, CallFor, TrimmedReason;
    var id := e.maintenanceId;
    if && Check(Mirror(id, db.runs[id], Exercised(EventsOf(db.journal, id))), e, db.runs[id].capture).Some?
       && TrimmedReason(e)
    {
      AllowedIsWritten(db, e);
    }
    if call :| Appends(db, call, e) {
      WrittenIsAllowed(db, call, e);
      WrittenIsTrimmed(db, call, e);
    }
  }

  /** The same for whole runs of calls: a reachable journal extended by a well-formed change event with a
      trimmed justification replays if and only if some call, made now, would write that event. */
  lemma RulesAgreeOnEveryRun(calls: seq<Call>, e: Event)
    ensures var db := Exec(EMPTY_DB, calls);
            WellFormedNext(db, e) ==>
              (&& ReplayAll(EventsOf(db.journal, e.maintenanceId) + [e], db.runs[e.maintenanceId].capture).Some?
               && TrimmedReason(e)
               <==> exists call :: Appends(db, call, e))
  {
    var db := Exec(EMPTY_DB, calls);
    Reachable(calls);
    hide Exec, DbOk, RecordOk, Mirror, Exercised, EventsOf, EventShapeOk, Check, Appends, Trim, TrimmedReason;
    if WellFormedNext(db, e) {
      var id := e.maintenanceId;
      RunOf(db, id);
      ReplayAppend(EventsOf(db.journal, id), e, db.runs[id].capture);
      RulesAgree(db, e);
    }
  }

  // ---- Captures, where the verifier is the more liberal of the two ----

  /** A capture event as the journal would hold it next, over a document that was saved for the run. */
  predicate WellFormedCapture(db: Db, e: Event, c: Capture) {
    && EventShapeOk(e) && e.kind.MaintenanceCaptured? && e.id == |db.journal| + 1 && e.maintenanceId in db.runs
    && db.runs[e.maintenanceId].capture.None? && CaptureLoads(Some(c))
  }

  predicate AppendsCapture(db: Db, call: Call, e: Event, c: Capture)
    requires e.maintenanceId in db.runs
  {
    Appends(db, call, e) && e.maintenanceId in Step(db, call).runs
        && Step(db, call).runs[e.maintenanceId].capture == Some(c)
  }

  predicate CaptureAccepted(db: Db, e: Event, c: Capture)
    requires e.maintenanceId in db.runs
  {
    Check(Mirror(e.maintenanceId, db.runs[e.maintenanceId], Exercised(EventsOf(db.journal, e.maintenanceId))), e,
        Some(c)).Some?
  }

  predicate KeysFree(db: Db, ts: seq<CaptureTarget>) {
    !exists i :: 0 <= i < |ts| && LockHeld(db, ts[i].lockKey)
  }

  /** What the writer asks beyond the verifier: the run is new, no key of the document is held, and the
      targets table takes every key. */
  predicate CaptureWritable(db: Db, e: Event, c: Capture)
    requires e.maintenanceId in db.runs && CaptureLoads(Some(c))
  {
    var ts := CapturedTargets(Some(c));
    db.runs[e.maintenanceId].state.New? && KeysFree(db, ts) && Shallow(c.document.Depth()) && KeysStorable(ts)
  }

  /** Exactly when an acceptable capture event could have been written. */
  lemma CaptureRule(db: Db, e: Event, c: Capture)
    requires DbOk(db) && WellFormedCapture(db, e, c)
    ensures CaptureAccepted(db, e, c) && CaptureWritable(db, e, c)
            <==> exists call :: AppendsCapture(db, call, e, c)
  {
    hide DbOk, CaptureWritable, AppendsCapture, CaptureAccepted, ParseTargets, EventShapeOk;
    if CaptureAccepted(db, e, c) && CaptureWritable(db, e, c) {
      CaptureAllowedIsWritten(db, e, c);
    }
    if call :| AppendsCapture(db, call, e, c) {
      CaptureWrittenIsAllowed(db, call, e, c);
    }
  }

  lemma CaptureAllowedIsWritten(db: Db, e: Event, c: Capture)
    requires DbOk(db) && WellFormedCapture(db, e, c)
    requires CaptureAccepted(db, e, c) && CaptureWritable(db, e, c)
    ensures AppendsCapture(db, CaptureRun(e.maintenanceId, Some(c.document),
            AuditContext(e.actor, e.role, e.requestId)), e, c)
  {
    hide HistoryOk, JournalOk, LocksExclusive, EventsOf, Exercised, ParseTargets, ValidId, LockHeld, CaptureOk,
         InsertedTargets, AddCaptured, StorableKey, TargetOk, StoppedBarrier, CompletionObjection;
    var id := e.maintenanceId;
    var rec, ts := db.runs[id], CapturedTargets(Some(c));
    var audit := AuditContext(e.actor, e.role, e.requestId);
    assert RunOk(db, id);
    assert CaptureEvent(|db.journal| + 1, id, rec, c, |ts|, audit) == e;
  }

  lemma CaptureWrittenIsAllowed(db: Db, call: Call, e: Event, c: Capture)
    requires DbOk(db) && WellFormedCapture(db, e, c) && AppendsCapture(db, call, e, c)
    ensures CaptureAccepted(db, e, c) && CaptureWritable(db, e, c)
  {
    hide HistoryOk, JournalOk, LocksExclusive, EventsOf, Exercised, ParseTargets, ValidId, LockHeld, InsertedTargets,
         TransitionObjection, TargetObjection, Trim, Check, CaptureOk, EventShapeOk, Mirror;
    var id := e.maintenanceId;
    var w := Decide(db, call).value;
    assert RunOk(db, id);
    assert (db.journal + [e])[|db.journal|] == e;
    assert Commit(db, w).journal[|db.journal|] == e;
    CaptureNeedsFreeLocks(db, call);
    UncapturedRun(id, db.runs[id], EventsOf(db.journal, id));
    CaptureReplays(|db.journal| + 1, id, db.runs[id], c, call.audit);
  }

  lemma CaptureNeedsFreeLocks(db: Db, call: Call)
    requires Accepted(db, call) && Decide(db, call).value != Unchanged
    requires (if Decide(db, call).value.Noted? then Decide(db, call).value.note
             else Decide(db, call).value.event).kind.MaintenanceCaptured?
    ensures var w := Decide(db, call).value;
            && call.CaptureRun? && w.Recorded? && w.id == call.id && call.id in db.runs && db.runs[call.id].state.New?
            && w.record.capture.Some? && CaptureLoads(w.record.capture)
            && var ts := CapturedTargets(w.record.capture);
            && w.event == CaptureEvent(|db.journal| + 1, call.id, db.runs[call.id], w.record.capture.value, |ts|,
               call.audit)
            && KeysFree(db, ts) && Shallow(w.record.capture.value.document.Depth()) && KeysStorable(ts)
  {
    hide EventsOf, Exercised, ParseTargets, ValidId, LockHeld, InsertedTargets, TransitionObjection, TargetObjection,
         Trim, FindObservation;
  }

  const OPERATOR := AuditContext("a", "admin", "q")

  /** A run that was created and then failed. */
  const FAILED_CALLS := [
    Create(RunInput("m", New, Some(EMPTY_OBJECT)), OPERATOR),
    TransitionRun("m", StateChange(Failed, "", Some(EMPTY_OBJECT)), VersionPrecondition(true, []), OPERATOR)]

  lemma FailedRunReached()
    ensures var db := Exec(EMPTY_DB, FAILED_CALLS);
            db.runs == map["m" := RunRecord(Failed, 2, EMPTY_OBJECT, None, map[])] && |db.journal| == 2
  {
    hide EventsOf, Exercised, Trim;
    var d1 := Step(EMPTY_DB, FAILED_CALLS[0]);
    assert d1.runs == map["m" := RunRecord(New, 1, EMPTY_OBJECT, None, map[])] && |d1.journal| == 1;
    assert FAILED_CALLS[..1] == [FAILED_CALLS[0]];
    assert Exec(EMPTY_DB, FAILED_CALLS[..1]) == d1;
    assert Step(d1, FAILED_CALLS[1]).runs["m"] == RunRecord(Failed, 2, EMPTY_OBJECT, None, map[]);
  }

  /** The difference is real: a reachable failed run, and a capture event the verifier accepts for it,
      that no call can write. */
  lemma VerifierIsMoreLiberal()
    ensures exists calls, e, c ::
              var db := Exec(EMPTY_DB, calls);
              WellFormedCapture(db, e, c) && CaptureAccepted(db, e, c) && forall call :: !AppendsCapture(db, call, e, c)
  {
    FailedRunReached();
    Reachable(FAILED_CALLS);
    var db := Exec(EMPTY_DB, FAILED_CALLS);
    hide Exec, EventsOf, Exercised, DbOk, AppendsCapture;
    var c := Capture(EMPTY_DOCUMENT, Sha256(EMPTY_DOCUMENT));
    var e := RunEvent(3, MaintenanceCaptured, "m", OPERATOR, Failed, Captured, 2, 3, 3, CapturePayload(c.digest, 0));
    assert WellFormedCapture(db, e, c);
    assert CaptureAccepted(db, e, c);
    CaptureRule(db, e, c);
  }

  lemma BlankIsTrimmed(s: string)
    requires |s| == 2 && s[0] == ' ' && !IsSpace(s[1])
    ensures ValidJustification(s) && Trim(s) != s
  {
    assert IsSpace(s[0]);
    hide IsSpace;
    var r := s[1..];
    assert TrimLeft(r) == r && TrimLeft(s) == r && TrimRight(r) == r;
    assert r[..0] == "" && Utf8Length(r) <= 4;
  }

  /** A reopening whose journalled reason begins with a blank, next in the journal of the failed run. */
  const UNTRIMMED_REOPENING :=
    RunEvent(3, MaintenanceReopened, "m", OPERATOR, Failed, New, 2, 3, 3, TransitionPayload(" r", EMPTY_OBJECT))

  /** So is the other one: the verifier accepts such a reopening, and no call can write it. */
  lemma VerifierTrims()
    ensures exists calls, e ::
              var db := Exec(EMPTY_DB, calls);
              && WellFormedNext(db, e) && !TrimmedReason(e)
              && ReplayAll(EventsOf(db.journal, e.maintenanceId) + [e], db.runs[e.maintenanceId].capture).Some?
              && forall call :: !Appends(db, call, e)
  {
    FailedRunReached();
    Reachable(FAILED_CALLS);
    hide Exec, DbOk, Appends, WellFormedNext, TrimmedReason, ReplayAll, EventsOf;
    ReopeningUntrimmed(Exec(EMPTY_DB, FAILED_CALLS), UNTRIMMED_REOPENING);
  }

  lemma ReopeningUntrimmed(db: Db, e: Event)
    requires DbOk(db) && db.runs == map["m" := RunRecord(Failed, 2, EMPTY_OBJECT, None, map[])] && |db.journal| == 2
    requires e == UNTRIMMED_REOPENING
    ensures WellFormedNext(db, e) && !TrimmedReason(e) && e.maintenanceId == "m"
    ensures ReplayAll(EventsOf(db.journal, "m") + [e], None).Some? && forall call :: !Appends(db, call, e)
  {
    ReopeningShape(db, e);
    BlankIsTrimmed(" r");
    hide EventsOf, Exercised, DbOk, Appends, ValidJustification, RecordOk, ReplayAll, Check, Mirror, WellFormedNext,
         TrimmedReason;
    RunOf(db, "m");
    ReopeningChecked(db.runs["m"], Exercised(EventsOf(db.journal, "m")), e);
    ReplayAppend(EventsOf(db.journal, "m"), e, None);
    RulesAgree(db, e);
  }

  lemma ReopeningShape(db: Db, e: Event)
    requires "m" in db.runs && |db.journal| == 2 && e == UNTRIMMED_REOPENING
    ensures WellFormedNext(db, e) && !TrimmedReason(e) && e.maintenanceId == "m"
  {
    hide Trim, ValidJustification, IsSpace;
    assert !IsSpace(" r"[1]) by { BlankOrNot(); }
    BlankIsTrimmed(" r");
  }

  lemma BlankOrNot()
    ensures !IsSpace('r')
  {
  }

  lemma ReopeningChecked(rec: RunRecord, exercised: bool, e: Event)
    requires rec == RunRecord(Failed, 2, EMPTY_OBJECT, None, map[]) && ValidJustification(" r")
    requires e == UNTRIMMED_REOPENING
    ensures Check(Mirror("m", rec, exercised), e, None).Some?
  {
    hide ValidJustification;
  }

  // ---- Every kind of event ----

  /** What the verifier says of an event that comes next. `c` is what is saved with it if it is a capture. */
  predicate VerifierAccepts(db: Db, e: Event, c: Capture) {
    var id := e.maintenanceId;
    if id == "" then EventShapeOk(e) && GlobalEventOk(e)
    else if id !in db.runs then Check(BLANK_REPLAY, e, None).Some?
    else if e.kind.MaintenanceCaptured? && db.runs[id].capture.None? then
      CaptureLoads(Some(c)) && CaptureAccepted(db, e, c)
    else Check(Mirror(id, db.runs[id], Exercised(EventsOf(db.journal, id))), e, db.runs[id].capture).Some?
  }

  /** What the writer asks beyond that, kind by kind. */
  predicate WriterAlsoAsks(db: Db, e: Event, c: Capture) {
    match e.kind
    case MaintenanceCreated => ValidId(e.maintenanceId) && Shallow(PayloadDepth(e.payload))
    case MaintenanceCaptured => e.maintenanceId in db.runs && CaptureLoads(Some(c)) && CaptureWritable(db, e, c)
    case TargetObserved =>
      && FindObservation(EventsOf(db.journal, e.maintenanceId), e.targetId, e.requestId).None?
      && Shallow(PayloadDepth(e.payload))
    case BackupCreated | BackupDownloaded =>
      e.payload.BackupPayload? && (e.kind.BackupCreated? <==> e.payload.artifact == "")
    case UnknownKind(_) => true
    case _ => TrimmedReason(e)
  }

  predicate WouldAppend(db: Db, call: Call, e: Event, c: Capture) {
    && Appends(db, call, e)
    && (e.kind.MaintenanceCaptured? ==>
          e.maintenanceId in Step(db, call).runs && Step(db, call).runs[e.maintenanceId].capture == Some(c))
  }

  lemma CreationIsWritten(db: Db, e: Event)
    requires e.id == |db.journal| + 1 && e.kind.MaintenanceCreated? && e.maintenanceId !in db.runs
    requires Check(BLANK_REPLAY, e, None).Some? && ValidId(e.maintenanceId) && Shallow(PayloadDepth(e.payload))
    ensures Appends(db, Create(RunInput(e.maintenanceId, New, Some(e.payload.identity)),
                               AuditContext(e.actor, e.role, e.requestId)), e)
  {
    hide ValidId;
  }

  lemma ObservationIsWritten(db: Db, e: Event)
    requires DbOk(db) && e.id == |db.journal| + 1 && e.kind.TargetObserved? && e.maintenanceId in db.runs
    requires ObservationFits(db.runs[e.maintenanceId], e) && Shallow(PayloadDepth(e.payload))
    requires FindObservation(EventsOf(db.journal, e.maintenanceId), e.targetId, e.requestId).None?
    ensures Appends(db, Observe(e.maintenanceId, e.targetId, Some(e.payload.document), VersionPrecondition(true, []),
                                AuditContext(e.actor, e.role, e.requestId)), e)
  {
    hide DbOk, EventsOf, ValidId, FindObservation;
    TargetIdValid(db, e.maintenanceId, e.targetId);
    assert ObserveEvent(|db.journal| + 1, e.maintenanceId, e.targetId, e.payload.document,
                        AuditContext(e.actor, e.role, e.requestId)) == e;
  }

  predicate ObservationFits(rec: RunRecord, e: Event) {
    && EventShapeOk(e) && e.targetId in rec.targets && !IsMaintenanceTerminal(rec.state)
    && e.payload.ObservationPayload? && e.aggregateVersion == 0
    && e.fromState.NoState? && e.toState.NoState? && e.fromVersion == 0 && e.toVersion == 0
  }

  lemma ObservationAllowed(id: string, rec: RunRecord, exercised: bool, e: Event, capture: Option<Capture>)
    requires e.kind.TargetObserved? && Check(Mirror(id, rec, exercised), e, capture).Some?
    ensures ObservationFits(rec, e)
  {
    assert e.targetId in Mirror(id, rec, exercised).targets;
  }

  lemma TargetIdValid(db: Db, id: string, tid: string)
    requires DbOk(db) && id in db.runs && tid in db.runs[id].targets
    ensures ValidId(id) && ValidId(tid)
  {
    hide DbOk, CaptureOk, HistoryOk, StoppedBarrier, CompletionObjection, TargetOk, ValidId;
    RunOf(db, id);
  }

  lemma NoteIsWritten(db: Db, e: Event)
    requires e.id == |db.journal| + 1 && e.maintenanceId == "" && EventShapeOk(e) && GlobalEventOk(e)
    requires e.kind.BackupCreated? <==> e.payload.artifact == ""
    ensures var p := e.payload;
            && p.filename != "" && p.sha256 != "" && p.bytes >= 1
            && Appends(db, BackupNote(p.artifact, RawManifest(p.filename, p.sha256, p.bytes),
                                      AuditContext(e.actor, e.role, e.requestId)), e)
  {
  }

  /** Which call writes which kind of event, and what it had to find. */
  lemma AppendedBy(db: Db, call: Call, e: Event)
    requires Appends(db, call, e)
    ensures !e.kind.UnknownKind? && e.id == |db.journal| + 1
    ensures e.kind.MaintenanceCreated? ==>
              && call.Create? && call.input.id == e.maintenanceId && e.maintenanceId !in db.runs
              && ValidId(e.maintenanceId) && Shallow(PayloadDepth(e.payload)) && call.input.identity.Some?
              && e == RunEvent(|db.journal| + 1, MaintenanceCreated, e.maintenanceId, call.audit, NoState, NoState, 0,
                 0,
                               1, CreatedPayload(e.maintenanceId, New, 1, call.input.identity.value))
    ensures e.kind.TargetObserved? ==>
              && FindObservation(EventsOf(db.journal, e.maintenanceId), e.targetId, e.requestId).None?
              && Shallow(PayloadDepth(e.payload)) && e.maintenanceId in db.runs
    ensures e.kind.MaintenanceCaptured? || IsChangeKind(e.kind) ==> e.maintenanceId in db.runs
    ensures e.kind.MaintenanceCaptured? ==> db.runs[e.maintenanceId].capture.None?
    ensures e.kind.BackupCreated? || e.kind.BackupDownloaded? ==>
              && e.maintenanceId == "" && e.payload.BackupPayload?
                 && (e.kind.BackupCreated? <==> e.payload.artifact == "")
  {
    hide ParseTargets, Trim, ValidId, TransitionObjection, TargetObjection, FindObservation, LockHeld, InsertedTargets,
         Exercised, EventsOf, KeysStorable;
    var w := Decide(db, call).value;
    assert (db.journal + [e])[|db.journal|] == e;
    assert Commit(db, w).journal[|db.journal|] == e;
  }

  lemma WrittenIsAccepted(db: Db, call: Call, e: Event, c: Capture)
    requires DbOk(db) && WouldAppend(db, call, e, c)
    ensures VerifierAccepts(db, e, c) && WriterAlsoAsks(db, e, c)
  {
    AppendedBy(db, call, e);
    AppendedShape(db, call, e);
    hide DbOk, Check, Mirror, Exercised, EventsOf, EventShapeOk, GlobalEventOk, Appends, FindObservation, ValidId,
         TrimmedReason, CaptureWritable, CaptureAccepted, CaptureLoads, Step;
    if e.kind.MaintenanceCreated? {
      CreateReplays(|db.journal| + 1, e.maintenanceId, call.input.identity.value, call.audit);
      ValidIdNotEmpty(e.maintenanceId);
    } else if e.kind.MaintenanceCaptured? {
      RunOf(db, e.maintenanceId);
      RecordIdNotEmpty(e.maintenanceId, db.runs[e.maintenanceId]);
      SavedCaptureLoads(db, call, e, c);
      CaptureWrittenIsAllowed(db, call, e, c);
    } else if e.maintenanceId != "" {
      WrittenIsAllowed(db, call, e);
      if IsChangeKind(e.kind) {
        WrittenIsTrimmed(db, call, e);
      }
    }
  }

  lemma SavedCaptureLoads(db: Db, call: Call, e: Event, c: Capture)
    requires DbOk(db) && WouldAppend(db, call, e, c) && e.kind.MaintenanceCaptured?
    ensures CaptureLoads(Some(c))
  {
    StepKeepsDb(db, call);
    hide DbOk, Appends, Step, ParseTargets, TargetsOfCapture, HistoryOk, StoppedBarrier, CompletionObjection, TargetOk,
         ValidId;
    RunOf(Step(db, call), e.maintenanceId);
  }

  lemma AppendedShape(db: Db, call: Call, e: Event)
    requires DbOk(db) && Appends(db, call, e)
    ensures EventShapeOk(e) && (e.maintenanceId == "" ==> GlobalEventOk(e))
    ensures e.maintenanceId == "" ==> e.kind.BackupCreated? || e.kind.BackupDownloaded?
  {
    StepKeepsDb(db, call);
    hide DbOk, Appends, Step, EventShapeOk;
    assert (db.journal + [e])[|db.journal|] == e;
    assert Step(db, call).journal == db.journal + [e] by { AppendsMeans(db, call, e); }
    InPlace(Step(db, call), |db.journal|);
  }

  lemma AppendsMeans(db: Db, call: Call, e: Event)
    requires Appends(db, call, e)
    ensures Step(db, call).journal == db.journal + [e]
  {
    hide Step;
  }

  lemma InPlace(db: Db, i: int)
    requires DbOk(db) && 0 <= i < |db.journal|
    ensures EventInPlace(db, db.journal[i])
  {
    hide LocksExclusive, RunOk, EventInPlace;
  }

  /** Writer and verifier, over every kind of event there is: in a consistent database some call would append
      an event if and only if the verifier accepts it as the next one and it meets what the writer asks
      beyond the verifier. */
  lemma EveryEvent(db: Db, e: Event, c: Capture)
    requires DbOk(db) && e.id == |db.journal| + 1
    ensures VerifierAccepts(db, e, c) && WriterAlsoAsks(db, e, c) <==> exists call :: WouldAppend(db, call, e, c)
  {
    if call :| WouldAppend(db, call, e, c) {
      WrittenIsAccepted(db, call, e, c);
    }
    if VerifierAccepts(db, e, c) && WriterAlsoAsks(db, e, c) {
      AcceptedIsWritten(db, e, c);
    }
  }

  lemma AcceptedIsWritten(db: Db, e: Event, c: Capture)
    requires DbOk(db) && e.id == |db.journal| + 1
    requires VerifierAccepts(db, e, c) && WriterAlsoAsks(db, e, c)
    ensures exists call :: WouldAppend(db, call, e, c)
  {
    AcceptedKinds(db, e, c);
    hide DbOk, VerifierAccepts, WriterAlsoAsks, WouldAppend, EventShapeOk;
    if e.maintenanceId == "" {
      AcceptedNote(db, e, c);
    } else if e.kind.MaintenanceCreated? {
      AcceptedCreation(db, e, c);
    } else if e.kind.MaintenanceCaptured? {
      AcceptedCapture(db, e, c);
    } else if e.kind.TargetObserved? {
      AcceptedObservation(db, e, c);
    } else {
      AcceptedChangeEvent(db, e, c);
    }
  }

  lemma AcceptedNote(db: Db, e: Event, c: Capture)
    requires e.id == |db.journal| + 1 && e.maintenanceId == "" && e.payload.BackupPayload?
    requires e.kind.BackupCreated? || e.kind.BackupDownloaded?
    requires VerifierAccepts(db, e, c) && WriterAlsoAsks(db, e, c)
    ensures exists call :: WouldAppend(db, call, e, c)
  {
    NoteIsWritten(db, e);
    hide Appends, EventShapeOk, GlobalEventOk;
    var p, audit := e.payload, AuditContext(e.actor, e.role, e.requestId);
    assert WouldAppend(db, BackupNote(p.artifact, RawManifest(p.filename, p.sha256, p.bytes), audit), e, c);
  }

  lemma AcceptedCreation(db: Db, e: Event, c: Capture)
    requires e.id == |db.journal| + 1 && e.maintenanceId != "" && e.maintenanceId !in db.runs
    requires e.kind.MaintenanceCreated? && e.payload.CreatedPayload?
    requires VerifierAccepts(db, e, c) && WriterAlsoAsks(db, e, c)
    ensures exists call :: WouldAppend(db, call, e, c)
  {
    hide Appends, Check, ValidId;
    CreationIsWritten(db, e);
    var audit := AuditContext(e.actor, e.role, e.requestId);
    assert WouldAppend(db, Create(RunInput(e.maintenanceId, New, Some(e.payload.identity)), audit), e, c);
  }

  lemma AcceptedCapture(db: Db, e: Event, c: Capture)
    requires DbOk(db) && e.id == |db.journal| + 1 && e.maintenanceId != "" && e.maintenanceId in db.runs
    requires e.kind.MaintenanceCaptured? && db.runs[e.maintenanceId].capture.None? && EventShapeOk(e)
    requires VerifierAccepts(db, e, c) && WriterAlsoAsks(db, e, c)
    ensures exists call :: WouldAppend(db, call, e, c)
  {
    hide DbOk, Appends, Check, CaptureAccepted, CaptureWritable, CaptureLoads, EventShapeOk, Step;
    CaptureAllowedIsWritten(db, e, c);
    var audit := AuditContext(e.actor, e.role, e.requestId);
    assert WouldAppend(db, CaptureRun(e.maintenanceId, Some(c.document), audit), e, c);
  }

  lemma AcceptedObservation(db: Db, e: Event, c: Capture)
    requires DbOk(db) && e.id == |db.journal| + 1 && e.maintenanceId != "" && e.maintenanceId in db.runs
    requires e.kind.TargetObserved? && e.payload.ObservationPayload?
    requires VerifierAccepts(db, e, c) && WriterAlsoAsks(db, e, c)
    ensures exists call :: WouldAppend(db, call, e, c)
  {
    hide DbOk, Appends, Check, Mirror, Exercised, EventsOf, FindObservation, ObservationFits;
    var id, audit := e.maintenanceId, AuditContext(e.actor, e.role, e.requestId);
    ObservationAllowed(id, db.runs[id], Exercised(EventsOf(db.journal, id)), e, db.runs[id].capture);
    ObservationIsWritten(db, e);
    var any := VersionPrecondition(true, []);
    assert WouldAppend(db, Observe(id, e.targetId, Some(e.payload.document), any, audit), e, c);
  }

  lemma AcceptedChangeEvent(db: Db, e: Event, c: Capture)
    requires DbOk(db) && e.id == |db.journal| + 1 && e.maintenanceId != "" && e.maintenanceId in db.runs
    requires IsChangeKind(e.kind) && e.payload.TransitionPayload? && EventShapeOk(e)
    requires VerifierAccepts(db, e, c) && WriterAlsoAsks(db, e, c)
    ensures exists call :: WouldAppend(db, call, e, c)
  {
    hide DbOk, Appends, Check, Mirror, Exercised, EventsOf, EventShapeOk, Trim, CallFor;
    AllowedIsWritten(db, e);
    assert WouldAppend(db, CallFor(e), e, c);
  }

  /** What acceptance tells about the event itself. */
  lemma AcceptedKinds(db: Db, e: Event, c: Capture)
    requires DbOk(db) && VerifierAccepts(db, e, c)
    ensures EventShapeOk(e) && !e.kind.UnknownKind?
    ensures e.maintenanceId == "" <==> e.kind.BackupCreated? || e.kind.BackupDownloaded?
    ensures e.maintenanceId != "" ==> (e.maintenanceId !in db.runs <==> e.kind.MaintenanceCreated?)
    ensures e.maintenanceId != "" && e.kind.MaintenanceCaptured? ==> db.runs[e.maintenanceId].capture.None?
    ensures e.maintenanceId == "" || e.kind.MaintenanceCreated? || e.kind.MaintenanceCaptured? || e.kind.TargetObserved?
            || e.payload.TransitionPayload?
    ensures e.kind.MaintenanceCreated? ==> e.payload.CreatedPayload?
    ensures e.kind.TargetObserved? ==> e.payload.ObservationPayload?
    ensures e.maintenanceId == "" ==> e.payload.BackupPayload?
  {
    hide DbOk, Exercised, EventsOf, ParseTargets, IsAdmin, EventJustified, ValidId, CaptureOk, HistoryOk,
         StoppedBarrier,
         CompletionObjection, TargetOk, TargetCompletionAllowed, AddCaptured;
    if e.maintenanceId in db.runs {
      RunOf(db, e.maintenanceId);
    }
  }
}
