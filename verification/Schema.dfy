/** The constraints, indexes, foreign keys and triggers of internal/store/schema.sql as predicates; the proof
    that no accepted call runs into one of them; and exactly which calls a row check refuses. */
module Schema {
  import opened Lifecycle
  import opened Text
  import opened Records
  import opened Writer
  import opened Replay
  import opened Invariant
  import opened Histories
  import opened Versions
  import opened Safety

  // ---- Row checks ----

  predicate RunRowOk(id: string, version: int, identity: Json) {
    version > 0 && 1 <= SqlLength(id) <= 200 && Shallow(identity.depth)
  }

  predicate CaptureRowOk(c: Capture) { Shallow(c.document.Depth()) }

  predicate TargetRowOk(tid: string, t: Target) {
    t.version > 0 && 1 <= SqlLength(tid) <= 200 && StorableKey(t.lockKey) && Shallow(t.carried.depth)
  }

  /** A target id needs a run id, and the from and to columns are all NULL or all set, one version apart. */
  predicate EventRowOk(e: Event) {
    && Shallow(PayloadDepth(e.payload))
    && (e.targetId == "" || e.maintenanceId != "")
    && ((e.fromState.NoState? && e.toState.NoState? && e.fromVersion == 0 && e.toVersion == 0)
        || (!e.fromState.NoState? && !e.toState.NoState? && e.fromVersion > 0 && e.toVersion == e.fromVersion + 1))
  }

  predicate ForeignKeysOk(db: Db, e: Event) {
    && (e.maintenanceId != "" ==> e.maintenanceId in db.runs)
    && (e.maintenanceId != "" && e.targetId != "" ==> e.targetId in db.runs[e.maintenanceId].targets)
  }

  // ---- Unique indexes ----

  /** Clashes on idx_events_aggregate_version or idx_events_observation_request. */
  predicate Clash(a: Event, b: Event) {
    && a.maintenanceId != "" && a.maintenanceId == b.maintenanceId
    && ((a.aggregateVersion != 0 && a.aggregateVersion == b.aggregateVersion)
        || (a.kind.TargetObserved? && b.kind.TargetObserved? && a.targetId == b.targetId && a.requestId == b.requestId))
  }

  predicate EventInsertable(db: Db, e: Event) {
    EventRowOk(e) && ForeignKeysOk(db, e) && forall i :: 0 <= i < |db.journal| ==> !Clash(db.journal[i], e)
  }

  // ---- Triggers ----

  /** targets_lock_exclusive together with the primary key and the row checks. */
  predicate TargetInsertable(db: Db, id: string, tid: string, t: Target) {
    && id in db.runs && tid !in db.runs[id].targets && TargetRowOk(tid, t)
    && !exists other :: other in db.runs && other != id && HoldsLock(db.runs[other], t.lockKey)
  }

  /** targets_identity_immutable. */
  predicate TargetUpdatable(tid: string, t: Target, t': Target) {
    TargetRowOk(tid, t') && t'.lockKey == t.lockKey && t'.original == t.original && t'.carried == t.carried
  }

  // ---- The whole database ----

  ghost predicate SchemaOk(db: Db) {
    && (forall id :: id in db.runs ==> RunRowOk(id, db.runs[id].version, db.runs[id].identity))
    && (forall id :: id in db.runs && db.runs[id].capture.Some? ==> CaptureRowOk(db.runs[id].capture.value))
    && (forall id, t :: id in db.runs && t in db.runs[id].targets ==> TargetRowOk(t, db.runs[id].targets[t]))
    && (forall i :: 0 <= i < |db.journal| ==> EventRowOk(db.journal[i]) && ForeignKeysOk(db, db.journal[i]))
    && (forall i, j :: 0 <= i < j < |db.journal| ==> !Clash(db.journal[i], db.journal[j]))
  }

  lemma RecordFits(id: string, rec: RunRecord)
    requires RecordOk(id, rec)
    ensures RunRowOk(id, rec.version, rec.identity) && (rec.capture.Some? ==> CaptureRowOk(rec.capture.value))
    ensures forall t :: t in rec.targets ==> TargetRowOk(t, rec.targets[t])
  {
    hide ParseTargets, TargetsOfCapture, StoppedBarrier, CompletionObjection, SqlLength, StorableKey, ValidId;
    IdLength(id);
    forall t | t in rec.targets
      ensures TargetRowOk(t, rec.targets[t])
    {
      assert TargetOk(rec.targets[t]);
      IdLength(t);
    }
  }

  /** A journalled version never exceeds its run's version. */
  lemma {:induction false} BearingMember(events: seq<Event>, e: Event)
    requires e in events && e.aggregateVersion != 0
    ensures e.aggregateVersion in Bearing(events)
  {
    var n := |events| - 1;
    assert events == events[..n] + [events[n]];
    if e != events[n] {
      BearingMember(events[..n], e);
    }
  }

  lemma AggregateBound(db: Db, e: Event)
    requires DbOk(db) && e in db.journal && e.maintenanceId in db.runs
    ensures e.aggregateVersion <= db.runs[e.maintenanceId].version
  {
    hide DbOk, RecordOk, EventsOf, ReplayAll, Bearing, TargetsCounted;
    var id := e.maintenanceId;
    var events := EventsOf(db.journal, id);
    RunOf(db, id);
    EventsOfMember(db.journal, id, e);
    Conservation(events, db.runs[id].capture);
    if e.aggregateVersion != 0 {
      BearingMember(events, e);
    } else {
      RecordVersionPositive(id, db.runs[id]);
    }
  }

  lemma RecordVersionPositive(id: string, rec: RunRecord)
    requires RecordOk(id, rec)
    ensures rec.version >= 1
  {
    hide CaptureOk, ValidId;
  }

  /** What the decision says of the event it writes. */
  lemma DecidedEvent(db: Db, call: Call)
    requires DbOk(db) && Accepted(db, call) && Decide(db, call).value.Recorded?
    ensures var w := Decide(db, call).value;
            && EventRowOk(w.event)
            && (w.event.aggregateVersion != 0 ==>
                  && w.event.aggregateVersion == w.record.version
                  && (w.id in db.runs ==> db.runs[w.id].version < w.record.version))
            && (w.event.kind.TargetObserved? ==>
                  FindObservation(EventsOf(db.journal, w.id), w.event.targetId, w.event.requestId).None?)
  {
    hide DbOk, ParseTargets, Trim, TransitionObjection, FindObservation, LockHeld, InsertedTargets, EventsOf, Exercised,
         CaptureOk, StoppedBarrier, CompletionObjection, HistoryOk, ValidId, ValidJustification, IsAdmin, StorableKey,
         KeysStorable;
    var w := Decide(db, call).value;
    ValidIdNotEmpty(w.id);
    if w.id in db.runs {
      RunOf(db, w.id);
      if call.TransitionTarget? {
        assert TargetOk(db.runs[w.id].targets[call.tid]);
      }
    }
  }

  /** What the decision leaves as it was. */
  lemma DecidedIdentity(db: Db, call: Call)
    requires DbOk(db) && Accepted(db, call) && Decide(db, call).value.Recorded? && Decide(db, call).value.id in db.runs
    ensures var w := Decide(db, call).value;
            && w.record.identity == db.runs[w.id].identity
            && forall t :: t in db.runs[w.id].targets ==>
                 && t in w.record.targets
                 && w.record.targets[t].lockKey == db.runs[w.id].targets[t].lockKey
                 && w.record.targets[t].original == db.runs[w.id].targets[t].original
                 && w.record.targets[t].carried == db.runs[w.id].targets[t].carried
  {
    hide DbOk, ParseTargets, Trim, TransitionObjection, TargetObjection, FindObservation, LockHeld, InsertedTargets,
         EventsOf, Exercised, CaptureOk, StoppedBarrier, CompletionObjection, HistoryOk, ValidId, TargetOk,
         KeysStorable;
    RunOf(db, Decide(db, call).value.id);
  }

  /** The event a call writes fits the tables as the call leaves them. */
  lemma EventFits(db: Db, call: Call)
    requires DbOk(db) && Accepted(db, call) && Decide(db, call).value.Recorded?
    ensures var w := Decide(db, call).value;
            EventInsertable(Db(db.runs[w.id := w.record], db.journal), w.event)
  {
    hide Decide, DbOk, EventsOf, RecordOk, HistoryOk, FindObservation, HoldsLock, LockHeld;
    var w := Decide(db, call).value;
    DecidedEvent(db, call);
    DecidedEffectOk(db, call);
    EventShapeTargets(w.event);
    forall i | 0 <= i < |db.journal|
      ensures !Clash(db.journal[i], w.event)
    {
      var e := db.journal[i];
      assert e in db.journal;
      if e.maintenanceId == w.id {
        RecordIdNotEmpty(w.id, w.record);
        JournalNamesRuns(db, i);
        AggregateBound(db, e);
        if w.event.kind.TargetObserved? {
          FindObservationFinds(EventsOf(db.journal, w.id), w.event.targetId, w.event.requestId);
          EventsOfMember(db.journal, w.id, e);
        }
      }
    }
  }

  lemma EventShapeTargets(e: Event)
    requires EventShapeOk(e)
    ensures e.targetId != "" ==> e.maintenanceId != ""
  {
  }

  lemma JournalNamesRuns(db: Db, i: int)
    requires DbOk(db) && 0 <= i < |db.journal|
    ensures db.journal[i].maintenanceId != "" ==> db.journal[i].maintenanceId in db.runs
    ensures EventInPlace(db, db.journal[i])
  {
    hide LocksExclusive, RunOk, EventShapeOk, GlobalEventOk;
    assert EventInPlace(db, db.journal[i]);
  }

  /** Accepted calls never trip the schema: every row they leave satisfies the checks, no identity
      column changes, a capture's targets pass the lock trigger, the event satisfies the checks, the
      foreign keys and both unique indexes. */
  lemma AcceptedCallsFitSchema(db: Db, call: Call)
    requires DbOk(db) && Accepted(db, call) && Decide(db, call).value.Recorded?
    ensures var w := Decide(db, call).value;
            && RunRowOk(w.id, w.record.version, w.record.identity)
            && (w.record.capture.Some? ==> CaptureRowOk(w.record.capture.value))
            && (w.id in db.runs ==> w.record.identity == db.runs[w.id].identity)
            && (forall t :: t in w.record.targets ==>
                  if w.id in db.runs && t in db.runs[w.id].targets
                  then TargetUpdatable(t, db.runs[w.id].targets[t], w.record.targets[t])
                  else w.id in db.runs && TargetInsertable(db, w.id, t, w.record.targets[t]))
            && EventInsertable(Db(db.runs[w.id := w.record], db.journal), w.event)
  {
    hide Decide, DbOk, RecordOk, HistoryOk, EventInsertable, EventRowOk, EventShapeOk, EventsOf, FindObservation;
    var w := Decide(db, call).value;
    if w.id in db.runs {
      DecidedIdentity(db, call);
    }
    DecidedEffectOk(db, call);
    EventFits(db, call);
    RecordFits(w.id, w.record);
    forall t | t in w.record.targets && !(w.id in db.runs && t in db.runs[w.id].targets)
      ensures w.id in db.runs && TargetInsertable(db, w.id, t, w.record.targets[t])
    {
      NewTargetOnlyByCapture(db, call, t);
    }
  }

  /** Targets appear only by a capture, with keys nobody holds. */
  lemma NewTargetOnlyByCapture(db: Db, call: Call, t: string)
    requires DbOk(db) && Accepted(db, call) && Decide(db, call).value.Recorded?
    requires var w := Decide(db, call).value;
             t in w.record.targets && !(w.id in db.runs && t in db.runs[w.id].targets)
    ensures var w := Decide(db, call).value;
            w.id in db.runs && !LockHeld(db, w.record.targets[t].lockKey)
  {
    hide ParseTargets, Trim, TransitionObjection, TargetObjection, FindObservation, InsertedTargets, EventsOf,
         Exercised, DbOk, ValidId, LockHeld;
    var w := Decide(db, call).value;
    if call.CaptureRun? {
      InsertedAreOfCapture(ParseTargets(call.document.value).value);
    }
  }

  lemma RecordKeepsSchema(db: Db, id: string, rec: RunRecord, e: Event)
    requires SchemaOk(db) && EventInsertable(Db(db.runs[id := rec], db.journal), e)
    requires RunRowOk(id, rec.version, rec.identity) && (rec.capture.Some? ==> CaptureRowOk(rec.capture.value))
    requires forall t :: t in rec.targets ==> TargetRowOk(t, rec.targets[t])
    requires id in db.runs ==> db.runs[id].targets.Keys <= rec.targets.Keys
    ensures SchemaOk(Db(db.runs[id := rec], db.journal + [e]))
  {
    hide EventRowOk, TargetRowOk, RunRowOk, Clash;
    var db' := Db(db.runs[id := rec], db.journal + [e]);
    assert db'.journal[|db.journal|] == e;
    forall i | 0 <= i < |db'.journal|
      ensures EventRowOk(db'.journal[i]) && ForeignKeysOk(db', db'.journal[i])
    {
      if i < |db.journal| {
        assert EventRowOk(db.journal[i]) && ForeignKeysOk(db, db.journal[i]);
      }
    }
  }

  lemma NoteKeepsSchema(db: Db, e: Event)
    requires SchemaOk(db) && EventShapeOk(e) && GlobalEventOk(e) && e.maintenanceId == "" && e.targetId == ""
    ensures SchemaOk(Db(db.runs, db.journal + [e]))
  {
    NoteFits(e);
    NoteClashesNot(e);
    hide EventRowOk, TargetRowOk, RunRowOk, Clash, EventShapeOk;
    var db' := Db(db.runs, db.journal + [e]);
    assert db'.journal[|db.journal|] == e;
    forall i | 0 <= i < |db'.journal|
      ensures EventRowOk(db'.journal[i]) && ForeignKeysOk(db', db'.journal[i])
    {
      if i < |db.journal| {
        assert EventRowOk(db.journal[i]) && ForeignKeysOk(db, db.journal[i]);
      }
    }
  }

  lemma SchemaKept(db: Db, call: Call)
    requires DbOk(db) && SchemaOk(db)
    ensures SchemaOk(Step(db, call))
  {
    hide Decide, DbOk, SchemaOk, RecordOk, HistoryOk, EventInsertable, EventShapeOk, EventsOf, TargetRowOk, RunRowOk,
         HoldsLock, LockHeld, GlobalEventOk;
    if Accepted(db, call) {
      var w := Decide(db, call).value;
      DecidedEffectOk(db, call);
      if w.Recorded? {
        RecordFits(w.id, w.record);
        EventFits(db, call);
        RecordKeepsSchema(db, w.id, w.record, w.event);
      } else if w.Noted? {
        NoteKeepsSchema(db, w.note);
      }
    }
  }

  lemma NoteFits(e: Event)
    requires EventShapeOk(e) && GlobalEventOk(e) && e.maintenanceId == ""
    ensures EventRowOk(e)
  {
  }

  lemma NoteClashesNot(e: Event)
    requires e.maintenanceId == ""
    ensures forall a :: !Clash(a, e)
  {
  }

  /** Every reachable database satisfies the whole schema; in particular at most one observation per
      target and request id, and at most one event per run version. */
  lemma {:induction false} SchemaHolds(calls: seq<Call>)
    ensures SchemaOk(Exec(EMPTY_DB, calls))
    decreases |calls|
  {
    if calls == [] {
    } else {
      hide SchemaOk, Step, DbOk;
      var n := |calls| - 1;
      SchemaHolds(calls[..n]);
      Reachable(calls[..n]);
      SchemaKept(Exec(EMPTY_DB, calls[..n]), calls[n]);
    }
  }

  /** What the schema comes to, column by column, in every reachable database: the rows of the runs and targets ... */
  lemma RowsFit(calls: seq<Call>, id: string)
    requires id in Exec(EMPTY_DB, calls).runs
    ensures var rec := Exec(EMPTY_DB, calls).runs[id];
            && rec.version > 0 && 1 <= SqlLength(id) <= 200 && rec.identity.depth <= 1000
            && (rec.capture.Some? ==> rec.capture.value.document.Depth() <= 1000)
            && forall t :: t in rec.targets ==>
                 && rec.targets[t].version > 0 && 1 <= SqlLength(t) <= 200
                 && 1 <= SqlLength(rec.targets[t].lockKey) <= 512 && rec.targets[t].carried.depth <= 1000
  {
    SchemaHolds(calls);
    hide Exec, SqlLength, EventRowOk, ForeignKeysOk, Clash;
    var db := Exec(EMPTY_DB, calls);
    forall t | t in db.runs[id].targets
      ensures TargetRowOk(t, db.runs[id].targets[t])
    {
    }
  }

  /** ... the rows of the journal ... */
  lemma EventsFit(calls: seq<Call>, i: int)
    requires 0 <= i < |Exec(EMPTY_DB, calls).journal|
    ensures var db := Exec(EMPTY_DB, calls);
            var e := db.journal[i];
            && PayloadDepth(e.payload) <= 1000
            && (e.maintenanceId != "" ==> e.maintenanceId in db.runs)
            && (e.targetId != "" ==> e.maintenanceId in db.runs && e.targetId in db.runs[e.maintenanceId].targets)
            && (e.fromState == NoState <==> e.toState == NoState) && (e.fromState == NoState <==> e.fromVersion == 0)
            && (e.fromState == NoState ==> e.toVersion == 0)
            && (e.fromState != NoState ==> e.fromVersion > 0 && e.toVersion == e.fromVersion + 1)
  {
    SchemaHolds(calls);
    hide Exec, Clash, TargetRowOk, RunRowOk;
    var db := Exec(EMPTY_DB, calls);
    assert EventRowOk(db.journal[i]) && ForeignKeysOk(db, db.journal[i]);
  }

  /** ... and the two unique indexes: one event for each version of a run, one observation for each request. */
  lemma EventsUnique(calls: seq<Call>, i: int, j: int)
    requires 0 <= i < j < |Exec(EMPTY_DB, calls).journal|
    requires var a, b := Exec(EMPTY_DB, calls).journal[i], Exec(EMPTY_DB, calls).journal[j];
             a.maintenanceId != "" && a.maintenanceId == b.maintenanceId
    ensures var a, b := Exec(EMPTY_DB, calls).journal[i], Exec(EMPTY_DB, calls).journal[j];
            && (a.aggregateVersion != 0 ==> a.aggregateVersion != b.aggregateVersion)
            && (a.kind == TargetObserved && b.kind == TargetObserved && a.targetId == b.targetId ==>
                  a.requestId != b.requestId)
  {
    SchemaHolds(calls);
    hide Exec, EventRowOk, ForeignKeysOk, TargetRowOk, RunRowOk;
    var db := Exec(EMPTY_DB, calls);
    assert !Clash(db.journal[i], db.journal[j]);
  }

  // ---- The call that a row check stops ----

  predicate BeginsWithNul(ts: seq<CaptureTarget>) {
    exists i :: 0 <= i < |ts| && ts[i].lockKey != "" && ts[i].lockKey[0] == '\0'
  }

  lemma StorableUnlessNul(d: Document)
    requires ParseTargets(d).Some?
    ensures KeysStorable(ParseTargets(d).value) <==> !BeginsWithNul(ParseTargets(d).value)
  {
    hide ParseTargets, Utf8Length, StorableKey, ValidId, ValidOriginalState;
    var ts := ParseTargets(d).value;
    forall i | 0 <= i < |ts|
      ensures ts[i].lockKey != "" && (StorableKey(ts[i].lockKey) <==> ts[i].lockKey[0] != '\0')
    {
      StorableExactly(ts[i].lockKey);
    }
  }

  /** The same request with the empty object for the JSON it carries. */
  function Plain(call: Call): Call {
    match call
    case Create(input, audit) =>
      if input.identity.Some? then Create(input.(identity := Some(EMPTY_OBJECT)), audit) else call
    case TransitionRun(id, change, pre, audit) =>
      if change.detail.Some? then TransitionRun(id, change.(detail := Some(EMPTY_OBJECT)), pre, audit) else call
    case TransitionTarget(id, tid, change, pre, audit) =>
      if change.detail.Some? then TransitionTarget(id, tid, change.(detail := Some(EMPTY_OBJECT)), pre, audit) else call
    case Observe(id, tid, payload, pre, audit) =>
      if payload.Some? then Observe(id, tid, Some(EMPTY_OBJECT), pre, audit) else call
    case _ => call
  }

  predicate Writes(db: Db, call: Call) { Accepted(db, call) && Decide(db, call).value.Recorded? }

  /** A capture that every check of the service lets through. */
  predicate CapturePasses(db: Db, id: string, d: Document) {
    && ValidId(id) && id in db.runs && db.runs[id].capture.None? && db.runs[id].state.New? && ParseTargets(d).Some?
    && !exists i :: 0 <= i < |ParseTargets(d).value| && LockHeld(db, ParseTargets(d).value[i].lockKey)
  }

  /** Where the service lets something through that its own tables refuse. The tables read a key only up to
      U+0000 and JSON only to depth 1000; the service measures keys in bytes and reads JSON to depth 10000.
      A call ends in an internal error exactly in these cases: a capture that passes every check, if its
      document is deeper than 1000 or one of its trimmed keys begins with U+0000; a creation, if the
      metadata is deeper than 1000, or just 1000 so that the event that encloses it is deeper; a change of
      a run or a target that would be written with a plain detail, if its detail is at least 1000 and less
      than 10000 deep; and an observation that would be written if it were plain, if it is deeper than 1000. */
  lemma InternalErrorExactly(db: Db, call: Call)
    ensures Decide(db, call) == Err(Internal) <==>
              match call
              case Create(input, _) =>
                && input.identity.Some?
                && (|| (input.identity.value.depth > SQL_DEPTH && Writes(EMPTY_DB, Plain(call)))
                    || (input.identity.value.depth == SQL_DEPTH && Writes(db, Plain(call))))
              case CaptureRun(id, document, _) =>
                && document.Some? && CapturePasses(db, id, document.value)
                && (document.value.Depth() > SQL_DEPTH || BeginsWithNul(ParseTargets(document.value).value))
              case TransitionRun(_, change, _, _) =>
                change.detail.Some? && SQL_DEPTH <= change.detail.value.depth < GO_DEPTH && Writes(db, Plain(call))
              case TransitionTarget(_, _, change, _, _) =>
                change.detail.Some? && SQL_DEPTH <= change.detail.value.depth < GO_DEPTH && Writes(db, Plain(call))
              case Observe(_, _, payload, _, _) =>
                payload.Some? && payload.value.depth > SQL_DEPTH && Writes(db, Plain(call))
              case BackupNote(_, _, _) => false
  {
    hide ParseTargets, KeysStorable, BeginsWithNul, ValidId, LockHeld, Trim, Exercised, EventsOf, FindObservation,
         InsertedTargets, ValidJustification, IsAdmin, StoppedBarrier, CompletionObjection;
    match call
    case Create(_, _) =>
    case CaptureRun(_, document, _) =>
      if document.Some? && ParseTargets(document.value).Some? {
        StorableUnlessNul(document.value);
      }
    case TransitionRun(id, change, pre, audit) =>
      TransitionRefused(db, id, change, pre, audit);
    case TransitionTarget(id, tid, change, pre, audit) =>
      if change.detail.Some? && id in db.runs && tid in db.runs[id].targets {
        PlainMove(db.runs[id].state, db.runs[id].targets[tid], change, pre, audit);
      }
      hide TargetObjection;
    case Observe(_, _, _, _, _) =>
    case BackupNote(_, _, _) =>
  }

  /** No rule looks at the detail. */
  lemma PlainTransition(rec: RunRecord, exercised: bool, change: StateChange, pre: VersionPrecondition,
                        audit: AuditContext)
    ensures TransitionObjection(rec, exercised, change.(detail := Some(EMPTY_OBJECT)), pre, audit)
         == TransitionObjection(rec, exercised, change, pre, audit)
  {
    hide ValidJustification, IsAdmin, StoppedBarrier, CompletionObjection;
  }

  lemma TransitionRefused(db: Db, id: string, change: StateChange, pre: VersionPrecondition, audit: AuditContext)
    ensures Decide(db, TransitionRun(id, change, pre, audit)) == Err(Internal) <==>
              && change.detail.Some? && SQL_DEPTH <= change.detail.value.depth < GO_DEPTH
              && Writes(db, Plain(TransitionRun(id, change, pre, audit)))
  {
    hide ValidId, Trim, Exercised, EventsOf, TransitionObjection, Transitioned;
    if id in db.runs {
      var rec, exercised := db.runs[id], Exercised(EventsOf(db.journal, id));
      PlainTransition(rec, exercised, change, pre, audit);
      ObjectionIsNoFault(rec, exercised, change, pre, audit);
    }
  }

  /** The service itself never answers an internal error. */
  lemma ObjectionIsNoFault(rec: RunRecord, exercised: bool, change: StateChange, pre: VersionPrecondition,
                           audit: AuditContext)
    ensures TransitionObjection(rec, exercised, change, pre, audit) != Some(Internal)
  {
    hide ValidJustification, IsAdmin, StoppedBarrier;
  }

  lemma PlainMove(phase: StateName, target: Target, change: StateChange, pre: VersionPrecondition, audit: AuditContext)
    ensures TargetObjection(phase, target, change.(detail := Some(EMPTY_OBJECT)), pre, audit)
         == TargetObjection(phase, target, change, pre, audit)
  {
    hide ValidJustification, IsAdmin;
  }

  /** Such requests, and the deepest that passes: failing a new run with a detail of depth 999 is accepted, of
      1000 to 9999 an internal error, and of 10000 invalid. */
  lemma DeepDetailRefused(text: string, depth: nat, audit: AuditContext)
    requires depth <= 10000
    ensures var db := Step(EMPTY_DB, Create(RunInput("m", New, Some(EMPTY_OBJECT)), audit));
            var change := StateChange(Failed, "", Some(RawJson(text, depth)));
            var call := TransitionRun("m", change, VersionPrecondition(true, []), audit);
            && (depth <= 999 ==> Accepted(db, call))
            && (1000 <= depth <= 9999 ==> Decide(db, call) == Err(Internal))
            && (depth == 10000 ==> Decide(db, call) == Err(Invalid))
  {
    hide EventsOf, Exercised, Trim;
    var db := Step(EMPTY_DB, Create(RunInput("m", New, Some(EMPTY_OBJECT)), audit));
    assert db.runs == map["m" := RunRecord(New, 1, EMPTY_OBJECT, None, map[])];
  }

  const NUL_TARGET := TargetInput("t", "\0abc", Running, Some(EMPTY_OBJECT))

  const NUL_DOCUMENT: Document := Single(NUL_TARGET)

  lemma NulKeyPasses()
    ensures Trim("\0abc") == "\0abc" && Utf8Length("\0abc") == 4
  {
    var key := "\0abc";
    assert TrimLeft(key) == key && TrimRight(key) == key;
    var three, two, one := key[..3], key[..2], key[..1];
    assert three[..2] == two && two[..1] == one && one[..0] == "";
    assert Utf8Length(one) == 1 && Utf8Length(two) == 2 && Utf8Length(three) == 3;
  }

  /** Such a document, sent for any new run while nobody holds its key: it is acceptable to the service and
      refused by the table. */
  lemma NulKeyRefused(db: Db, id: string, audit: AuditContext)
    requires ValidId(id) && id in db.runs && db.runs[id].capture.None? && db.runs[id].state.New?
    requires !LockHeld(db, "\0abc")
    ensures ParseTargets(NUL_DOCUMENT) == Some([CaptureTarget("t", "\0abc", Running, EMPTY_OBJECT)])
    ensures Decide(db, CaptureRun(id, Some(NUL_DOCUMENT), audit)) == Err(Internal)
  {
    NulKeyPasses();
    hide Trim, Utf8Length, LockHeld;
    assert ValidTargetInput(NUL_TARGET);
    var ts := [CaptureTarget("t", "\0abc", Running, EMPTY_OBJECT)];
    assert ParseTargets(NUL_DOCUMENT).value == ts;
    hide ParseTargets, BeginsWithNul, ValidId;
    NulFirst(ts);
    StorableUnlessNul(NUL_DOCUMENT);
  }

  lemma NulFirst(ts: seq<CaptureTarget>)
    requires ts != [] && ts[0].lockKey != "" && ts[0].lockKey[0] == '\0'
    ensures BeginsWithNul(ts)
  {
  }
}
