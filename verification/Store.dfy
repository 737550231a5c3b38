/** The store itself (internal/store/mutations.go, internal/store/store.go): tables updated row by row,
    each call one transaction. Every method is proved to do to the tables what `Writer.Step` does to the
    database value, and every row it writes is proved acceptable to the schema before it is written. */
module StoreTables {
  import opened Lifecycle
  import opened Text
  import opened Records
  import opened Writer
  import opened Invariant
  import opened Histories
  import opened Safety
  import opened Schema

  datatype RunRow = RunRow(state: StateName, version: int, identity: Json)

  function Joined(row: RunRow, capture: Option<Capture>, targets: map<string, Target>): RunRecord {
    RunRecord(row.state, row.version, row.identity, capture, targets)
  }

  /** `VersionPrecondition.require`. */
  method CheckVersion(pre: VersionPrecondition, version: int) returns (objection: Option<Error>)
    ensures objection == pre.Objection(version)
  {
    if !pre.any && |pre.versions| == 0 {
      return Some(PreconditionRequired);
    }
    var matches := MatchVersion(pre, version);
    if !matches {
      return Some(VersionConflict);
    }
    return None;
  }

  /** What appendEvent and the json_valid check of the journal make of a payload. Either failure ends the
      transaction and undoes the statements before it. */
  method CheckPayload(payload: Payload) returns (objection: Option<Error>)
    ensures objection.None? <==> Shallow(PayloadDepth(payload))
    ensures objection.Some? ==> objection.value == if PayloadDepth(payload) > GO_DEPTH then Invalid else Internal
  {
    if PayloadDepth(payload) > GO_DEPTH {
      return Some(Invalid);
    }
    if !Shallow(PayloadDepth(payload)) {
      return Some(Internal);
    }
    return None;
  }

  lemma TargetRowsFit(db: Db, id: string)
    requires DbOk(db) && id in db.runs
    ensures forall t :: t in db.runs[id].targets ==> TargetRowOk(t, db.runs[id].targets[t])
  {
    hide DbOk, RecordOk, HistoryOk, TargetRowOk;
    RunOf(db, id);
    RecordFits(id, db.runs[id]);
  }

  /** The lock trigger's question, asked of the tables: no other run that keeps its locks has the key. */
  predicate KeyFreeFor(runs: map<string, RunRow>, targets: map<string, map<string, Target>>, id: string, key: string) {
    forall other, t ::
      other in runs && other != id && other in targets && t in targets[other] && targets[other][t].lockKey == key ==>
        IsClosed(runs[other].state)
  }

  function Saved(captures: map<string, Capture>, id: string): Option<Capture> {
    if id in captures then Some(captures[id]) else None
  }

  /** The three tables joined on the run id. */
  function JoinTables(runs: map<string, RunRow>, captures: map<string, Capture>,
                      targets: map<string, map<string, Target>>)
    : map<string, RunRecord>
    requires runs.Keys <= targets.Keys
  {
    map id | id in runs :: Joined(runs[id], Saved(captures, id), targets[id])
  }

  /** Rewriting the rows of one run rewrites its record and no other. */
  lemma JoinUpdate(runs: map<string, RunRow>, captures: map<string, Capture>, targets: map<string, map<string, Target>>,
                   captures': map<string, Capture>, id: string, row: RunRow, ts: map<string, Target>)
    requires runs.Keys <= targets.Keys
    requires forall other :: other != id ==> Saved(captures', other) == Saved(captures, other)
    ensures JoinTables(runs[id := row], captures', targets[id := ts])
         == JoinTables(runs, captures, targets)[id := Joined(row, Saved(captures', id), ts)]
  {
  }

  class Store {
    var maintenance: map<string, RunRow>
    var captures: map<string, Capture>
    var targets: map<string, map<string, Target>>  // the rows of the targets table, by maintenance_id
    var journal: seq<Event>

    /** Every capture and target row belongs to a run. */
    ghost predicate TablesOk()
      reads this
    {
      captures.Keys <= maintenance.Keys && targets.Keys == maintenance.Keys
    }

    function Record(id: string): RunRecord
      requires TablesOk() && id in maintenance
      reads this
    {
      Joined(maintenance[id], Saved(captures, id), targets[id])
    }

    /** The tables as one value. */
    function View(): Db
      requires TablesOk()
      reads this
    {
      Db(JoinTables(maintenance, captures, targets), journal)
    }

    lemma RecordInView(id: string)
      requires TablesOk()
      ensures id in View().runs <==> id in maintenance
      ensures id in maintenance ==> View().runs[id] == Record(id)
    {
    }

    ghost predicate Valid()
      reads this
    {
      TablesOk() && DbOk(View()) && SchemaOk(View())
    }

    constructor ()
      ensures Valid() && View() == EMPTY_DB
    {
      maintenance, captures, targets, journal := map[], map[], map[], [];
      new;
      assert View() == EMPTY_DB;
      EmptyDbOk();
      SchemaHolds([]);
    }

    // ---- SQL statements: each requires what the schema demands of its row ----

    method InsertRun(id: string, row: RunRow)
      requires TablesOk() && id !in maintenance && RunRowOk(id, row.version, row.identity)
      modifies this`maintenance, this`targets
      ensures TablesOk() && maintenance == old(maintenance)[id := row] && targets == old(targets)[id := map[]]
    {
      maintenance := maintenance[id := row];
      targets := targets[id := map[]];
    }

    method InsertCapture(id: string, capture: Capture)
      requires TablesOk() && id in maintenance && id !in captures && CaptureRowOk(capture)
      modifies this`captures
      ensures TablesOk() && captures == old(captures)[id := capture]
    {
      captures := captures[id := capture];
    }

    method InsertTarget(id: string, tid: string, row: Target)
      requires TablesOk() && id in targets && tid !in targets[id] && TargetRowOk(tid, row)
      requires KeyFreeFor(maintenance, targets, id, row.lockKey)
      modifies this`targets
      ensures TablesOk() && id in old(targets) && targets == old(targets)[id := old(targets)[id][tid := row]]
    {
      targets := targets[id := targets[id][tid := row]];
    }

    /** UPDATE maintenance ... WHERE id=? AND version=?; reports the number of rows it hit. */
    method UpdateRun(id: string, expected: int, state: StateName, version: int) returns (affected: nat)
      requires TablesOk() && (id in maintenance ==> RunRowOk(id, version, maintenance[id].identity))
      modifies this`maintenance
      ensures TablesOk()
      ensures affected == if id in old(maintenance) && old(maintenance)[id].version == expected then 1 else 0
      ensures maintenance == if affected == 0 then old(maintenance) else
                               old(maintenance)[id := old(maintenance)[id].(state := state, version := version)]
    {
      if id !in maintenance || maintenance[id].version != expected {
        return 0;
      }
      maintenance := maintenance[id := maintenance[id].(state := state, version := version)];
      return 1;
    }

    /** UPDATE targets ... WHERE maintenance_id=? AND id=? AND version=?. */
    method UpdateTarget(id: string, tid: string, expected: int, row: Target) returns (affected: nat)
      requires TablesOk()
      requires id in maintenance && tid in targets[id] ==> TargetUpdatable(tid, targets[id][tid], row)
      modifies this`targets
      ensures TablesOk()
      ensures affected ==
              if id in old(maintenance) && tid in old(targets)[id] && old(targets)[id][tid].version == expected then 1
              else 0
      ensures targets == if affected == 0 then old(targets) else old(targets)[id := old(targets)[id][tid := row]]
    {
      if id !in maintenance || tid !in targets[id] || targets[id][tid].version != expected {
        return 0;
      }
      targets := targets[id := targets[id][tid := row]];
      return 1;
    }

    /** UPDATE targets SET version=version+1 WHERE maintenance_id=?. */
    method BumpVersions(id: string)
      requires TablesOk() && id in maintenance
      requires forall t :: t in targets[id] ==> TargetRowOk(t, targets[id][t])
      modifies this`targets
      ensures TablesOk() && targets == old(targets)[id := BumpTargets(old(targets)[id])]
    {
      targets := targets[id := BumpTargets(targets[id])];
    }

    method AppendEvent(e: Event)
      requires TablesOk() && EventInsertable(View(), e)
      modifies this`journal
      ensures TablesOk() && View() == Db(old(View()).runs, old(journal) + [e])
    {
      journal := journal + [e];
    }

    // ---- Calls ----

    method CreateMaintenance(input: RunInput, audit: AuditContext) returns (r: Outcome<Effect>)
      requires Valid()
      modifies this
      ensures Valid()
      ensures r == Decide(old(View()), Create(input, audit)) && View() == Step(old(View()), Create(input, audit))
    {
      hide DbOk, SchemaOk, EventInsertable;
      ghost var before, call := View(), Create(input, audit);
      StepKeepsDb(before, call);
      SchemaKept(before, call);
      var state := if input.state.NoState? then New else input.state;
      if !ValidId(input.id) || !state.New? || input.identity.None? {
        return Err(Invalid);
      }
      // The row checks of an INSERT come before its uniqueness; a failed statement ends the transaction.
      if !Shallow(input.identity.value.depth) {
        return Err(Internal);
      }
      if input.id in maintenance {
        return Err(Conflict(MaintenanceIdExists));
      }
      if !Shallow(PayloadDepth(CreatedPayload(input.id, New, 1, input.identity.value))) {
        return Err(Internal);
      }
      AcceptedCallsFitSchema(before, call);
      InsertRun(input.id, RunRow(New, 1, input.identity.value));
      JoinUpdate(old(maintenance), captures, old(targets), captures, input.id, RunRow(New, 1, input.identity.value),
          map[]);
      var e := RunEvent(|journal| + 1, MaintenanceCreated, input.id, audit, NoState, NoState, 0, 0, 1,
                        CreatedPayload(input.id, New, 1, input.identity.value));
      AppendEvent(e);
      RecordInView(input.id);
      return Ok(Recorded(input.id, Record(input.id), e));
    }

    method CaptureMaintenance(id: string, document: Option<Document>, audit: AuditContext) returns (r: Outcome<Effect>)
      requires Valid()
      modifies this
      ensures Valid()
      ensures r == Decide(old(View()), CaptureRun(id, document, audit))
              && View() == Step(old(View()), CaptureRun(id, document, audit))
    {
      hide DbOk, SchemaOk, EventInsertable, ParseTargets, ValidId, LockHeld, TargetInsertable;
      ghost var before, call := View(), CaptureRun(id, document, audit);
      StepKeepsDb(before, call);
      SchemaKept(before, call);
      if !ValidId(id) || document.None? {
        return Err(Invalid);
      }
      var parsed := ParseCaptureTargets(document.value);
      if parsed.None? {
        return Err(Invalid);
      }
      var ts := parsed.value;
      var capture := Capture(document.value, Sha256(document.value));
      RecordInView(id);
      if id !in maintenance {
        return Err(NotFound);
      }
      var m := maintenance[id];
      if id in captures {
        if captures[id] == capture {
          return Ok(Unchanged);
        }
        return Err(Conflict(ImmutableCaptureMismatch));
      }
      if !m.state.New? {
        return Err(Conflict(CaptureRequiresNewMaintenance));
      }
      for i := 0 to |ts|
        invariant unchanged(this)
        invariant forall k :: 0 <= k < i ==> !LockHeld(before, ts[k].lockKey)
      {
        var held := LockIsHeld(ts[i].lockKey);
        if held {
          return Err(Conflict(LockInUse));
        }
      }
      if !Shallow(document.value.Depth()) {
        return Err(Internal);
      }
      // An INSERT that fails its row check aborts the transaction, and with it the rows written so far.
      for i := 0 to |ts|
        invariant unchanged(this)
        invariant forall k :: 0 <= k < i ==> StorableKey(ts[k].lockKey)
      {
        if !StorableKey(ts[i].lockKey) {
          return Err(Internal);
        }
      }
      r := WriteCapture(id, capture, ts, audit);
    }

    /** The writes of an accepted capture. */
    method WriteCapture(id: string, capture: Capture, ts: seq<CaptureTarget>, audit: AuditContext)
        returns (r: Outcome<Effect>)
      requires Valid() && id in maintenance && ParseTargets(capture.document) == Some(ts)
      requires capture.digest == Sha256(capture.document)
      requires Decide(View(), CaptureRun(id, Some(capture.document), audit))
            == Ok(Recorded(id, CapturedRecord(Record(id), capture, ts),
                CaptureEvent(|journal| + 1, id, Record(id), capture, |ts|, audit)))
      requires id !in captures
      modifies this
      ensures TablesOk()
      ensures r == Decide(old(View()), CaptureRun(id, Some(capture.document), audit))
      ensures View() == Step(old(View()), CaptureRun(id, Some(capture.document), audit))
    {
      hide DbOk, SchemaOk, EventInsertable, ParseTargets, LockHeld, TargetInsertable, Decide, KeyFreeFor, TargetRowOk,
           InsertedTargets;
      ghost var before, call := View(), CaptureRun(id, Some(capture.document), audit);
      var m := maintenance[id];
      RecordInView(id);
      AcceptedCallsFitSchema(before, call);
      NoTargetsBeforeCapture(before, id);
      CapturedTargetsInsertable(before, id, capture.document, audit);
      forall i | 0 <= i < |ts|
        ensures TargetRowOk(ts[i].id, InsertedTarget(ts[i])) && KeyFreeFor(maintenance, targets, id, ts[i].lockKey)
      {
        InsertableInTables(id, ts[i].id, InsertedTarget(ts[i]));
      }
      SaveCapture(id, capture, ts);
      var e := RunEvent(|journal| + 1, MaintenanceCaptured, id, audit, New, Captured, m.version, m.version + 1,
                        m.version + 1, CapturePayload(capture.digest, |ts|));
      AppendEvent(e);
      RecordInView(id);
      return Ok(Recorded(id, Record(id), e));
    }

    /** The capture row, the target rows and the run row of an accepted capture; the guarded update of the
        run hits its row. */
    method SaveCapture(id: string, capture: Capture, ts: seq<CaptureTarget>)
      requires TablesOk() && id in maintenance && id !in captures && targets[id] == map[] && DistinctIds(ts)
      requires CaptureRowOk(capture)
      requires RunRowOk(id, maintenance[id].version + 1, maintenance[id].identity)
      requires forall i :: 0 <= i < |ts| ==>
                 TargetRowOk(ts[i].id, InsertedTarget(ts[i])) && KeyFreeFor(maintenance, targets, id, ts[i].lockKey)
      modifies this`maintenance, this`captures, this`targets
      ensures TablesOk()
      ensures View() == Db(old(View()).runs[id := CapturedRecord(old(Record(id)), capture, ts)], old(journal))
    {
      hide KeyFreeFor, TargetRowOk, InsertedTargets, JoinTables;
      var version := maintenance[id].version;
      InsertCapture(id, capture);
      InsertTargets(id, ts);
      var affected := UpdateRun(id, version, Captured, version + 1);
      assert affected == 1;
      JoinUpdate(old(maintenance), old(captures), old(targets), captures, id, maintenance[id], InsertedTargets(ts));
    }

    lemma InsertableInTables(id: string, tid: string, t: Target)
      requires TablesOk() && TargetInsertable(View(), id, tid, t)
      ensures TargetRowOk(tid, t) && KeyFreeFor(maintenance, targets, id, t.lockKey)
    {
      hide TargetRowOk;
      forall other, k | other in maintenance && other != id && other in targets && k in targets[other]
          && targets[other][k].lockKey == t.lockKey
        ensures IsClosed(maintenance[other].state)
      {
        assert other in View().runs && View().runs[other] == Record(other);
        assert !HoldsLock(View().runs[other], t.lockKey);
      }
    }

    // ---- Queries: each walks the rows ----

    method RunHoldsKey(id: string, key: string) returns (holds: bool)
      requires TablesOk() && id in maintenance
      ensures holds == HoldsLock(Record(id), key)
    {
      if IsClosed(maintenance[id].state) {
        return false;
      }
      var rows := targets[id];
      var remaining := rows.Keys;
      while remaining != {}
        invariant remaining <= rows.Keys
        invariant forall t :: t in rows && t !in remaining ==> rows[t].lockKey != key
        decreases |remaining|
      {
        var t :| t in remaining;
        if rows[t].lockKey == key {
          return true;
        }
        remaining := remaining - {t};
      }
      return false;
    }

    /** The lock query of a capture: some run that keeps its locks has a target with the key. */
    method LockIsHeld(key: string) returns (held: bool)
      requires TablesOk()
      ensures held == LockHeld(View(), key)
    {
      hide HoldsLock;
      var remaining := maintenance.Keys;
      while remaining != {}
        invariant remaining <= maintenance.Keys
        invariant forall id :: id in maintenance && id !in remaining ==> !HoldsLock(Record(id), key)
        decreases |remaining|
      {
        var id :| id in remaining;
        var holds := RunHoldsKey(id, key);
        if holds {
          RecordInView(id);
          return true;
        }
        remaining := remaining - {id};
      }
      forall id | id in View().runs
        ensures !HoldsLock(View().runs[id], key)
      {
        RecordInView(id);
      }
      return false;
    }

    /** The count behind the rule for cancelling: the run's normal target transitions. */
    method CountTransitions(id: string) returns (n: nat)
      ensures n == 0 <==> !Exercised(EventsOf(journal, id))
    {
      hide Exercised, EventsOf;
      n := 0;
      NoTransitions(id);
      assert journal[..0] == [];
      for i := 0 to |journal|
        invariant n == 0 <==> !Exercised(EventsOf(journal[..i], id))
      {
        assert journal[..i + 1] == journal[..i] + [journal[i]];
        EventsOfAppend(journal[..i], journal[i], id);
        ExercisedAppend(EventsOf(journal[..i], id), journal[i]);
        assert EventsOf(journal[..i], id) + [] == EventsOf(journal[..i], id);
        if journal[i].maintenanceId == id && journal[i].kind.TargetTransitioned? {
          n := n + 1;
        }
      }
      assert journal[..|journal|] == journal;
    }

    /** validateStoppedBarrier: count the targets that are not behind the barrier. */
    method CountUnresolved(id: string) returns (n: nat)
      requires TablesOk() && id in maintenance
      ensures n == 0 <==> StoppedBarrier(targets[id])
    {
      var rows := targets[id];
      var remaining := rows.Keys;
      n := 0;
      while remaining != {}
        invariant remaining <= rows.Keys
        invariant n == 0 <==> forall t :: t in rows && t !in remaining ==> !Unresolved(rows[t])
        decreases |remaining|
      {
        var t :| t in remaining;
        if rows[t].original.Running? || rows[t].original.Stopped? {
          if !rows[t].state.Stopped? && !rows[t].state.Skipped? {
            n := n + 1;
          }
        } else if !rows[t].state.Skipped? {
          n := n + 1;
        }
        remaining := remaining - {t};
      }
    }

    /** The lookup of an observation by its request id. */
    method RecordedObservation(id: string, tid: string, requestId: string) returns (found: Option<Payload>)
      ensures found == FindObservation(EventsOf(journal, id), tid, requestId)
    {
      hide EventsOf, FindObservation;
      NothingObserved(id, tid, requestId);
      assert journal[..0] == [];
      for i := 0 to |journal|
        invariant FindObservation(EventsOf(journal[..i], id), tid, requestId).None?
      {
        assert journal[..i + 1] == journal[..i] + [journal[i]];
        EventsOfAppend(journal[..i], journal[i], id);
        if journal[i].maintenanceId == id {
          var e := journal[i];
          if e.kind.TargetObserved? && e.targetId == tid && e.requestId == requestId {
            FindObservationAppended(EventsOf(journal[..i], id), e, tid, requestId);
            ObservationStays(journal, i + 1, id, tid, requestId);
            return Some(e.payload);
          }
          FindObservationSkips(EventsOf(journal[..i], id), e, tid, requestId);
        }
        assert EventsOf(journal[..i], id) + [] == EventsOf(journal[..i], id);
      }
      assert journal[..|journal|] == journal;
      return None;
    }

    /** validateCompletion: walk the target rows and count them. */
    method ValidateCompletion(id: string) returns (objection: Option<Error>)
      requires TablesOk() && id in maintenance
      ensures objection == CompletionObjection(Record(id))
    {
      if id !in captures {
        return Some(Conflict(MaintenanceHasNoCapture));
      }
      var rows := targets[id];
      var remaining, count := rows.Keys, 0;
      while remaining != {}
        invariant remaining <= rows.Keys
        invariant forall t :: t in rows && t !in remaining ==> TargetCompletionAllowed(rows[t].original, rows[t].state)
        invariant count == 0 <==> remaining == rows.Keys
        decreases |remaining|
      {
        var t :| t in remaining;
        count := count + 1;
        if !TargetCompletionAllowed(rows[t].original, rows[t].state) {
          return Some(Conflict(TargetNotReconciled));
        }
        remaining := remaining - {t};
      }
      if count == 0 {
        assert rows == map[];
        return Some(Conflict(MaintenanceHasNoTargets));
      }
      return None;
    }

    /** The checks of TransitionMaintenance, in its order. */
    method CheckTransition(id: string, change: StateChange, pre: VersionPrecondition, audit: AuditContext)
      returns (objection: Option<Error>)
      requires TablesOk() && id in maintenance
      ensures objection == TransitionObjection(Record(id), Exercised(EventsOf(journal, id)), change, pre, audit)
    {
      hide EventsOf, Exercised, StoppedBarrier, CompletionObjection, ValidJustification, IsAdmin;
      var m := maintenance[id];
      var versionObjection := CheckVersion(pre, m.version);
      if versionObjection.Some? {
        return versionObjection;
      }
      if m.state.Failed? {
        if !IsAdmin(audit.role) {
          return Some(Forbidden);
        }
        if !ValidJustification(change.justification) {
          return Some(Invalid);
        }
        if id !in captures && !change.state.New? {
          return Some(Conflict(UncapturedFailureReopensToNew));
        }
        if id in captures && (change.state.New? || change.state.Completed? || change.state.Cancelled?) {
          return Some(Conflict(CapturedFailureReopensToActivePhase));
        }
      } else if IsMaintenanceTerminal(m.state) {
        return Some(Conflict(MaintenanceIsTerminal));
      }
      if change.state.Captured? && !m.state.Failed? {
        return Some(Invalid);
      }
      if !ValidMaintenanceTransition(m.state, change.state) {
        return Some(Invalid);
      }
      if change.state.Cancelled? && m.state.Captured? {
        var exercised := CountTransitions(id);
        if exercised != 0 {
          return Some(Conflict(CancelRequiresUnexercisedTargets));
        }
      }
      if change.state.Stopped? {
        var unresolved := CountUnresolved(id);
        if unresolved != 0 {
          return Some(Conflict(TargetsNotStopped));
        }
      }
      if change.state.Completed? {
        objection := ValidateCompletion(id);
        return;
      }
      return None;
    }

    method TransitionMaintenance(id: string, change: StateChange, pre: VersionPrecondition, audit: AuditContext)
      returns (r: Outcome<Effect>)
      requires Valid()
      modifies this
      ensures Valid()
      ensures r == Decide(old(View()), TransitionRun(id, change, pre, audit))
      ensures View() == Step(old(View()), TransitionRun(id, change, pre, audit))
    {
      hide DbOk, SchemaOk, ValidId, TransitionObjection, EventsOf, Exercised, EventInsertable, Trim, BumpTargets;
      ghost var before, call := View(), TransitionRun(id, change, pre, audit);
      StepKeepsDb(before, call);
      SchemaKept(before, call);
      if !ValidId(id) || !ValidMaintenanceState(change.state) || change.detail.None? {
        return Err(Invalid);
      }
      RecordInView(id);
      if id !in maintenance {
        return Err(NotFound);
      }
      var objection := CheckTransition(id, change, pre, audit);
      if objection.Some? {
        return Err(objection.value);
      }
      var m := maintenance[id];
      var payload := TransitionPayload(Trim(change.justification), change.detail.value);
      var unfit := CheckPayload(payload);
      if unfit.Some? {
        return Err(unfit.value);
      }
      AcceptedCallsFitSchema(before, call);
      TargetRowsFit(before, id);
      SaveTransition(id, change.state);
      var kind := if m.state.Failed? then MaintenanceReopened else MaintenanceTransitioned;
      if change.state.Completed? {
        kind := MaintenanceCompleted;
      }
      var e := RunEvent(|journal| + 1, kind, id, audit, m.state, change.state, m.version, m.version + 1, m.version + 1,
                        payload);
      AppendEvent(e);
      RecordInView(id);
      return Ok(Recorded(id, Record(id), e));
    }

    /** The row updates of an accepted phase change; the guarded update of the run hits its row. */
    method SaveTransition(id: string, to: StateName)
      requires TablesOk() && id in maintenance && RunRowOk(id, maintenance[id].version + 1, maintenance[id].identity)
      requires forall t :: t in targets[id] ==> TargetRowOk(t, targets[id][t])
      modifies this`maintenance, this`targets
      ensures TablesOk() && View() == Db(old(View()).runs[id := Transitioned(old(Record(id)), to)], old(journal))
    {
      hide BumpTargets, TargetRowOk, JoinTables;
      var version := maintenance[id].version;
      if id in captures {
        BumpVersions(id);
      }
      var affected := UpdateRun(id, version, to, version + 1);
      assert affected == 1;
      assert targets == old(targets)[id := targets[id]];
      JoinUpdate(old(maintenance), captures, old(targets), captures, id, maintenance[id], targets[id]);
    }

    /** The checks of TransitionTarget, in its order. */
    method CheckTarget(phase: StateName, target: Target, change: StateChange, pre: VersionPrecondition,
        audit: AuditContext)
      returns (objection: Option<Error>)
      ensures objection == TargetObjection(phase, target, change, pre, audit)
    {
      hide ValidJustification, IsAdmin;
      var versionObjection := CheckVersion(pre, target.version);
      if versionObjection.Some? {
        return versionObjection;
      }
      if change.state.Skipped? {
        if !IsAdmin(audit.role) {
          return Some(Forbidden);
        }
        if !ValidJustification(change.justification) {
          return Some(Invalid);
        }
      } else if target.original.Degraded? || target.original.Unknown? {
        return Some(Conflict(UnresolvedTargetRequiresSkip));
      }
      if target.state.Healthy? || target.state.Skipped? {
        return Some(Conflict(TargetIsTerminal));
      }
      if !ValidTargetTransition(target.state, change.state) {
        return Some(Invalid);
      }
      if target.original.Stopped? && !change.state.Skipped? {
        return Some(Conflict(OriginallyStoppedTarget));
      }
      if !change.state.Skipped? && !TargetPhaseAllowed(phase, change.state) {
        return Some(Conflict(TargetPhaseMismatch));
      }
      return None;
    }

    method MoveTarget(id: string, tid: string, change: StateChange, pre: VersionPrecondition, audit: AuditContext)
      returns (r: Outcome<Effect>)
      requires Valid()
      modifies this
      ensures Valid()
      ensures r == Decide(old(View()), TransitionTarget(id, tid, change, pre, audit))
      ensures View() == Step(old(View()), TransitionTarget(id, tid, change, pre, audit))
    {
      hide DbOk, SchemaOk, ValidId, TargetObjection, EventInsertable, Trim, JoinTables, TargetRowOk;
      ghost var before, call := View(), TransitionTarget(id, tid, change, pre, audit);
      StepKeepsDb(before, call);
      SchemaKept(before, call);
      if !ValidId(id) || !ValidId(tid) || !ValidTargetState(change.state) || change.detail.None? {
        return Err(Invalid);
      }
      RecordInView(id);
      if id !in maintenance {
        return Err(NotFound);
      }
      var m := maintenance[id];
      if IsMaintenanceTerminal(m.state) {
        return Err(Conflict(ParentMaintenanceTerminal));
      }
      if tid !in targets[id] {
        return Err(NotFound);
      }
      var target := targets[id][tid];
      var objection := CheckTarget(m.state, target, change, pre, audit);
      if objection.Some? {
        return Err(objection.value);
      }
      var payload := TransitionPayload(Trim(change.justification), change.detail.value);
      var unfit := CheckPayload(payload);
      if unfit.Some? {
        return Err(unfit.value);
      }
      AcceptedCallsFitSchema(before, call);
      SaveMove(id, tid, change.state);
      var kind := if change.state.Skipped? then TargetSkipped else TargetTransitioned;
      var e := TargetEvent(|journal| + 1, kind, id, tid, audit, target.state, change.state, target.version,
                           target.version + 1, m.version + 1,
                               payload);
      AppendEvent(e);
      RecordInView(id);
      return Ok(Recorded(id, Record(id), e));
    }

    /** The row updates of an accepted target change; both guarded updates hit their row. */
    method SaveMove(id: string, tid: string, to: StateName)
      requires TablesOk() && id in maintenance && tid in targets[id]
               && RunRowOk(id, maintenance[id].version + 1, maintenance[id].identity)
      requires var target := targets[id][tid];
               TargetUpdatable(tid, target, target.(state := to, version := target.version + 1))
      modifies this`maintenance, this`targets
      ensures TablesOk() && View() == Db(old(View()).runs[id := WithTarget(old(Record(id)), tid, to)], old(journal))
    {
      hide TargetUpdatable, JoinTables;
      var m, target := maintenance[id], targets[id][tid];
      var affected := UpdateTarget(id, tid, target.version, target.(state := to, version := target.version + 1));
      assert affected == 1;
      affected := UpdateRun(id, m.version, m.state, m.version + 1);
      assert affected == 1;
      JoinUpdate(old(maintenance), captures, old(targets), captures, id, maintenance[id], targets[id]);
    }

    method AddObservation(id: string, tid: string, payload: Option<Json>, pre: VersionPrecondition,
        audit: AuditContext)
      returns (r: Outcome<Effect>)
      requires Valid()
      modifies this
      ensures Valid()
      ensures r == Decide(old(View()), Observe(id, tid, payload, pre, audit))
      ensures View() == Step(old(View()), Observe(id, tid, payload, pre, audit))
    {
      hide DbOk, SchemaOk, ValidId, FindObservation, EventsOf, EventInsertable;
      ghost var before, call := View(), Observe(id, tid, payload, pre, audit);
      StepKeepsDb(before, call);
      SchemaKept(before, call);
      if !ValidId(id) || !ValidId(tid) || payload.None? {
        return Err(Invalid);
      }
      var existing := RecordedObservation(id, tid, AuditValues(audit).requestId);
      if existing.Some? {
        if existing.value == ObservationPayload(payload.value) {
          return Ok(Unchanged);
        }
        return Err(Conflict(ObservationRequestIdReused));
      }
      RecordInView(id);
      if id !in maintenance {
        return Err(NotFound);
      }
      if tid !in targets[id] {
        return Err(NotFound);
      }
      if IsMaintenanceTerminal(maintenance[id].state) {
        return Err(Conflict(ParentMaintenanceTerminal));
      }
      var versionObjection := CheckVersion(pre, targets[id][tid].version);
      if versionObjection.Some? {
        return Err(versionObjection.value);
      }
      var unfit := CheckPayload(ObservationPayload(payload.value));
      if unfit.Some? {
        return Err(unfit.value);
      }
      AcceptedCallsFitSchema(before, call);
      var e := TargetEvent(|journal| + 1, TargetObserved, id, tid, audit, NoState, NoState, 0, 0, 0,
          ObservationPayload(payload.value));
      assert before.runs[id := before.runs[id]] == before.runs;
      AppendEvent(e);
      RecordInView(id);
      return Ok(Recorded(id, Record(id), e));
    }

    method RecordBackup(artifact: string, manifest: Manifest, audit: AuditContext) returns (r: Outcome<Effect>)
      requires Valid()
      modifies this
      ensures Valid()
      ensures r == Decide(old(View()), BackupNote(artifact, manifest, audit))
      ensures View() == Step(old(View()), BackupNote(artifact, manifest, audit))
    {
      hide DbOk, SchemaOk;
      ghost var before, call := View(), BackupNote(artifact, manifest, audit);
      StepKeepsDb(before, call);
      SchemaKept(before, call);
      var a := AuditValues(audit);
      var e := Event(|journal| + 1, if artifact == "" then BackupCreated else BackupDownloaded, a.requestId, a.actor,
                     a.role, BackupResource, manifest.filename, "", "", NoState, NoState, 0, 0, 0,
                     BackupPayload(manifest.filename, manifest.sha256, manifest.bytes, artifact));
      NoteClashesNot(e);
      AppendEvent(e);
      return Ok(Noted(e));
    }

    /** The inserts of a capture, one target after the other. */
    method InsertTargets(id: string, ts: seq<CaptureTarget>)
      requires TablesOk() && id in maintenance && targets[id] == map[] && DistinctIds(ts)
      requires forall i :: 0 <= i < |ts| ==>
                 TargetRowOk(ts[i].id, InsertedTarget(ts[i])) && KeyFreeFor(maintenance, targets, id, ts[i].lockKey)
      modifies this`targets
      ensures TablesOk() && targets == old(targets)[id := InsertedTargets(ts)]
    {
      hide InsertedTargets, KeyFreeFor, TargetRowOk, DistinctIds;
      assert InsertedTargets([]) == map[] by { InsertedNone(); }
      assert ts[..0] == [];
      for i := 0 to |ts|
        invariant TablesOk() && targets == old(targets)[id := InsertedTargets(ts[..i])]
      {
        var state := Captured;
        if ts[i].original.Stopped? {
          state := Stopped;
        }
        InsertedOneMore(ts, i);
        KeyStaysFree(maintenance, old(targets), id, ts[i].lockKey, targets[id]);
        InsertTarget(id, ts[i].id, Target(ts[i].lockKey, state, ts[i].original, ts[i].carried, 1));
      }
      assert ts[..|ts|] == ts;
    }
  }

  lemma NoTransitions(id: string)
    ensures EventsOf([], id) == [] && !Exercised([])
  {
  }

  lemma NothingObserved(id: string, tid: string, requestId: string)
    ensures FindObservation(EventsOf([], id), tid, requestId).None?
  {
  }

  lemma {:induction false} FindObservationSkips(events: seq<Event>, e: Event, tid: string, requestId: string)
    requires FindObservation(events, tid, requestId).None? && !IsObservation(e, tid, requestId)
    ensures FindObservation(events + [e], tid, requestId).None?
  {
    if events == [] {
      assert (events + [e])[1..] == [];
    } else {
      assert (events + [e])[0] == events[0] && (events + [e])[1..] == events[1..] + [e];
      FindObservationSkips(events[1..], e, tid, requestId);
    }
  }

  lemma {:induction false} EventsOfPrefix(journal: seq<Event>, k: nat, id: string)
    requires k <= |journal|
    ensures EventsOf(journal[..k], id) <= EventsOf(journal, id)
  {
    if k == |journal| {
      assert journal[..k] == journal;
    } else {
      var n := |journal| - 1;
      EventsOfPrefix(journal[..n], k, id);
      assert journal[..n][..k] == journal[..k];
    }
  }

  /** An observation found in the first part of the journal is the one found in the whole. */
  lemma ObservationStays(journal: seq<Event>, k: nat, id: string, tid: string, requestId: string)
    requires k <= |journal| && FindObservation(EventsOf(journal[..k], id), tid, requestId).Some?
    ensures FindObservation(EventsOf(journal, id), tid, requestId)
         == FindObservation(EventsOf(journal[..k], id), tid, requestId)
  {
    hide EventsOf, FindObservation;
    EventsOfPrefix(journal, k, id);
    var front, all := EventsOf(journal[..k], id), EventsOf(journal, id);
    assert all == front + all[|front|..];
    FindObservationStable(front, all[|front|..], tid, requestId);
  }

  lemma InsertedNone()
    ensures InsertedTargets([]) == map[]
  {
  }

  lemma InsertedOneMore(ts: seq<CaptureTarget>, i: int)
    requires DistinctIds(ts) && 0 <= i < |ts|
    ensures ts[i].id !in InsertedTargets(ts[..i])
    ensures InsertedTargets(ts[..i + 1]) == InsertedTargets(ts[..i])[ts[i].id := InsertedTarget(ts[i])]
  {
    assert ts[..i + 1][..i] == ts[..i];
  }

  /** Each target of an accepted capture passes the schema when it is inserted. */
  lemma CapturedTargetsInsertable(db: Db, id: string, document: Document, audit: AuditContext)
    requires DbOk(db) && id in db.runs && db.runs[id].capture.None?
    requires Accepted(db, CaptureRun(id, Some(document), audit))
    ensures ParseTargets(document).Some?
    ensures forall i :: 0 <= i < |ParseTargets(document).value| ==>
              TargetInsertable(db, id, ParseTargets(document).value[i].id,
                  InsertedTarget(ParseTargets(document).value[i]))
  {
    hide DbOk, ParseTargets, TargetInsertable, InsertedTargets, LockHeld, ValidId, EventInsertable;
    AcceptedCallsFitSchema(db, CaptureRun(id, Some(document), audit));
    NoTargetsBeforeCapture(db, id);
    var ts := ParseTargets(document).value;
    forall i | 0 <= i < |ts|
      ensures TargetInsertable(db, id, ts[i].id, InsertedTarget(ts[i]))
    {
      InsertedTargetsAt(ts, i);
    }
  }

  lemma NoTargetsBeforeCapture(db: Db, id: string)
    requires DbOk(db) && id in db.runs && db.runs[id].capture.None?
    ensures db.runs[id].targets == map[]
  {
    hide DbOk, HistoryOk;
    RunOf(db, id);
  }

  /** The run's own new rows do not stand in the way of its next one. */
  lemma KeyStaysFree(runs: map<string, RunRow>, targets: map<string, map<string, Target>>, id: string, key: string,
      own: map<string, Target>)
    requires KeyFreeFor(runs, targets, id, key)
    ensures KeyFreeFor(runs, targets[id := own], id, key)
  {
  }
}
