/** Every call, whoever sends it and whether or not it is accepted, keeps the database invariant; so
    every database reached from the empty one has it. */
module Histories {
  import opened Text
  import opened Records
  import opened Writer
  import opened Replay
  import opened Invariant

  /** What an accepted write owes the rest of the database. */
  ghost predicate EffectOk(db: Db, w: Effect) {
    match w
    case Unchanged => true
    case Noted(e) => e.maintenanceId == "" && e.targetId == "" && e.id == |db.journal| + 1 && EventShapeOk(e)
        && GlobalEventOk(e)
    case Recorded(id, rec, e) =>
      && e.maintenanceId == id && e.id == |db.journal| + 1 && EventShapeOk(e)
      && RecordOk(id, rec) && HistoryOk(id, rec, EventsOf(db.journal, id) + [e])
      && (e.targetId != "" ==> e.targetId in rec.targets)
      && (id in db.runs ==> db.runs[id].targets.Keys <= rec.targets.Keys)
      && forall key :: HoldsLock(rec, key) ==> (id in db.runs && HoldsLock(db.runs[id], key)) || !LockHeld(db, key)
  }

  lemma HistoryShape(id: string, rec: RunRecord, events: seq<Event>, e: Event)
    requires HistoryOk(id, rec, events + [e])
    ensures EventShapeOk(e)
  {
    hide Apply, EventShapeOk;
    assert (events + [e])[|events|] == e;
  }

  /** A run id without a record has no events. */
  lemma {:induction false} NoRunNoEvents(journal: seq<Event>, id: string)
    requires forall i :: 0 <= i < |journal| ==> journal[i].maintenanceId != id
    ensures EventsOf(journal, id) == []
  {
    if journal == [] {
    } else {
      NoRunNoEvents(journal[..|journal| - 1], id);
    }
  }

  lemma CreateEffect(db: Db, input: RunInput, audit: AuditContext)
    requires DbOk(db) && DecideCreate(db, input, audit).Ok?
    ensures EffectOk(db, DecideCreate(db, input, audit).value)
  {
    hide RecordOk, HistoryOk, EventShapeOk, RunOk, LocksExclusive, ValidId;
    var w := DecideCreate(db, input, audit).value;
    CreateKeepsRun(|db.journal| + 1, input.id, input.identity.value, audit);
    ValidIdNotEmpty(input.id);
    NoRunNoEvents(db.journal, input.id);
    assert [] + [w.event] == [w.event];
    HistoryShape(w.id, w.record, [], w.event);
  }

  lemma ValidIdNotEmpty(id: string)
    ensures ValidId(id) ==> id != ""
  {
  }

  lemma CaptureEffect(db: Db, id: string, document: Option<Document>, audit: AuditContext)
    requires DbOk(db) && DecideCapture(db, id, document, audit).Ok?
    ensures EffectOk(db, DecideCapture(db, id, document, audit).value)
  {
    hide HistoryOk, EventShapeOk, LocksExclusive, ValidId, ParseTargets, CaptureOk, JournalOk, TargetOk, LockHeld;
    var w := DecideCapture(db, id, document, audit).value;
    if w.Recorded? {
      var rec, events := db.runs[id], EventsOf(db.journal, id);
      assert RunOk(db, id);
      var capture := Capture(document.value, Sha256(document.value));
      var ts := ParseTargets(document.value).value;
      CaptureKeepsRun(|db.journal| + 1, id, rec, events, capture, audit);
      HistoryShape(id, w.record, events, w.event);
      assert rec.targets == map[];
      forall key | HoldsLock(w.record, key)
        ensures !LockHeld(db, key)
      {
        var t :| t in w.record.targets && w.record.targets[t].lockKey == key;
        InsertedAreOfCapture(ts);
      }
    }
  }

  lemma TransitionEffect(db: Db, id: string, change: StateChange, pre: VersionPrecondition, audit: AuditContext)
    requires DbOk(db) && DecideTransition(db, id, change, pre, audit).Ok?
    ensures EffectOk(db, DecideTransition(db, id, change, pre, audit).value)
  {
    hide HistoryOk, EventShapeOk, LocksExclusive, ValidId, RecordOk, JournalOk, LockHeld, ValidJustification, IsAdmin,
         CompletionObjection, StoppedBarrier, Trim;
    var w := DecideTransition(db, id, change, pre, audit).value;
    var rec, events := db.runs[id], EventsOf(db.journal, id);
    assert RunOk(db, id);
    TransitionKeepsRun(|db.journal| + 1, id, rec, events, change, pre, audit);
    HistoryShape(id, w.record, events, w.event);
    assert forall key :: HoldsLock(w.record, key) ==> HoldsLock(rec, key);
  }

  lemma TargetEffect(db: Db, id: string, tid: string, change: StateChange, pre: VersionPrecondition,
      audit: AuditContext)
    requires DbOk(db) && DecideTarget(db, id, tid, change, pre, audit).Ok?
    ensures EffectOk(db, DecideTarget(db, id, tid, change, pre, audit).value)
  {
    hide HistoryOk, EventShapeOk, LocksExclusive, ValidId, RecordOk, JournalOk, LockHeld, TargetObjection, Trim;
    var w := DecideTarget(db, id, tid, change, pre, audit).value;
    var rec, events := db.runs[id], EventsOf(db.journal, id);
    assert RunOk(db, id);
    TargetKeepsRun(|db.journal| + 1, id, tid, rec, events, change, pre, audit);
    HistoryShape(id, w.record, events, w.event);
    assert forall key :: HoldsLock(w.record, key) ==> HoldsLock(rec, key);
  }

  lemma ObserveEffect(db: Db, id: string, tid: string, payload: Option<Json>, pre: VersionPrecondition,
      audit: AuditContext)
    requires DbOk(db) && DecideObserve(db, id, tid, payload, pre, audit).Ok?
    ensures EffectOk(db, DecideObserve(db, id, tid, payload, pre, audit).value)
  {
    hide HistoryOk, EventShapeOk, LocksExclusive, ValidId, RecordOk, JournalOk, LockHeld, FindObservation;
    var w := DecideObserve(db, id, tid, payload, pre, audit).value;
    if w.Recorded? {
      var rec, events := db.runs[id], EventsOf(db.journal, id);
      assert RunOk(db, id);
      ObserveKeepsRun(|db.journal| + 1, id, tid, rec, events, payload.value, audit);
      HistoryShape(id, w.record, events, w.event);
    }
  }

  lemma DecidedEffectOk(db: Db, call: Call)
    requires DbOk(db) && Decide(db, call).Ok?
    ensures EffectOk(db, Decide(db, call).value)
  {
    hide DbOk, EffectOk, DecideCreate, DecideCapture, DecideTransition, DecideTarget, DecideObserve;
    match call
    case Create(input, audit) => CreateEffect(db, input, audit);
    case CaptureRun(id, document, audit) => CaptureEffect(db, id, document, audit);
    case TransitionRun(id, change, pre, audit) => TransitionEffect(db, id, change, pre, audit);
    case TransitionTarget(id, tid, change, pre, audit) => TargetEffect(db, id, tid, change, pre, audit);
    case Observe(id, tid, payload, pre, audit) => ObserveEffect(db, id, tid, payload, pre, audit);
    case BackupNote(artifact, manifest, audit) => NoteEffect(db, artifact, manifest, audit);
  }

  lemma NoteEffect(db: Db, artifact: string, manifest: Manifest, audit: AuditContext)
    ensures EffectOk(db, DecideBackupNote(db, artifact, manifest, audit).value)
  {
    AuditNeverEmpty(audit);
  }

  lemma CommitKeepsRuns(db: Db, w: Effect)
    requires DbOk(db) && EffectOk(db, w)
    ensures forall id :: id in Commit(db, w).runs ==> RunOk(Commit(db, w), id)
  {
    hide HistoryOk, EventShapeOk, LocksExclusive, RecordOk, JournalOk, LockHeld, EventsOf;
    var db' := Commit(db, w);
    forall id | id in db'.runs
      ensures RunOk(db', id)
    {
      assert EventsOf(db.journal, id) + [] == EventsOf(db.journal, id);
      match w
      case Unchanged =>
        assert RunOk(db, id);
      case Noted(e) =>
        EventsOfAppend(db.journal, e, id);
        assert RunOk(db, id);
        RecordIdNotEmpty(id, db.runs[id]);
      case Recorded(other, rec, e) =>
        EventsOfAppend(db.journal, e, id);
        if id != other {
          assert RunOk(db, id);
        }
    }
  }

  lemma RecordIdNotEmpty(id: string, rec: RunRecord)
    requires RecordOk(id, rec)
    ensures id != ""
  {
    hide CaptureOk;
  }

  lemma CommitKeepsJournal(db: Db, w: Effect)
    requires DbOk(db) && EffectOk(db, w)
    ensures JournalOk(Commit(db, w))
  {
    hide HistoryOk, EventShapeOk, LocksExclusive, RecordOk, LockHeld, RunOk;
    var db' := Commit(db, w);
    if w.Recorded? {
      RecordIdNotEmpty(w.id, w.record);
    }
    forall i | 0 <= i < |db'.journal|
      ensures db'.journal[i].id == i + 1 && EventInPlace(db', db'.journal[i])
    {
      if i < |db.journal| {
        assert db'.journal[i] == db.journal[i];
        assert EventInPlace(db, db.journal[i]);
      }
    }
  }

  lemma CommitKeepsLocks(db: Db, w: Effect)
    requires DbOk(db) && EffectOk(db, w)
    ensures LocksExclusive(Commit(db, w))
  {
    hide HistoryOk, EventShapeOk, RecordOk, RunOk, JournalOk, HoldsLock;
    if w.Recorded? {
      var db' := Commit(db, w);
      forall a, b, key | a in db'.runs && b in db'.runs && HoldsLock(db'.runs[a], key) && HoldsLock(db'.runs[b], key)
        ensures a == b
      {
      }
    }
  }

  /** One call keeps the invariant. */
  lemma StepKeepsDb(db: Db, call: Call)
    requires DbOk(db)
    ensures DbOk(Step(db, call))
  {
    if Accepted(db, call) {
      hide EffectOk, Decide, Commit, LocksExclusive, JournalOk, RunOk;
      var w := Decide(db, call).value;
      DecidedEffectOk(db, call);
      CommitKeepsRuns(db, w);
      CommitKeepsJournal(db, w);
      CommitKeepsLocks(db, w);
    }
  }

  /** Any run of calls keeps the invariant. */
  lemma {:induction false} ExecKeepsDb(db: Db, calls: seq<Call>)
    requires DbOk(db)
    ensures DbOk(Exec(db, calls))
    decreases |calls|
  {
    hide DbOk, Step;
    if calls == [] {
    } else {
      ExecKeepsDb(db, calls[..|calls| - 1]);
      StepKeepsDb(Exec(db, calls[..|calls| - 1]), calls[|calls| - 1]);
    }
  }

  /** What the database invariant says of one run. */
  lemma RunOf(db: Db, id: string)
    requires DbOk(db) && id in db.runs
    ensures RecordOk(id, db.runs[id]) && HistoryOk(id, db.runs[id], EventsOf(db.journal, id))
  {
    hide RecordOk, HistoryOk, JournalOk, LocksExclusive;
    assert RunOk(db, id);
  }

  lemma EmptyDbOk()
    ensures DbOk(EMPTY_DB)
  {
  }

  lemma Reachable(calls: seq<Call>)
    ensures DbOk(Exec(EMPTY_DB, calls))
  {
    EmptyDbOk();
    ExecKeepsDb(EMPTY_DB, calls);
  }

  lemma {:induction false} ExecSplit(db: Db, a: seq<Call>, b: seq<Call>)
    ensures Exec(db, a + b) == Exec(Exec(db, a), b)
    decreases |b|
  {
    hide Step;
    if b == [] {
      assert a + b == a;
    } else {
      var n := |b| - 1;
      ExecSplit(db, a, b[..n]);
      assert (a + b)[..|a + b| - 1] == a + b[..n];
    }
  }
}
