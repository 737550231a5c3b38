/** Safety over whole runs of calls: the transactional frame, lock exclusivity, closed runs, capture
    permanence and retry-safe observations. */
module Safety {
  import opened Lifecycle
  import opened Text
  import opened Records
  import opened Writer
  import opened Replay
  import opened Invariant
  import opened Histories

  // ---- Transactional frame ----

  /** The run a call names, if it names one. */
  function NamedRun(call: Call): Option<string> {
    match call
    case Create(input, _) => Some(input.id)
    case BackupNote(_, _, _) => None
    case CaptureRun(id, _, _) => Some(id)
    case TransitionRun(id, _, _, _) => Some(id)
    case TransitionTarget(id, _, _, _, _) => Some(id)
    case Observe(id, _, _, _, _) => Some(id)
  }

  lemma DecisionFrame(db: Db, call: Call)
    requires Accepted(db, call)
    ensures var w := Decide(db, call).value;
            match w
            case Unchanged => true
            case Recorded(id, _, e) => NamedRun(call) == Some(id) && e.maintenanceId == id
            case Noted(e) => NamedRun(call) == None && e.maintenanceId == ""
  {
    hide ParseTargets, Trim, ValidId, TransitionObjection, TargetObjection, FindObservation, LockHeld, InsertedTargets,
         Exercised;
  }

  /** A rejected call changes nothing; an accepted one keeps the journal as a prefix, adds at most one
      event, changes nothing at all when it adds none, and leaves every other run and its journal alone. */
  lemma TransactionalFrame(db: Db, call: Call)
    ensures !Accepted(db, call) ==> Step(db, call) == db
    ensures db.journal <= Step(db, call).journal && |Step(db, call).journal| <= |db.journal| + 1
    ensures |Step(db, call).journal| == |db.journal| ==> Step(db, call) == db
    ensures forall id :: Some(id) != NamedRun(call) ==>
              && (id in Step(db, call).runs <==> id in db.runs)
              && (id in db.runs ==> Step(db, call).runs[id] == db.runs[id])
              && (id != "" ==> EventsOf(Step(db, call).journal, id) == EventsOf(db.journal, id))
  {
    if Accepted(db, call) {
      DecisionFrame(db, call);
      hide Decide;
      var w := Decide(db, call).value;
      forall id | Some(id) != NamedRun(call) && id != ""
        ensures EventsOf(Step(db, call).journal, id) == EventsOf(db.journal, id)
      {
        match w
        case Unchanged =>
        case Recorded(_, _, e) => EventsOfAppend(db.journal, e, id);
        case Noted(e) => EventsOfAppend(db.journal, e, id);
      }
    }
  }

  // ---- Closed runs ----

  /** Completed and cancelled runs refuse every change: record and journal stay as they are. */
  lemma ClosedStaysClosed(db: Db, call: Call, id: string)
    requires id in db.runs && id != "" && IsClosed(db.runs[id].state)
    ensures id in Step(db, call).runs && Step(db, call).runs[id] == db.runs[id]
    ensures EventsOf(Step(db, call).journal, id) == EventsOf(db.journal, id)
  {
    if NamedRun(call) == Some(id) {
      ClosedRefuses(db, call, id);
    } else {
      hide Step;
      TransactionalFrame(db, call);
    }
  }

  lemma ClosedRefuses(db: Db, call: Call, id: string)
    requires id in db.runs && IsClosed(db.runs[id].state) && NamedRun(call) == Some(id)
    ensures !Accepted(db, call) || Decide(db, call).value == Unchanged
  {
    hide ParseTargets, Trim, ValidId, TargetObjection, FindObservation, LockHeld, InsertedTargets, EventsOf, Exercised,
         ReopenObjection, CompletionObjection, StoppedBarrier;
  }

  lemma {:induction false} ClosedForever(db: Db, calls: seq<Call>, id: string)
    requires id in db.runs && id != "" && IsClosed(db.runs[id].state)
    ensures id in Exec(db, calls).runs && Exec(db, calls).runs[id] == db.runs[id]
    ensures EventsOf(Exec(db, calls).journal, id) == EventsOf(db.journal, id)
    decreases |calls|
  {
    hide Step, EventsOf;
    if calls == [] {
    } else {
      var n := |calls| - 1;
      ClosedForever(db, calls[..n], id);
      ClosedStaysClosed(Exec(db, calls[..n]), calls[n], id);
    }
  }

  /** A completed run has at least one target; each is healthy if it was running, stopped if it was stopped,
      or skipped; and the run never changes again. */
  lemma CompletionSafety(calls: seq<Call>, later: seq<Call>, id: string)
    requires id in Exec(EMPTY_DB, calls).runs && Exec(EMPTY_DB, calls).runs[id].state.Completed?
    ensures var rec := Exec(EMPTY_DB, calls).runs[id];
            && rec.targets != map[]
            && (forall t :: t in rec.targets ==>
                  || rec.targets[t].state == Skipped
                  || (rec.targets[t].original == Running && rec.targets[t].state == Healthy)
                  || (rec.targets[t].original == Stopped && rec.targets[t].state == Stopped))
            && id in Exec(EMPTY_DB, calls + later).runs && Exec(EMPTY_DB, calls + later).runs[id] == rec
  {
    Reachable(calls);
    ExecSplit(EMPTY_DB, calls, later);
    hide Exec, HistoryOk, LocksExclusive, JournalOk, CaptureOk, ValidId;
    assert RunOk(Exec(EMPTY_DB, calls), id);
    RecordIdNotEmpty(id, Exec(EMPTY_DB, calls).runs[id]);
    ClosedForever(Exec(EMPTY_DB, calls), later, id);
  }

  /** A cancelled run never had, and never gets, a normal target transition; each of its targets is as
      captured or skipped. */
  lemma CancellationSafety(calls: seq<Call>, later: seq<Call>, id: string)
    requires id in Exec(EMPTY_DB, calls).runs && Exec(EMPTY_DB, calls).runs[id].state.Cancelled?
    ensures var db := Exec(EMPTY_DB, calls + later);
            && id in db.runs
            && !Exercised(EventsOf(db.journal, id))
            && db.runs[id].state.Cancelled?
            && forall t :: t in db.runs[id].targets ==> Untouched(db.runs[id].targets[t])
  {
    Reachable(calls);
    ExecSplit(EMPTY_DB, calls, later);
    hide Exec, LocksExclusive, JournalOk, CaptureOk, ValidId, ReplayAll, EventsOf, Exercised;
    assert RunOk(Exec(EMPTY_DB, calls), id);
    RecordIdNotEmpty(id, Exec(EMPTY_DB, calls).runs[id]);
    ClosedForever(Exec(EMPTY_DB, calls), later, id);
  }

  // ---- Locks ----

  /** No lock key is ever held by two runs. */
  lemma LockExclusivity(calls: seq<Call>)
    ensures LocksExclusive(Exec(EMPTY_DB, calls))
  {
    Reachable(calls);
  }

  /** What a call may do to the identity of a run's targets: nothing, once they are captured. */
  ghost predicate KeepsTargets(rec: RunRecord, rec': RunRecord) {
    rec.capture.Some? ==>
      && rec'.capture == rec.capture
      && rec'.targets.Keys == rec.targets.Keys
      && forall t :: t in rec.targets ==>
           && rec'.targets[t].lockKey == rec.targets[t].lockKey
           && rec'.targets[t].original == rec.targets[t].original
           && rec'.targets[t].carried == rec.targets[t].carried
  }

  lemma StepKeepsTargets(db: Db, call: Call, id: string)
    requires id in db.runs
    ensures id in Step(db, call).runs && KeepsTargets(db.runs[id], Step(db, call).runs[id])
  {
    hide ParseTargets, Trim, ValidId, TransitionObjection, TargetObjection, FindObservation, LockHeld, InsertedTargets,
         EventsOf, Exercised;
  }

  lemma {:induction false} ExecKeepsTargets(db: Db, calls: seq<Call>, id: string)
    requires id in db.runs
    ensures id in Exec(db, calls).runs && KeepsTargets(db.runs[id], Exec(db, calls).runs[id])
    decreases |calls|
  {
    hide Step;
    if calls == [] {
    } else {
      var n := |calls| - 1;
      ExecKeepsTargets(db, calls[..n], id);
      StepKeepsTargets(Exec(db, calls[..n]), calls[n], id);
    }
  }

  /** A run keeps every key it holds until it is completed or cancelled, failures included; and once
      another run holds one of its keys, it is closed for good. */
  lemma LockKeptUntilClosed(calls: seq<Call>, later: seq<Call>, id: string, key: string)
    requires id in Exec(EMPTY_DB, calls).runs && HoldsLock(Exec(EMPTY_DB, calls).runs[id], key)
    ensures var db := Exec(EMPTY_DB, calls + later);
            && id in db.runs
            && (!IsClosed(db.runs[id].state) ==> HoldsLock(db.runs[id], key))
            && forall other :: other in db.runs && other != id && HoldsLock(db.runs[other], key) ==>
                 IsClosed(db.runs[id].state)
  {
    var before, after := Exec(EMPTY_DB, calls), Exec(EMPTY_DB, calls + later);
    Reachable(calls);
    LockExclusivity(calls + later);
    ExecSplit(EMPTY_DB, calls, later);
    ExecKeepsTargets(before, later, id);
    hide Exec, HistoryOk, JournalOk, CaptureOk, ValidId;
    assert RunOk(before, id);
    var t :| t in before.runs[id].targets && before.runs[id].targets[t].lockKey == key;
    assert before.runs[id].capture.Some?;
    assert t in after.runs[id].targets && after.runs[id].targets[t].lockKey == key;
  }

  // ---- Captures ----

  /** A run's targets are exactly those of its saved capture, with the identities captured; a new run
      has neither. */
  lemma CaptureShape(calls: seq<Call>, id: string)
    requires id in Exec(EMPTY_DB, calls).runs
    ensures var rec := Exec(EMPTY_DB, calls).runs[id];
            && (rec.capture.Some? ==>
                  && ParseTargets(rec.capture.value.document).Some?
                  && TargetsOfCapture(rec.targets, ParseTargets(rec.capture.value.document).value))
            && (rec.capture.None? ==> rec.targets == map[])
            && (rec.state.New? ==> rec.capture.None? && rec.targets == map[])
  {
    Reachable(calls);
    hide Exec, HistoryOk, JournalOk, LocksExclusive, ParseTargets, TargetsOfCapture;
    assert RunOk(Exec(EMPTY_DB, calls), id);
  }

  /** Once captured, the same document is accepted again at any later time and changes nothing, and
      any other acceptable document conflicts. */
  lemma CapturePermanence(calls: seq<Call>, later: seq<Call>, id: string, document: Document, audit: AuditContext)
    requires id in Exec(EMPTY_DB, calls).runs && Exec(EMPTY_DB, calls).runs[id].capture.Some?
    ensures var saved := Exec(EMPTY_DB, calls).runs[id].capture.value.document;
            var db := Exec(EMPTY_DB, calls + later);
            var call := CaptureRun(id, Some(document), audit);
            && (document == saved ==> Accepted(db, call) && Step(db, call) == db)
            && (document != saved && ParseTargets(document).Some? ==>
                  Decide(db, call) == Err(Conflict(ImmutableCaptureMismatch)) && Step(db, call) == db)
  {
    Reachable(calls);
    ExecSplit(EMPTY_DB, calls, later);
    var before, after := Exec(EMPTY_DB, calls), Exec(EMPTY_DB, calls + later);
    ExecKeepsTargets(before, later, id);
    hide Exec, DbOk, HistoryOk, ParseTargets, TargetsOfCapture, ValidId, TargetOk, StoppedBarrier, CompletionObjection,
         Decide, Step, Accepted;
    RunOf(before, id);
    Resubmitted(after, id, before.runs[id].capture.value.document, document, audit);
  }

  lemma Resubmitted(db: Db, id: string, saved: Document, document: Document, audit: AuditContext)
    requires ValidId(id) && id in db.runs && db.runs[id].capture == Some(Capture(saved, Sha256(saved)))
    requires ParseTargets(saved).Some?
    ensures var call := CaptureRun(id, Some(document), audit);
            && (document == saved ==> Accepted(db, call) && Step(db, call) == db)
            && (document != saved && ParseTargets(document).Some? ==>
                  Decide(db, call) == Err(Conflict(ImmutableCaptureMismatch)) && Step(db, call) == db)
  {
    hide ParseTargets, ValidId, LockHeld, KeysStorable;
  }

  // ---- Observations ----

  lemma {:induction false} FindObservationFinds(events: seq<Event>, t: string, requestId: string)
    ensures FindObservation(events, t, requestId).Some? <==>
              exists i :: 0 <= i < |events| && IsObservation(events[i], t, requestId)
    ensures FindObservation(events, t, requestId).Some? ==>
              exists i :: 0 <= i < |events| && IsObservation(events[i], t, requestId)
                          && events[i].payload == FindObservation(events, t, requestId).value
  {
    if events == [] {
    } else {
      FindObservationFinds(events[1..], t, requestId);
      if i :| 0 <= i < |events| && IsObservation(events[i], t, requestId) && i > 0 {
        assert events[1..][i - 1] == events[i];
      }
      if !IsObservation(events[0], t, requestId) && FindObservation(events[1..], t, requestId).Some? {
        var i :| 0 <= i < |events[1..]| && IsObservation(events[1..][i], t, requestId)
                 && events[1..][i].payload == FindObservation(events[1..], t, requestId).value;
        assert events[i + 1] == events[1..][i];
      }
    }
  }

  /** The first observation found stays the one found while the journal grows. */
  lemma {:induction false} FindObservationStable(events: seq<Event>, more: seq<Event>, t: string, requestId: string)
    requires FindObservation(events, t, requestId).Some?
    ensures FindObservation(events + more, t, requestId) == FindObservation(events, t, requestId)
  {
    assert (events + more)[0] == events[0] && (events + more)[1..] == events[1..] + more;
    if !IsObservation(events[0], t, requestId) {
      FindObservationStable(events[1..], more, t, requestId);
    }
  }

  lemma StepGrowsEvents(db: Db, call: Call, id: string)
    ensures EventsOf(db.journal, id) <= EventsOf(Step(db, call).journal, id)
  {
    if Accepted(db, call) {
      hide Decide, EventsOf;
      match Decide(db, call).value
      case Unchanged =>
      case Recorded(_, _, e) => EventsOfAppend(db.journal, e, id);
      case Noted(e) => EventsOfAppend(db.journal, e, id);
    }
  }

  lemma {:induction false} ExecGrowsEvents(db: Db, calls: seq<Call>, id: string)
    ensures EventsOf(db.journal, id) <= EventsOf(Exec(db, calls).journal, id)
    decreases |calls|
  {
    hide Step, EventsOf;
    if calls == [] {
    } else {
      var n := |calls| - 1;
      ExecGrowsEvents(db, calls[..n], id);
      StepGrowsEvents(Exec(db, calls[..n]), calls[n], id);
    }
  }

  lemma ObservationFoundAfter(db: Db, id: string, tid: string, payload: Json, pre: VersionPrecondition,
      audit: AuditContext)
    requires Accepted(db, Observe(id, tid, Some(payload), pre, audit))
    ensures var db' := Step(db, Observe(id, tid, Some(payload), pre, audit));
            && ValidId(id) && ValidId(tid)
            && FindObservation(EventsOf(db'.journal, id), tid, AuditValues(audit).requestId)
               == Some(ObservationPayload(payload))
  {
    hide ValidId;
    var requestId := AuditValues(audit).requestId;
    var events := EventsOf(db.journal, id);
    if FindObservation(events, tid, requestId).None? {
      var e := ObserveEvent(|db.journal| + 1, id, tid, payload, audit);
      EventsOfAppend(db.journal, e, id);
      hide EventsOf;
      FindObservationAppended(events, e, tid, requestId);
    }
  }

  lemma {:induction false} FindObservationAppended(events: seq<Event>, e: Event, t: string, requestId: string)
    requires FindObservation(events, t, requestId).None? && IsObservation(e, t, requestId)
    ensures FindObservation(events + [e], t, requestId) == Some(e.payload)
  {
    if events == [] {
    } else {
      assert (events + [e])[0] == events[0] && (events + [e])[1..] == events[1..] + [e];
      FindObservationAppended(events[1..], e, t, requestId);
    }
  }

  /** Retry safety: once an observation has been accepted, sending it again under the same request id
      succeeds without any change at every later time, whatever state the run is in by then and
      whatever version the retry names; a different payload under that id conflicts forever. */
  lemma ObservationRetry(db: Db, id: string, tid: string, payload: Json, pre: VersionPrecondition,
      audit: AuditContext,
                         later: seq<Call>, payload': Json, pre': VersionPrecondition, audit': AuditContext)
    requires Accepted(db, Observe(id, tid, Some(payload), pre, audit))
    requires AuditValues(audit').requestId == AuditValues(audit).requestId
    ensures var now := Exec(Step(db, Observe(id, tid, Some(payload), pre, audit)), later);
            var retry := Observe(id, tid, Some(payload'), pre', audit');
            && (payload' == payload ==> Accepted(now, retry) && Step(now, retry) == now)
            && (payload' != payload ==>
                  Decide(now, retry) == Err(Conflict(ObservationRequestIdReused)) && Step(now, retry) == now)
  {
    var db' := Step(db, Observe(id, tid, Some(payload), pre, audit));
    ObservationFoundAfter(db, id, tid, payload, pre, audit);
    ExecGrowsEvents(db', later, id);
    var now := Exec(db', later);
    var old_, new_ := EventsOf(db'.journal, id), EventsOf(now.journal, id);
    assert new_ == old_ + new_[|old_|..];
    hide FindObservation, EventsOf, ValidId, Exec;
    FindObservationStable(old_, new_[|old_|..], tid, AuditValues(audit).requestId);
  }
}
