/** Versions identify what was read: no lost update and no ABA, and what each version counts. */
module Versions {
  import opened Text
  import opened Records
  import opened Writer
  import opened Replay
  import opened Invariant
  import opened Histories

  // ---- A version never returns to an earlier state ----

  /** The effect of time on one run: equal versions mean nothing the version covers has changed. */
  ghost predicate Later(rec: RunRecord, rec': RunRecord) {
    && rec.version <= rec'.version
    && (rec.version == rec'.version ==> rec == rec')
    && forall t :: t in rec.targets ==>
         && t in rec'.targets
         && rec.targets[t].version <= rec'.targets[t].version
         && (rec.targets[t].version == rec'.targets[t].version ==>
               rec.targets[t] == rec'.targets[t] && rec.state == rec'.state)
  }

  lemma LaterTransitive(a: RunRecord, b: RunRecord, c: RunRecord)
    requires Later(a, b) && Later(b, c)
    ensures Later(a, c)
  {
  }

  lemma DecisionIsLater(db: Db, call: Call)
    requires DbOk(db) && Accepted(db, call)
    ensures var w := Decide(db, call).value;
            w.Recorded? && w.id in db.runs ==> Later(db.runs[w.id], w.record)
  {
    hide ParseTargets, Trim, ValidId, ValidJustification, IsAdmin, TransitionObjection, TargetObjection,
         FindObservation, HistoryOk, JournalOk, LocksExclusive, LockHeld, InsertedTargets, CaptureOk, StoppedBarrier,
         CompletionObjection, TargetOk;
    var w := Decide(db, call).value;
    if w.Recorded? && w.id in db.runs {
      assert RunOk(db, w.id);
    }
  }

  lemma StepIsLater(db: Db, call: Call, id: string)
    requires DbOk(db) && id in db.runs
    ensures id in Step(db, call).runs && Later(db.runs[id], Step(db, call).runs[id])
  {
    hide Decide, DbOk;
    if Accepted(db, call) {
      DecisionIsLater(db, call);
    }
  }

  lemma {:induction false} ExecIsLater(db: Db, calls: seq<Call>, id: string)
    requires DbOk(db) && id in db.runs
    ensures id in Exec(db, calls).runs && Later(db.runs[id], Exec(db, calls).runs[id])
    decreases |calls|
  {
    hide DbOk, Step, Later;
    if calls == [] {
      LaterReflexive(db.runs[id]);
    } else {
      var n := |calls| - 1;
      var mid := Exec(db, calls[..n]);
      ExecIsLater(db, calls[..n], id);
      ExecKeepsDb(db, calls[..n]);
      StepIsLater(mid, calls[n], id);
      LaterTransitive(db.runs[id], mid.runs[id], Step(mid, calls[n]).runs[id]);
    }
  }

  lemma LaterReflexive(rec: RunRecord)
    ensures Later(rec, rec)
  {
  }

  /** No ABA: at any two moments of any run of calls, one run version stands for one whole aggregate,
      and one target version for one target state under one phase of its run. */
  lemma NoAba(calls: seq<Call>, i: nat, j: nat, id: string)
    requires i <= j <= |calls|
    requires id in Exec(EMPTY_DB, calls[..i]).runs
    ensures var before, after := Exec(EMPTY_DB, calls[..i]), Exec(EMPTY_DB, calls[..j]);
            && id in after.runs
            && (before.runs[id].version == after.runs[id].version ==> before.runs[id] == after.runs[id])
            && (forall t :: t in before.runs[id].targets ==>
                  && t in after.runs[id].targets
                  && (before.runs[id].targets[t].version == after.runs[id].targets[t].version ==>
                        && before.runs[id].targets[t] == after.runs[id].targets[t]
                        && before.runs[id].state == after.runs[id].state))
  {
    hide DbOk, Exec;
    assert calls[..j] == calls[..i] + calls[i..j];
    Reachable(calls[..i]);
    ExecSplit(EMPTY_DB, calls[..i], calls[i..j]);
    ExecIsLater(Exec(EMPTY_DB, calls[..i]), calls[i..j], id);
  }

  function Exactly(version: int): VersionPrecondition { VersionPrecondition(false, [version]) }

  /** No lost update: a run or target write conditioned on the one version read earlier is accepted
      only if what was read is still what is there. */
  lemma NoLostUpdate(calls: seq<Call>, i: nat, id: string, tid: string, change: StateChange, audit: AuditContext)
    requires i <= |calls| && id in Exec(EMPTY_DB, calls[..i]).runs
    ensures var read, now := Exec(EMPTY_DB, calls[..i]), Exec(EMPTY_DB, calls);
            Accepted(now, TransitionRun(id, change, Exactly(read.runs[id].version), audit)) ==>
                now.runs[id] == read.runs[id]
    ensures var read, now := Exec(EMPTY_DB, calls[..i]), Exec(EMPTY_DB, calls);
            tid in read.runs[id].targets ==>
              Accepted(now, TransitionTarget(id, tid, change, Exactly(read.runs[id].targets[tid].version), audit)) ==>
                now.runs[id].targets[tid] == read.runs[id].targets[tid] && now.runs[id].state == read.runs[id].state
  {
    hide DbOk, Exec, Accepted;
    assert calls[..|calls|] == calls;
    NoAba(calls, i, |calls|, id);
    var read, now := Exec(EMPTY_DB, calls[..i]), Exec(EMPTY_DB, calls);
    AcceptedNamesVersion(now, id, tid, change, read.runs[id].version, audit);
    if tid in read.runs[id].targets {
      AcceptedNamesVersion(now, id, tid, change, read.runs[id].targets[tid].version, audit);
    }
  }

  /** A call conditioned on one version is accepted only at that version. */
  lemma AcceptedNamesVersion(db: Db, id: string, tid: string, change: StateChange, version: int, audit: AuditContext)
    requires id in db.runs
    ensures Accepted(db, TransitionRun(id, change, Exactly(version), audit)) ==> db.runs[id].version == version
    ensures Accepted(db, TransitionTarget(id, tid, change, Exactly(version), audit)) ==>
              tid in db.runs[id].targets && db.runs[id].targets[tid].version == version
  {
    hide ValidId, ValidJustification, IsAdmin, Trim, Exercised, EventsOf, ReopenObjection, CompletionObjection,
         StoppedBarrier;
  }

  // ---- What a version counts ----

  /** The aggregate versions of the version-bearing events, in journal order. */
  function Bearing(events: seq<Event>): seq<int> {
    if events == [] then []
    else
      var n := |events| - 1;
      Bearing(events[..n]) + (if events[n].aggregateVersion != 0 then [events[n].aggregateVersion] else [])
  }

  predicate IsPhaseChange(e: Event) {
    e.kind.MaintenanceTransitioned? || e.kind.MaintenanceReopened? || e.kind.MaintenanceCompleted?
  }

  predicate HasCapture(events: seq<Event>) {
    exists i :: 0 <= i < |events| && events[i].kind.MaintenanceCaptured?
  }

  /** Phase changes after the capture. */
  function PhaseChanges(events: seq<Event>): nat {
    if events == [] then 0
    else
      var n := |events| - 1;
      PhaseChanges(events[..n]) + (if HasCapture(events[..n]) && IsPhaseChange(events[n]) then 1 else 0)
  }

  /** One target's own transitions and skips. */
  function Moves(events: seq<Event>, t: string): nat {
    if events == [] then 0
    else
      var n := |events| - 1;
      Moves(events[..n], t) + (if IsMoveOf(events[n], t) then 1 else 0)
  }

  predicate IsMoveOf(e: Event, t: string) {
    (e.kind.TargetTransitioned? || e.kind.TargetSkipped?) && e.targetId == t
  }

  function Upto(n: nat): seq<int> {
    seq(n, i => i + 1)
  }

  /** What one accepted event does to the rebuilt counts. */
  lemma CheckCounts(r: ReplayRun, e: Event, capture: Option<Capture>)
    requires r.revision >= 0 && Check(r, e, capture).Some?
    ensures var r' := Check(r, e, capture).value;
            && r'.revision == r.revision + (if e.aggregateVersion != 0 then 1 else 0)
            && (e.aggregateVersion != 0 ==> e.aggregateVersion == r'.revision)
            && (r'.captured <==> r.captured || e.kind.MaintenanceCaptured?)
            && (e.kind.MaintenanceCaptured? ==> !r.captured)
  {
    hide EventShapeOk, ParseTargets, AddCaptured, EventJustified;
  }

  lemma CheckTargetVersion(r: ReplayRun, e: Event, capture: Option<Capture>, t: string)
    requires Check(r, e, capture).Some? && !e.kind.MaintenanceCaptured? && t in Check(r, e, capture).value.targets
    ensures t in r.targets
    ensures Check(r, e, capture).value.targets[t].version
         == r.targets[t].version + (if r.captured && IsPhaseChange(e) then 1 else 0) + (if IsMoveOf(e, t) then 1 else 0)
  {
    hide EventShapeOk, EventJustified;
  }

  lemma {:induction false} AddedVersions(targets: map<string, ReplayTarget>, ts: seq<CaptureTarget>, t: string)
    requires t in AddCaptured(targets, ts)
    ensures (t in targets && AddCaptured(targets, ts)[t] == targets[t]) || AddCaptured(targets, ts)[t].version == 1
  {
    if ts == [] {
    } else {
      var n := |ts| - 1;
      if t != ts[n].id {
        AddedVersions(targets, ts[..n], t);
      }
    }
  }

  lemma HasCaptureAppend(events: seq<Event>, e: Event)
    ensures HasCapture(events + [e]) <==> HasCapture(events) || e.kind.MaintenanceCaptured?
  {
    if HasCapture(events) {
      var i :| 0 <= i < |events| && events[i].kind.MaintenanceCaptured?;
      assert (events + [e])[i].kind.MaintenanceCaptured?;
    }
    assert (events + [e])[|events|] == e;
  }

  predicate RevisionsCounted(events: seq<Event>, r: ReplayRun) {
    r.revision >= 0 && Bearing(events) == Upto(r.revision) && (r.captured <==> HasCapture(events))
  }

  ghost predicate TargetsCounted(events: seq<Event>, r: ReplayRun) {
    && (!r.captured ==> r.targets == map[] && PhaseChanges(events) == 0)
    && (forall t :: t !in r.targets ==> Moves(events, t) == 0)
    && (forall t :: t in r.targets ==> r.targets[t].version == 1 + PhaseChanges(events) + Moves(events, t))
  }

  lemma RevisionsCountedStep(events: seq<Event>, r: ReplayRun, e: Event, capture: Option<Capture>)
    requires RevisionsCounted(events, r) && Check(r, e, capture).Some?
    ensures RevisionsCounted(events + [e], Check(r, e, capture).value)
  {
    hide Check, HasCapture, Bearing, Upto;
    CheckCounts(r, e, capture);
    HasCaptureAppend(events, e);
    BearingAppend(events, e);
    UptoNext(r.revision);
  }

  lemma BearingAppend(events: seq<Event>, e: Event)
    ensures Bearing(events + [e]) == Bearing(events) + (if e.aggregateVersion != 0 then [e.aggregateVersion] else [])
  {
    assert (events + [e])[..|events|] == events;
  }

  lemma UptoNext(n: nat)
    ensures Upto(n + 1) == Upto(n) + [n + 1]
  {
  }

  lemma TargetsCountedStep(events: seq<Event>, r: ReplayRun, e: Event, capture: Option<Capture>)
    requires RevisionsCounted(events, r) && TargetsCounted(events, r) && Check(r, e, capture).Some?
    ensures TargetsCounted(events + [e], Check(r, e, capture).value)
  {
    hide Check, IsMoveOf, IsPhaseChange, HasCapture, Bearing, Upto;
    var r' := Check(r, e, capture).value;
    CheckCounts(r, e, capture);
    MovesNeedTarget(r, e, capture);
    CheckKeepsTargets(r, e, capture);
    CaptureStartsCounting(r, e, capture);
    assert (events + [e])[..|events|] == events;
    if e.kind.MaintenanceCaptured? {
      assert PhaseChanges(events + [e]) == 0;
      forall t
        ensures Moves(events + [e], t) == 0
      {
        assert r.targets == map[] && !IsMoveOf(e, t);
      }
    } else {
      forall t | t in r'.targets
        ensures t in r.targets
        ensures r'.targets[t].version == 1 + PhaseChanges(events + [e]) + Moves(events + [e], t)
      {
        CheckTargetVersion(r, e, capture, t);
      }
      assert !r'.captured ==> r'.targets == map[];
    }
  }

  /** Conservation for every journal the verifier accepts: the revision is the number of
      version-bearing events, which carry 1, 2, 3, ... in order; a target's version is 1 plus the phase
      changes since the capture plus its own moves. */
  lemma {:induction false} Conservation(events: seq<Event>, capture: Option<Capture>)
    requires ReplayAll(events, capture).Some?
    ensures RevisionsCounted(events, ReplayAll(events, capture).value)
    ensures TargetsCounted(events, ReplayAll(events, capture).value)
  {
    hide Check;
    if events == [] {
    } else {
      var n := |events| - 1;
      assert events == events[..n] + [events[n]];
      Conservation(events[..n], capture);
      hide RevisionsCounted, TargetsCounted;
      RevisionsCountedStep(events[..n], ReplayAll(events[..n], capture).value, events[n], capture);
      TargetsCountedStep(events[..n], ReplayAll(events[..n], capture).value, events[n], capture);
    }
  }

  lemma MovesNeedTarget(r: ReplayRun, e: Event, capture: Option<Capture>)
    requires Check(r, e, capture).Some?
    ensures forall t :: IsMoveOf(e, t) ==> t in r.targets
  {
    hide EventShapeOk, EventJustified;
  }

  lemma CaptureStartsCounting(r: ReplayRun, e: Event, capture: Option<Capture>)
    requires Check(r, e, capture).Some? && e.kind.MaintenanceCaptured? ==> r.targets == map[]
    ensures Check(r, e, capture).Some? && e.kind.MaintenanceCaptured? ==>
              && !IsPhaseChange(e)
              && forall t :: t in Check(r, e, capture).value.targets ==>
                   !IsMoveOf(e, t) && Check(r, e, capture).value.targets[t].version == 1
  {
    hide EventShapeOk, ParseTargets, AddCaptured;
    if Check(r, e, capture).Some? && e.kind.MaintenanceCaptured? {
      var ts := ParseTargets(capture.value.document).value;
      forall t | t in Check(r, e, capture).value.targets
        ensures Check(r, e, capture).value.targets[t].version == 1
      {
        AddedVersions(r.targets, ts, t);
      }
    }
  }

  /** The conservation law of the stored versions, for every reachable database. */
  lemma StoredVersions(calls: seq<Call>, id: string)
    requires id in Exec(EMPTY_DB, calls).runs
    ensures var db := Exec(EMPTY_DB, calls);
            var rec, events := db.runs[id], EventsOf(db.journal, id);
            && rec.version >= 1
            && Bearing(events) == Upto(rec.version)
            && forall t :: t in rec.targets ==> rec.targets[t].version == 1 + PhaseChanges(events) + Moves(events, t)
  {
    Reachable(calls);
    var db := Exec(EMPTY_DB, calls);
    var rec, events := db.runs[id], EventsOf(db.journal, id);
    hide Exec, EventsOf, ReplayAll, Bearing, PhaseChanges, Moves, JournalOk, LocksExclusive, CaptureOk, ValidId;
    assert RunOk(db, id);
    Conservation(events, rec.capture);
    forall t | t in rec.targets
      ensures rec.targets[t].version == 1 + PhaseChanges(events) + Moves(events, t)
    {
      assert t in MirrorTargets(rec.targets);
    }
  }
}
