/** The verifier as it runs (internal/store/verify.go): an object that applies one event after the
    other, and the loops that compare what it rebuilt with what is stored. */
module Verifier {
  import opened Lifecycle
  import opened Records
  import opened Writer
  import opened Replay
  import opened Invariant
  import opened Agreement

  class Replayer {
    var state: StateName
    var revision: int
    var captured: bool
    var targets: map<string, ReplayTarget>
    var physicalTransition: bool
    var created: Option<Created>

    function View(): ReplayRun
      reads this
    {
      ReplayRun(state, revision, captured, targets, physicalTransition, created)
    }

    constructor ()
      ensures View() == BLANK_REPLAY
    {
      state, revision, captured, targets, physicalTransition, created := NoState, 0, false, map[], false, None;
    }

    /** The loop of a capture event over the saved targets. */
    method AddTargets(ts: seq<CaptureTarget>)
      modifies this`targets
      ensures targets == AddCaptured(old(targets), ts)
    {
      assert ts[..0] == [];
      for i := 0 to |ts|
        invariant targets == AddCaptured(old(targets), ts[..i])
      {
        var initial := Captured;
        if ts[i].original.Stopped? {
          initial := Stopped;
        }
        assert ts[..i + 1][..i] == ts[..i];
        targets := targets[ts[i].id := ReplayTarget(initial, 1, ts[i].original)];
      }
      assert ts[..|ts|] == ts;
    }

    /** The loop of a phase change over the rebuilt targets. */
    method BumpTargetVersions()
      modifies this`targets
      ensures targets == BumpReplay(old(targets))
    {
      var remaining := targets.Keys;
      while remaining != {}
        invariant remaining <= targets.Keys == old(targets).Keys
        invariant forall t :: t in targets ==>
                    targets[t] == if t in remaining then old(targets)[t]
                        else old(targets)[t].(version := old(targets)[t].version + 1)
        decreases |remaining|
      {
        var t :| t in remaining;
        targets := targets[t := targets[t].(version := targets[t].version + 1)];
        remaining := remaining - {t};
      }
      assert targets == BumpReplay(old(targets));
    }

    /** The stop barrier over the rebuilt targets. */
    method AllStopped() returns (ok: bool)
      ensures ok <==> forall t :: t in targets ==> ReplayStopped(targets[t])
    {
      var remaining := targets.Keys;
      while remaining != {}
        invariant remaining <= targets.Keys
        invariant forall t :: t in targets && t !in remaining ==> ReplayStopped(targets[t])
        decreases |remaining|
      {
        var t :| t in remaining;
        var target := targets[t];
        if target.original.Running? || target.original.Stopped? {
          if !target.state.Stopped? && !target.state.Skipped? {
            return false;
          }
        } else if !target.state.Skipped? {
          return false;
        }
        remaining := remaining - {t};
      }
      return true;
    }

    method AllReconciled() returns (ok: bool)
      ensures ok <==> forall t :: t in targets ==> TargetCompletionAllowed(targets[t].original, targets[t].state)
    {
      var remaining := targets.Keys;
      while remaining != {}
        invariant remaining <= targets.Keys
        invariant forall t :: t in targets && t !in remaining ==>
                  TargetCompletionAllowed(targets[t].original, targets[t].state)
        decreases |remaining|
      {
        var t :| t in remaining;
        if !TargetCompletionAllowed(targets[t].original, targets[t].state) {
          return false;
        }
        remaining := remaining - {t};
      }
      return true;
    }

    method ApplyPhaseChange(e: Event) returns (ok: bool)
      requires e.kind.MaintenanceTransitioned? || e.kind.MaintenanceReopened? || e.kind.MaintenanceCompleted?
      modifies this
      ensures ok <==> ApplyRunEvent(old(View()), e).Some?
      ensures ok ==> View() == ApplyRunEvent(old(View()), e).value
    {
      hide EventJustified, IsAdmin, ReplayStopped, BumpReplay;
      if || revision == 0 || !e.resourceType.MaintenanceResource? || e.targetId != "" || e.fromState != state
         || e.fromVersion != revision || e.toVersion != revision + 1 || e.aggregateVersion != e.toVersion
         || !ValidMaintenanceTransition(state, e.toState)
      {
        return false;
      }
      if e.kind.MaintenanceReopened? {
        if !state.Failed? || !IsAdmin(e.role) || !EventJustified(e.payload) {
          return false;
        }
        if || (!captured && !e.toState.New?)
           || (captured && (e.toState.New? || e.toState.Completed? || e.toState.Cancelled?))
        {
          return false;
        }
      } else if state.Failed? {
        return false;
      }
      if !e.payload.TransitionPayload? {
        return false;
      }
      if e.toState.Captured? && !e.kind.MaintenanceReopened? {
        return false;
      }
      if e.toState.Cancelled? && captured && physicalTransition {
        return false;
      }
      if e.toState.Stopped? {
        var stopped := AllStopped();
        if !stopped {
          return false;
        }
      }
      if e.toState.Completed? {
        if !e.kind.MaintenanceCompleted? || targets == map[] {
          return false;
        }
        var reconciled := AllReconciled();
        if !reconciled {
          return false;
        }
      } else if e.kind.MaintenanceCompleted? {
        return false;
      }
      if captured {
        BumpTargetVersions();
      }
      state, revision := e.toState, e.toVersion;
      return true;
    }

    method ApplyMove(e: Event) returns (ok: bool)
      requires e.kind.TargetTransitioned? || e.kind.TargetSkipped?
      modifies this
      ensures ok <==> ApplyTargetEvent(old(View()), e).Some?
      ensures ok ==> View() == ApplyTargetEvent(old(View()), e).value
    {
      hide EventJustified, IsAdmin;
      if || revision == 0 || IsMaintenanceTerminal(state) || !e.resourceType.TargetResource? || e.targetId == ""
         || e.aggregateVersion != revision + 1
      {
        return false;
      }
      if e.targetId !in targets {
        return false;
      }
      var target := targets[e.targetId];
      if || e.fromState != target.state || e.fromVersion != target.version || e.toVersion != target.version + 1
         || !ValidTargetTransition(target.state, e.toState)
      {
        return false;
      }
      if e.toState.Skipped? {
        if !e.kind.TargetSkipped? || !IsAdmin(e.role) || !EventJustified(e.payload) {
          return false;
        }
      } else {
        if || !e.kind.TargetTransitioned? || target.original.Degraded? || target.original.Unknown?
           || target.original.Stopped?
           || !TargetPhaseAllowed(state, e.toState)
        {
          return false;
        }
        physicalTransition := true;
      }
      if !e.payload.TransitionPayload? {
        return false;
      }
      targets := targets[e.targetId := target.(state := e.toState, version := e.toVersion)];
      revision := e.aggregateVersion;
      return true;
    }

    /** replayMaintenance.apply, after the shape check of its caller. A refusal ends the verification,
        so nothing is said of the object after one. */
    method CheckEvent(e: Event, ts: seq<CaptureTarget>, capture: Option<Capture>) returns (ok: bool)
      requires CaptureLoads(capture) && ts == CapturedTargets(capture)
      modifies this
      ensures ok <==> Check(old(View()), e, capture).Some?
      ensures ok ==> View() == Check(old(View()), e, capture).value
    {
      hide ParseTargets, AddCaptured, EventShapeOk, ApplyRunEvent, ApplyTargetEvent;
      if !EventShapeOk(e) {
        return false;
      }
      match e.kind
      case MaintenanceCreated =>
        if ApplyCreated(View(), e).None? {
          return false;
        }
        state, revision := New, 1;
        created := Some(CreatedRun(e.payload.id, e.payload.identity));
        return true;
      case MaintenanceCaptured =>
        if || capture.None? || captured || e.fromState != state || e.fromVersion != revision || !e.toState.Captured?
           || e.toVersion != revision + 1 || e.aggregateVersion != e.toVersion
        {
          return false;
        }
        if e.payload != CapturePayload(capture.value.digest, |ts|) {
          return false;
        }
        AddTargets(ts);
        state, revision, captured := Captured, e.toVersion, true;
        return true;
      case MaintenanceTransitioned | MaintenanceReopened | MaintenanceCompleted =>
        ok := ApplyPhaseChange(e);
      case TargetTransitioned | TargetSkipped =>
        ok := ApplyMove(e);
      case TargetObserved =>
        ok := ApplyObserved(View(), e).Some?;
      case _ =>
        return false;
    }
  }

  /** verifyMaintenanceReplay: load the capture, fold the events, compare run and targets. */
  method VerifyRun(id: string, rec: RunRecord, events: seq<Event>) returns (ok: bool)
    ensures ok == RunVerified(id, rec, events)
  {
    hide ParseTargets, Check, SameIdentity;
    if rec.capture.Some? {
      if rec.capture.value.digest != Sha256(rec.capture.value.document) {
        return false;
      }
      var parsed := ParseCaptureTargets(rec.capture.value.document);
      if parsed.None? {
        return false;
      }
    }
    var ts := CapturedTargets(rec.capture);
    var replay := new Replayer();
    assert events[..0] == [];
    for i := 0 to |events|
      invariant fresh(replay)
      invariant ReplayAll(events[..i], rec.capture) == Some(replay.View())
    {
      assert events[..i + 1][..i] == events[..i];
      var accepted := replay.CheckEvent(events[i], ts, rec.capture);
      if !accepted {
        RefusalIsFinal(events, rec.capture, i + 1);
        return false;
      }
    }
    assert events[..|events|] == events;
    if || |events| == 0 || replay.state != rec.state || replay.revision != rec.version
       || replay.captured != rec.capture.Some? || replay.created != Some(CreatedRun(id, rec.identity))
    {
      return false;
    }
    if |rec.targets| != |ts| || |rec.targets| != |replay.targets| {
      return false;
    }
    ok := VerifyTargets(rec.targets, ts, replay.targets);
  }

  method VerifyTargets(targets: map<string, Target>, ts: seq<CaptureTarget>, replayed: map<string, ReplayTarget>)
      returns (ok: bool)
    ensures ok <==> forall t :: t in targets ==> TargetVerified(t, targets[t], ts, replayed)
  {
    var remaining := targets.Keys;
    while remaining != {}
      invariant remaining <= targets.Keys
      invariant forall t :: t in targets && t !in remaining ==> TargetVerified(t, targets[t], ts, replayed)
      decreases |remaining|
    {
      var t :| t in remaining;
      if !TargetVerified(t, targets[t], ts, replayed) {
        return false;
      }
      remaining := remaining - {t};
    }
    return true;
  }

  /** One refused event refuses every journal that begins so. */
  lemma {:induction false} RefusalIsFinal(events: seq<Event>, capture: Option<Capture>, i: int)
    requires 0 <= i <= |events| && ReplayAll(events[..i], capture).None?
    ensures ReplayAll(events, capture).None?
  {
    hide Check;
    if i == |events| {
      assert events[..i] == events;
    } else {
      var n := |events| - 1;
      assert events[..n][..i] == events[..i];
      RefusalIsFinal(events[..n], capture, i);
    }
  }

  /** The question of verifyLockExclusivity, asked row by row. */
  predicate NoOverlap(db: Db) {
    forall a, b, t, u ::
      && a in db.runs && b in db.runs && t in db.runs[a].targets && u in db.runs[b].targets
      && !IsClosed(db.runs[a].state) && !IsClosed(db.runs[b].state)
      && db.runs[a].targets[t].lockKey == db.runs[b].targets[u].lockKey
      ==> a == b
  }

  lemma NoOverlapIsExclusive(db: Db)
    ensures NoOverlap(db) <==> LocksExclusive(db)
  {
    if LocksExclusive(db) {
      forall a, b, t, u |
        && a in db.runs && b in db.runs && t in db.runs[a].targets && u in db.runs[b].targets
        && !IsClosed(db.runs[a].state) && !IsClosed(db.runs[b].state)
        && db.runs[a].targets[t].lockKey == db.runs[b].targets[u].lockKey
        ensures a == b
      {
        assert HoldsLock(db.runs[a], db.runs[a].targets[t].lockKey)
            && HoldsLock(db.runs[b], db.runs[a].targets[t].lockKey);
      }
    }
  }

  /** verifyApplicationData: the locks, every run, every event of no run. */
  method VerifyDatabase(db: Db) returns (ok: bool)
    ensures ok <==> Verified(db)
  {
    hide RunVerified, LocksExclusive, NoOverlap, EventShapeOk, GlobalEventOk, EventsOf;
    NoOverlapIsExclusive(db);
    if !NoOverlap(db) {
      return false;
    }
    var remaining := db.runs.Keys;
    while remaining != {}
      invariant remaining <= db.runs.Keys
      invariant forall id :: id in db.runs && id !in remaining ==>
                RunVerified(id, db.runs[id], EventsOf(db.journal, id))
      decreases |remaining|
    {
      var id :| id in remaining;
      var verified := VerifyRun(id, db.runs[id], EventsOf(db.journal, id));
      if !verified {
        return false;
      }
      remaining := remaining - {id};
    }
    for i := 0 to |db.journal|
      invariant forall k :: 0 <= k < i && db.journal[k].maintenanceId == "" ==>
                  EventShapeOk(db.journal[k]) && GlobalEventOk(db.journal[k])
    {
      if db.journal[i].maintenanceId == "" && !(EventShapeOk(db.journal[i]) && GlobalEventOk(db.journal[i])) {
        return false;
      }
    }
    return true;
  }
}
