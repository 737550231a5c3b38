/** What the journal says about the machines themselves: which target states each phase allows, that a
    retry repeats the step that failed, and that nothing is started that was not first stopped. The
    lemmas hold for every journal the verifier accepts, and so for every stored run. */
module Coherence {
  import opened Lifecycle
  import opened Records
  import opened Writer
  import opened Replay
  import opened Invariant
  import opened Histories
  import opened Versions

  // ---- What each original state allows ----

  predicate OriginalAllows(t: ReplayTarget) {
    && ValidOriginalState(t.original) && ValidTargetState(t.state)
    && (t.original.Stopped? ==> t.state.Stopped? || t.state.Skipped?)
    && (t.original.Degraded? || t.original.Unknown? ==> t.state.Captured? || t.state.Skipped?)
  }

  // ---- What each phase allows ----

  predicate PhaseAllows(phase: StateName, t: ReplayTarget) {
    match phase
    case Captured | Cancelled => t.state == InitialState(t.original) || t.state.Skipped?
    case Stopping => t.original.Running? ==> !t.state.Starting? && !t.state.Healthy?
    case Stopped | Waiting => ReplayStopped(t)
    case Starting =>
      if t.original.Running? then !t.state.Captured? && !t.state.Stopping? else ReplayStopped(t)
    case Completed => TargetCompletionAllowed(t.original, t.state)
    case _ => false
  }

  /** The states a coherent target may have, phase by phase: what was running, what was stopped, and what was
      neither. */
  function CoherentStates(phase: StateName, original: StateName): set<StateName> {
    match original
    case Running =>
      (match phase
       case Captured | Cancelled => {Captured, Skipped}
       case Stopping => {Captured, Stopping, Stopped, Failed, Skipped}
       case Stopped | Waiting => {Stopped, Skipped}
       case Starting => {Stopped, Starting, Healthy, Failed, Skipped}
       case Completed => {Healthy, Skipped}
       case _ => {})
    case Stopped =>
      (match phase
       case Captured | Cancelled | Stopping | Stopped | Waiting | Starting | Completed => {Stopped, Skipped}
       case _ => {})
    case Degraded | Unknown =>
      (match phase
       case Captured | Cancelled | Stopping => {Captured, Skipped}
       case Stopped | Waiting | Starting | Completed => {Skipped}
       case _ => {})
    case _ => {}
  }

  lemma CoherenceMeans(phase: StateName, t: ReplayTarget)
    ensures PhaseAllows(phase, t) && OriginalAllows(t) <==> t.state in CoherentStates(phase, t.original)
  {
  }

  function ReopenedSinceCapture(events: seq<Event>): bool {
    if events == [] then false
    else
      var n := |events| - 1;
      ReopenedSinceCapture(events[..n]) || (HasCapture(events[..n]) && events[n].kind.MaintenanceReopened?)
  }

  /** The run entered `stopped`, the one phase whose entry checks the barrier, and was not reopened since. */
  function PassedBarrier(events: seq<Event>): bool {
    if events == [] then false
    else
      var n := |events| - 1;
      if events[n].kind.MaintenanceCaptured? then false
      else if IsPhaseChange(events[n]) && events[n].toState.Stopped? then true
      else PassedBarrier(events[..n]) && !events[n].kind.MaintenanceReopened?
  }

  /** The phase that the last phase change left. */
  function PhaseBefore(events: seq<Event>): StateName {
    if events == [] then NoState
    else
      var n := |events| - 1;
      if IsPhaseChange(events[n]) then events[n].fromState else PhaseBefore(events[..n])
  }

  /** The phase a run is in; of a failed run, the phase it failed in. */
  function PhaseIn(events: seq<Event>, state: StateName): StateName {
    if state.Failed? then PhaseBefore(events) else state
  }

  /** The last transition or skip of one target. */
  function LastMove(events: seq<Event>, t: string): Option<Event> {
    if events == [] then None
    else
      var n := |events| - 1;
      if IsMoveOf(events[n], t) then Some(events[n]) else LastMove(events[..n], t)
  }

  /** A failed target failed in the step named by the phase. */
  predicate FailedHere(events: seq<Event>, phase: StateName, t: string, target: ReplayTarget) {
    target.state.Failed? ==>
      && LastMove(events, t).Some? && LastMove(events, t).value.toState.Failed?
      && LastMove(events, t).value.fromState == phase
  }

  ghost predicate Originals(r: ReplayRun) {
    forall t :: t in r.targets ==> OriginalAllows(r.targets[t])
  }

  /** Every target fits the phase, or the phase in which the run failed. */
  ghost predicate Pinned(events: seq<Event>, r: ReplayRun) {
    forall t :: t in r.targets ==> PhaseAllows(PhaseIn(events, r.state), r.targets[t])
  }

  ghost predicate FailuresHere(events: seq<Event>, r: ReplayRun) {
    forall t :: t in r.targets ==> FailedHere(events, PhaseIn(events, r.state), t, r.targets[t])
  }

  /** What can be asked of a failed run before it is reopened: its targets fit the phase it is to enter,
      and those that failed did so in that phase's step. */
  ghost predicate FitsPhase(events: seq<Event>, targets: map<string, ReplayTarget>, phase: StateName) {
    forall t :: t in targets ==> PhaseAllows(phase, targets[t]) && FailedHere(events, phase, t, targets[t])
  }

  /** The last reopening of the run, if there is one since the capture, entered a phase that its targets
      fitted; or the run has passed the stop barrier since. */
  ghost predicate Settled(events: seq<Event>, capture: Option<Capture>) {
    events == [] ||
    var n := |events| - 1;
    var prefix, e := events[..n], events[n];
    if e.kind.MaintenanceCaptured? || (IsPhaseChange(e) && e.toState.Stopped?) then true
    else if e.kind.MaintenanceReopened? then
      ReplayAll(prefix, capture).Some? && FitsPhase(prefix, ReplayAll(prefix, capture).value.targets, e.toState)
    else Settled(prefix, capture)
  }

  lemma {:induction false} AddedTargetsInitial(ts: seq<CaptureTarget>, t: string)
    requires forall i :: 0 <= i < |ts| ==> ValidOriginalState(ts[i].original)
    requires t in AddCaptured(map[], ts)
    ensures var target := AddCaptured(map[], ts)[t];
            ValidOriginalState(target.original) && target.state == InitialState(target.original)
  {
    var n := |ts| - 1;
    if t != ts[n].id {
      AddedTargetsInitial(ts[..n], t);
    }
  }

  lemma CaptureInitial(r: ReplayRun, e: Event, capture: Option<Capture>)
    requires e.kind.MaintenanceCaptured? && r.targets == map[] && Check(r, e, capture).Some?
    ensures var r' := Check(r, e, capture).value;
            r'.state.Captured? && forall t :: t in r'.targets ==>
              ValidOriginalState(r'.targets[t].original) && r'.targets[t].state == InitialState(r'.targets[t].original)
  {
    hide EventShapeOk, ParseTargets, AddCaptured;
    var ts := ParseTargets(capture.value.document).value;
    var r' := Check(r, e, capture).value;
    forall t | t in r'.targets
      ensures ValidOriginalState(r'.targets[t].original) && r'.targets[t].state == InitialState(r'.targets[t].original)
    {
      AddedTargetsInitial(ts, t);
    }
  }

  /** What an accepted event other than a capture does to one target. */
  lemma OneTarget(r: ReplayRun, e: Event, capture: Option<Capture>, t: string)
    requires Check(r, e, capture).Some? && !e.kind.MaintenanceCaptured?
    requires t in Check(r, e, capture).value.targets
    ensures var r' := Check(r, e, capture).value;
            && t in r.targets && r'.targets[t].original == r.targets[t].original
            && (if IsMoveOf(e, t) then
                  && r'.state == r.state && !IsMaintenanceTerminal(r.state)
                  && e.fromState == r.targets[t].state && e.toState == r'.targets[t].state
                  && ValidTargetTransition(e.fromState, e.toState)
                  && (|| e.toState.Skipped?
                      || (&& r.targets[t].original != Stopped && r.targets[t].original != Degraded
                          && r.targets[t].original != Unknown && TargetPhaseAllowed(r.state, e.toState)))
                else r'.targets[t].state == r.targets[t].state)
  {
    hide EventShapeOk, EventJustified;
  }

  /** What an accepted event does to the phase. */
  lemma OnePhase(r: ReplayRun, e: Event, capture: Option<Capture>)
    requires Check(r, e, capture).Some? && !e.kind.MaintenanceCaptured?
    ensures var r' := Check(r, e, capture).value;
            if IsPhaseChange(e) then
              && ValidMaintenanceTransition(r.state, r'.state)
              && (r.state.Failed? <==> e.kind.MaintenanceReopened?)
              && (r'.state.Captured? ==> r.state.Failed?)
              && (r'.state.Stopped? ==> forall t :: t in r.targets ==> ReplayStopped(r.targets[t]))
              && (r'.state.Completed? ==> forall t :: t in r.targets ==>
                 TargetCompletionAllowed(r.targets[t].original, r.targets[t].state))
            else r'.state == r.state || (r.revision == 0 && r'.state.New?)
  {
    hide EventShapeOk, EventJustified;
  }

  lemma OriginalsStep(r: ReplayRun, e: Event, capture: Option<Capture>)
    requires Originals(r) && Check(r, e, capture).Some?
    requires e.kind.MaintenanceCaptured? ==> r.targets == map[]
    ensures Originals(Check(r, e, capture).value)
  {
    hide Check;
    if e.kind.MaintenanceCaptured? {
      CaptureInitial(r, e, capture);
    } else {
      forall t | t in Check(r, e, capture).value.targets
        ensures OriginalAllows(Check(r, e, capture).value.targets[t])
      {
        OneTarget(r, e, capture, t);
      }
    }
  }

  /** Where the phase of an event that is no capture comes from. */
  lemma PhaseInStep(events: seq<Event>, r: ReplayRun, e: Event, capture: Option<Capture>)
    requires Check(r, e, capture).Some? && !e.kind.MaintenanceCaptured? && r.revision != 0
    ensures var r' := Check(r, e, capture).value;
            PhaseIn(events + [e], r'.state)
            == if !IsPhaseChange(e) then PhaseIn(events, r.state) else if r'.state.Failed? then r.state else r'.state
    ensures IsPhaseChange(e) ==> e.toState == Check(r, e, capture).value.state
  {
    hide EventShapeOk, EventJustified;
    assert (events + [e])[..|events|] == events;
  }

  lemma PinnedStep(events: seq<Event>, r: ReplayRun, e: Event, capture: Option<Capture>)
    requires Originals(r) && Pinned(events, r) && FailuresHere(events, r) && Check(r, e, capture).Some?
    requires e.kind.MaintenanceCaptured? || r.revision == 0 ==> r.targets == map[]
    requires !(e.kind.MaintenanceReopened? && r.targets != map[])
    ensures Pinned(events + [e], Check(r, e, capture).value)
    ensures FailuresHere(events + [e], Check(r, e, capture).value)
  {
    hide Check, IsPhaseChange, PhaseBefore;
    var r' := Check(r, e, capture).value;
    assert (events + [e])[..|events|] == events;
    if e.kind.MaintenanceCaptured? {
      CaptureFits(events, r, e, capture);
    } else if r.revision == 0 {
      forall t | t in r'.targets
        ensures t in r.targets
      {
        OneTarget(r, e, capture, t);
      }
    } else {
      OnePhase(r, e, capture);
      PhaseInStep(events, r, e, capture);
      forall t | t in r'.targets
        ensures PhaseAllows(PhaseIn(events + [e], r'.state), r'.targets[t])
        ensures FailedHere(events + [e], PhaseIn(events + [e], r'.state), t, r'.targets[t])
      {
        OneTarget(r, e, capture, t);
        assert LastMove(events + [e], t) == if IsMoveOf(e, t) then Some(e) else LastMove(events, t);
        assert PhaseAllows(PhaseIn(events, r.state), r.targets[t]) && OriginalAllows(r.targets[t]);
        assert FailedHere(events, PhaseIn(events, r.state), t, r.targets[t]);
      }
    }
  }

  lemma CaptureFits(events: seq<Event>, r: ReplayRun, e: Event, capture: Option<Capture>)
    requires e.kind.MaintenanceCaptured? && r.targets == map[] && Check(r, e, capture).Some?
    ensures Pinned(events + [e], Check(r, e, capture).value)
    ensures FailuresHere(events + [e], Check(r, e, capture).value)
  {
    hide Check;
    CaptureInitial(r, e, capture);
  }

  /** Entering `stopped` settles a run whatever was reopened before. */
  lemma BarrierPins(events: seq<Event>, r: ReplayRun, e: Event, capture: Option<Capture>)
    requires Check(r, e, capture).Some? && IsPhaseChange(e) && e.toState.Stopped? && r.revision != 0
    ensures Pinned(events + [e], Check(r, e, capture).value)
    ensures FailuresHere(events + [e], Check(r, e, capture).value)
  {
    hide Check;
    var r' := Check(r, e, capture).value;
    OnePhase(r, e, capture);
    PhaseInStep(events, r, e, capture);
    forall t | t in r'.targets
      ensures ReplayStopped(r'.targets[t])
    {
      OneTarget(r, e, capture, t);
      PhaseChangeMovesNothing(e, t);
    }
  }

  lemma PhaseChangeMovesNothing(e: Event, t: string)
    ensures IsPhaseChange(e) ==> !IsMoveOf(e, t)
  {
  }

  /** A reopening leaves every target, and every last move, as it was. */
  lemma ReopeningPins(events: seq<Event>, r: ReplayRun, e: Event, capture: Option<Capture>)
    requires Check(r, e, capture).Some? && e.kind.MaintenanceReopened?
    ensures Pinned(events + [e], Check(r, e, capture).value) && FailuresHere(events + [e], Check(r, e, capture).value)
            <==> FitsPhase(events, r.targets, e.toState)
  {
    hide Check, PhaseAllows, PhaseBefore;
    var r' := Check(r, e, capture).value;
    PhaseChangeIsNumbered(r, e, capture);
    OnePhase(r, e, capture);
    PhaseInStep(events, r, e, capture);
    CheckKeepsTargets(r, e, capture);
    assert (events + [e])[..|events|] == events;
    forall t | t in r.targets || t in r'.targets
      ensures t in r.targets && t in r'.targets && LastMove(events + [e], t) == LastMove(events, t)
      ensures PhaseAllows(e.toState, r'.targets[t]) <==> PhaseAllows(e.toState, r.targets[t])
      ensures r'.targets[t].state == r.targets[t].state
    {
      OneTarget(r, e, capture, t);
      PhaseChangeMovesNothing(e, t);
      VersionIsNoMatter(e.toState, r.targets[t], r'.targets[t]);
    }
  }

  lemma VersionIsNoMatter(phase: StateName, a: ReplayTarget, b: ReplayTarget)
    requires a.state == b.state && a.original == b.original
    ensures PhaseAllows(phase, a) <==> PhaseAllows(phase, b)
  {
  }

  /** For every accepted journal whose run is settled, the failed phase included. */
  lemma {:induction false} PinnedJournal(events: seq<Event>, capture: Option<Capture>)
    requires ReplayAll(events, capture).Some?
    ensures Originals(ReplayAll(events, capture).value)
    ensures Settled(events, capture) ==>
              Pinned(events, ReplayAll(events, capture).value) && FailuresHere(events, ReplayAll(events, capture).value)
  {
    hide Check;
    if events == [] {
    } else {
      var n := |events| - 1;
      var prefix, e := events[..n], events[n];
      assert events == prefix + [e];
      PinnedJournal(prefix, capture);
      var r := ReplayAll(prefix, capture).value;
      Conservation(prefix, capture);
      if r.revision == 0 {
        UnnumberedIsEmpty(prefix, capture);
      }
      CheckCounts(r, e, capture);
      OriginalsStep(r, e, capture);
      hide Pinned, FailuresHere, Originals, FitsPhase;
      if Settled(events, capture) {
        if e.kind.MaintenanceCaptured? {
          CaptureFits(prefix, r, e, capture);
        } else if IsPhaseChange(e) && e.toState.Stopped? {
          PhaseChangeIsNumbered(r, e, capture);
          BarrierPins(prefix, r, e, capture);
        } else if e.kind.MaintenanceReopened? {
          ReopeningPins(prefix, r, e, capture);
        } else {
          PinnedStep(prefix, r, e, capture);
        }
      }
    }
  }

  /** Reopening is the one event after which a run may not fit its phase, and this is exactly when it
      does: the targets fitted the phase before. */
  lemma ReopeningSettles(events: seq<Event>, e: Event, capture: Option<Capture>)
    requires ReplayAll(events + [e], capture).Some? && e.kind.MaintenanceReopened?
    ensures ReplayAll(events, capture).Some?
    ensures var r, r' := ReplayAll(events, capture).value, ReplayAll(events + [e], capture).value;
            Pinned(events + [e], r') && FailuresHere(events + [e], r') <==> FitsPhase(events, r.targets, e.toState)
  {
    assert (events + [e])[..|events|] == events;
    hide Check, Pinned, FailuresHere, FitsPhase;
    ReopeningPins(events, ReplayAll(events, capture).value, e, capture);
  }

  /** Journals that are settled by what their events alone show: not reopened since the capture, past the
      stop barrier since the last reopening, or reopened for the very phase in which a settled run failed. */
  lemma {:induction false} SettledByEvents(events: seq<Event>, capture: Option<Capture>)
    requires ReplayAll(events, capture).Some?
    ensures !ReopenedSinceCapture(events) || PassedBarrier(events) ==> Settled(events, capture)
    ensures events != [] && ResumesFailedPhase(events, capture) ==> Settled(events, capture)
  {
    hide Check, HasCapture;
    if events == [] {
    } else {
      var n := |events| - 1;
      var prefix, e := events[..n], events[n];
      assert events == prefix + [e];
      SettledByEvents(prefix, capture);
      Conservation(prefix, capture);
      var r := ReplayAll(prefix, capture).value;
      hide FitsPhase, Pinned, FailuresHere;
      if e.kind.MaintenanceReopened? {
        if !HasCapture(prefix) {
          NothingToFit(prefix, r, e.toState);
        } else if ResumesFailedPhase(events, capture) {
          PinnedJournal(prefix, capture);
          OnePhase(r, e, capture);
          FailedRunFits(prefix, r);
        }
      }
    }
  }

  /** A settled run failed, and its last event reopens it for the phase it failed in. */
  ghost predicate ResumesFailedPhase(events: seq<Event>, capture: Option<Capture>)
    requires events != []
  {
    var n := |events| - 1;
    && events[n].kind.MaintenanceReopened? && events[n].toState == PhaseBefore(events[..n])
    && Settled(events[..n], capture)
  }

  lemma NothingToFit(events: seq<Event>, r: ReplayRun, phase: StateName)
    requires r.targets == map[]
    ensures FitsPhase(events, r.targets, phase)
  {
  }

  lemma FailedRunFits(events: seq<Event>, r: ReplayRun)
    requires r.state.Failed? && Pinned(events, r) && FailuresHere(events, r)
    ensures FitsPhase(events, r.targets, PhaseBefore(events))
  {
  }

  lemma PhaseChangeIsNumbered(r: ReplayRun, e: Event, capture: Option<Capture>)
    requires Check(r, e, capture).Some? && IsPhaseChange(e)
    ensures r.revision != 0
  {
    hide EventShapeOk, EventJustified;
  }

  /** Nothing precedes the first version. */
  lemma UnnumberedIsEmpty(events: seq<Event>, capture: Option<Capture>)
    requires ReplayAll(events, capture).Some? && ReplayAll(events, capture).value.revision == 0
    ensures ReplayAll(events, capture).value.targets == map[] && !HasCapture(events)
  {
    hide Check;
    Conservation(events, capture);
    if HasCapture(events) {
      CaptureIsNumbered(events, capture);
    }
  }

  lemma {:induction false} CaptureIsNumbered(events: seq<Event>, capture: Option<Capture>)
    requires ReplayAll(events, capture).Some? && HasCapture(events)
    ensures ReplayAll(events, capture).value.revision > 0
  {
    hide Check;
    var n := |events| - 1;
    var prefix, e := events[..n], events[n];
    assert events == prefix + [e];
    HasCaptureAppend(prefix, e);
    Conservation(prefix, capture);
    CheckCounts(ReplayAll(prefix, capture).value, e, capture);
    if HasCapture(prefix) {
      CaptureIsNumbered(prefix, capture);
    } else {
      CaptureHasVersion(ReplayAll(prefix, capture).value, e, capture);
    }
  }

  lemma CaptureHasVersion(r: ReplayRun, e: Event, capture: Option<Capture>)
    requires Check(r, e, capture).Some? && e.kind.MaintenanceCaptured? && r.revision >= 0
    ensures e.aggregateVersion != 0
  {
    hide EventShapeOk, ParseTargets, AddCaptured;
  }

  lemma MirroredTarget(rec: RunRecord, t: string)
    requires t in rec.targets
    ensures t in MirrorTargets(rec.targets)
    ensures MirrorTargets(rec.targets)[t] == ReplayTarget(rec.targets[t].state, rec.targets[t].version,
            rec.targets[t].original)
  {
  }

  /** Phase coherence of the stored runs. While a run is stopped, every target is stopped or skipped,
      and those captured as neither running nor stopped are skipped, however the run came there. In a
      run that was not reopened since its capture, or has passed the stop barrier since its last reopening,
      or was reopened for a phase its targets fitted, every phase pins the states its targets may be in,
      a failed run's targets still fit the phase it failed in, and a failed target failed in the step of
      that phase. */
  lemma PhaseCoherence(calls: seq<Call>, id: string, t: string)
    requires id in Exec(EMPTY_DB, calls).runs && t in Exec(EMPTY_DB, calls).runs[id].targets
    ensures var db := Exec(EMPTY_DB, calls);
            var rec, events := db.runs[id], EventsOf(db.journal, id);
            var target := ReplayTarget(rec.targets[t].state, rec.targets[t].version, rec.targets[t].original);
            var phase := PhaseIn(events, rec.state);
            && OriginalAllows(target)
            && (rec.state.Stopped? ==> ReplayStopped(target))
            && (!ReopenedSinceCapture(events) || PassedBarrier(events) || Settled(events, rec.capture) ==>
                  target.state in CoherentStates(phase, target.original) && FailedHere(events, phase, t, target))
  {
    var db := Exec(EMPTY_DB, calls);
    Reachable(calls);
    hide Exec, JournalOk, LocksExclusive, CaptureOk, EventsOf, Settled, PhaseIn, PhaseAllows, FailedHere, ReplayAll,
         ReopenedSinceCapture, PassedBarrier;
    var rec, events := db.runs[id], EventsOf(db.journal, id);
    assert RunOk(db, id);
    SettledByEvents(events, rec.capture);
    PinnedJournal(events, rec.capture);
    MirroredTarget(rec, t);
    CoherenceMeans(PhaseIn(events, rec.state), MirrorTargets(rec.targets)[t]);
  }

  // ---- While waiting ----

  /** The number of events up to and including the last phase change. */
  function PhaseStart(events: seq<Event>): (k: nat)
    ensures k <= |events|
  {
    if events == [] then 0
    else if IsPhaseChange(events[|events| - 1]) then |events|
    else PhaseStart(events[..|events| - 1])
  }

  ghost predicate SkippedSince(events: seq<Event>, k: nat, t: string) {
    exists j :: k <= j < |events| && events[j].kind.TargetSkipped? && events[j].targetId == t
  }

  /** A target of a waiting run is behind the stop barrier if and only if it was when the run began to
      wait, or an administrator has skipped it since. */
  lemma {:induction false} WaitingTarget(events: seq<Event>, capture: Option<Capture>, t: string)
    requires ReplayAll(events, capture).Some? && ReplayAll(events, capture).value.state.Waiting?
    requires t in ReplayAll(events, capture).value.targets
    ensures var k := PhaseStart(events);
            && ReplayAll(events[..k], capture).Some? && t in ReplayAll(events[..k], capture).value.targets
            && (ReplayStopped(ReplayAll(events, capture).value.targets[t]) <==>
                  ReplayStopped(ReplayAll(events[..k], capture).value.targets[t]) || SkippedSince(events, k, t))
  {
    hide Check;
    var n := |events| - 1;
    var prefix, e := events[..n], events[n];
    var r, k := ReplayAll(prefix, capture).value, PhaseStart(events);
    if IsPhaseChange(e) {
      assert events[..k] == events;
    } else {
      NoCaptureWhileWaiting(r, e, capture);
      OnePhase(r, e, capture);
      OneTarget(r, e, capture, t);
      MoveKind(r, e, capture);
      WaitingTarget(prefix, capture, t);
      assert prefix[..k] == events[..k];
      hide ReplayAll, ReplayStopped;
      SkippedSinceAppend(prefix, e, k, t);
      assert prefix + [e] == events;
      OneWaitingStep(r.targets[t], Check(r, e, capture).value.targets[t], e, t);
    }
  }

  lemma NoCaptureWhileWaiting(r: ReplayRun, e: Event, capture: Option<Capture>)
    requires Check(r, e, capture).Some?
    ensures e.kind.MaintenanceCaptured? ==> !Check(r, e, capture).value.state.Waiting?
  {
    hide EventShapeOk, ParseTargets, AddCaptured;
  }

  lemma SkippedSinceAppend(events: seq<Event>, e: Event, k: nat, t: string)
    requires k <= |events|
    ensures SkippedSince(events + [e], k, t) <==>
              SkippedSince(events, k, t) || (e.kind.TargetSkipped? && e.targetId == t)
  {
    assert (events + [e])[|events|] == e;
    if j :| k <= j < |events| && events[j].kind.TargetSkipped? && events[j].targetId == t {
      assert (events + [e])[j] == events[j];
    }
  }

  lemma OneWaitingStep(before: ReplayTarget, after: ReplayTarget, e: Event, t: string)
    requires after.original == before.original
    requires if IsMoveOf(e, t) then after.state.Skipped? && e.kind.TargetSkipped? else after.state == before.state
    ensures ReplayStopped(after) <==> ReplayStopped(before) || (e.kind.TargetSkipped? && e.targetId == t)
  {
  }

  // ---- Retries ----

  /** A retry always enters the step of the run's current phase. */
  lemma RetryFollowsPhase(events: seq<Event>, capture: Option<Capture>, j: int)
    requires ReplayAll(events, capture).Some? && 0 <= j < |events|
    requires events[j].kind.TargetTransitioned? && events[j].fromState.Failed?
    ensures ReplayAll(events[..j], capture).Some? && events[j].toState == ReplayAll(events[..j], capture).value.state
  {
    hide Check;
    ReplayPrefix(events, capture, j);
    ReplayPrefix(events, capture, j + 1);
    assert events[..j + 1][..j] == events[..j];
    RetryEntersPhase(ReplayAll(events[..j], capture).value, events[j], capture);
  }

  lemma RetryEntersPhase(r: ReplayRun, e: Event, capture: Option<Capture>)
    requires Check(r, e, capture).Some? && e.kind.TargetTransitioned? && e.fromState.Failed?
    ensures e.toState == r.state
    ensures e.targetId in r.targets && r.targets[e.targetId].state.Failed? && !r.state.Failed?
  {
    hide EventShapeOk, EventJustified;
  }

  lemma {:induction false} ReplayPrefix(events: seq<Event>, capture: Option<Capture>, j: int)
    requires ReplayAll(events, capture).Some? && 0 <= j <= |events|
    ensures ReplayAll(events[..j], capture).Some?
  {
    hide Check;
    if j < |events| {
      var n := |events| - 1;
      ReplayPrefix(events[..n], capture, j);
      assert events[..n][..j] == events[..j];
    } else {
      assert events[..j] == events;
    }
  }

  lemma {:induction false} ReopenedPrefix(events: seq<Event>, j: int)
    requires 0 <= j <= |events| && !ReopenedSinceCapture(events)
    ensures !ReopenedSinceCapture(events[..j])
  {
    if j < |events| {
      var n := |events| - 1;
      ReopenedPrefix(events[..n], j);
      assert events[..n][..j] == events[..j];
    } else {
      assert events[..j] == events;
    }
  }

  predicate RetriesFailedStep(events: seq<Event>, j: int)
    requires 0 <= j < |events|
  {
    var failure := LastMove(events[..j], events[j].targetId);
    failure.Some? && failure.value.toState.Failed? && failure.value.fromState == events[j].toState
  }

  /** Whatever the history, the last move of a failed target is the one that failed it. */
  lemma {:induction false} FailureIsLastMove(events: seq<Event>, capture: Option<Capture>, t: string)
    requires ReplayAll(events, capture).Some? && t in ReplayAll(events, capture).value.targets
    requires ReplayAll(events, capture).value.targets[t].state.Failed?
    ensures LastMove(events, t).Some? && LastMove(events, t).value.toState.Failed?
  {
    hide Check;
    if events == [] {
    } else {
      var n := |events| - 1;
      var r, e := ReplayAll(events[..n], capture).value, events[n];
      Conservation(events[..n], capture);
      CheckCounts(r, e, capture);
      if e.kind.MaintenanceCaptured? {
        CaptureInitial(r, e, capture);
      } else {
        OneTarget(r, e, capture, t);
        if !IsMoveOf(e, t) {
          FailureIsLastMove(events[..n], capture, t);
        }
      }
    }
  }

  lemma RetryTarget(events: seq<Event>, capture: Option<Capture>, j: int)
    requires ReplayAll(events, capture).Some? && 0 <= j < |events|
    requires events[j].kind.TargetTransitioned? && events[j].fromState.Failed?
    ensures ReplayAll(events[..j], capture).Some?
    ensures var r := ReplayAll(events[..j], capture).value;
            events[j].targetId in r.targets && r.targets[events[j].targetId].state.Failed? && !r.state.Failed?
  {
    hide Check;
    ReplayPrefix(events, capture, j);
    ReplayPrefix(events, capture, j + 1);
    assert events[..j + 1][..j] == events[..j];
    RetryEntersPhase(ReplayAll(events[..j], capture).value, events[j], capture);
  }

  /** A retry repeats the step that failed if and only if the run is, at that moment, in the phase of
      that step. */
  lemma RetryRepeatsExactlyInPhase(events: seq<Event>, capture: Option<Capture>, j: int)
    requires ReplayAll(events, capture).Some? && 0 <= j < |events|
    requires events[j].kind.TargetTransitioned? && events[j].fromState.Failed?
    ensures ReplayAll(events[..j], capture).Some? && LastMove(events[..j], events[j].targetId).Some?
    ensures RetriesFailedStep(events, j) <==>
              ReplayAll(events[..j], capture).value.state == LastMove(events[..j], events[j].targetId).value.fromState
  {
    hide ReplayAll;
    RetryFollowsPhase(events, capture, j);
    RetryTarget(events, capture, j);
    FailureIsLastMove(events[..j], capture, events[j].targetId);
  }

  /** In a settled run, and so in every journal without a reopening since the capture, a retry repeats
      the step that failed. */
  lemma RetryStaysInPhase(events: seq<Event>, capture: Option<Capture>, j: int)
    requires ReplayAll(events, capture).Some? && 0 <= j < |events|
    requires Settled(events[..j], capture) || !ReopenedSinceCapture(events)
    requires events[j].kind.TargetTransitioned? && events[j].fromState.Failed?
    ensures RetriesFailedStep(events, j)
  {
    hide ReplayAll, ReopenedSinceCapture, PassedBarrier, Settled;
    RetryTarget(events, capture, j);
    if !ReopenedSinceCapture(events) {
      ReopenedPrefix(events, j);
      SettledByEvents(events[..j], capture);
    }
    PinnedJournal(events[..j], capture);
    RetryFollowsPhase(events, capture, j);
    var r := ReplayAll(events[..j], capture).value;
    assert PhaseIn(events[..j], r.state) == r.state;
    assert FailedHere(events[..j], r.state, events[j].targetId, r.targets[events[j].targetId]);
  }

  // ---- Restoration ----

  predicate IsStep(e: Event, t: string, to: StateName) {
    e.kind.TargetTransitioned? && e.targetId == t && e.toState == to
  }

  ghost predicate StepBefore(events: seq<Event>, k: int, t: string, to: StateName) {
    exists i :: 0 <= i < k && i < |events| && IsStep(events[i], t, to)
  }

  /** Where a target can only be after it was asked to stop, and then after it was asked to start. */
  ghost predicate PathOk(events: seq<Event>, t: string, target: ReplayTarget) {
    && (target.original.Running? && !target.state.Captured? && !target.state.Skipped? ==>
          StepBefore(events, |events|, t, Stopping))
    && (target.state.Healthy? ==> StepBefore(events, |events|, t, Starting))
    && (target.state.Starting? ==> StepBefore(events, |events|, t, Starting))
  }

  ghost predicate PathsOk(events: seq<Event>, r: ReplayRun) {
    && (forall t :: t in r.targets ==> PathOk(events, t, r.targets[t]))
    && (forall t, j :: 0 <= j < |events| && IsStep(events[j], t, Starting) ==> StepBefore(events, j, t, Stopping))
  }

  lemma StepBeforeGrows(events: seq<Event>, e: Event, k: int, t: string, to: StateName)
    requires StepBefore(events, k, t, to)
    ensures StepBefore(events + [e], k, t, to) && StepBefore(events + [e], |events| + 1, t, to)
  {
    var i :| 0 <= i < k && i < |events| && IsStep(events[i], t, to);
    assert IsStep((events + [e])[i], t, to);
  }

  lemma PathsStep(events: seq<Event>, r: ReplayRun, e: Event, capture: Option<Capture>)
    requires Originals(r) && PathsOk(events, r) && Check(r, e, capture).Some?
    requires e.kind.MaintenanceCaptured? ==> r.targets == map[]
    ensures PathsOk(events + [e], Check(r, e, capture).value)
  {
    hide Check;
    var r', es := Check(r, e, capture).value, events + [e];
    assert es[|events|] == e;
    forall t, j | 0 <= j < |es| && IsStep(es[j], t, Starting)
      ensures StepBefore(es, j, t, Stopping)
    {
      if j < |events| {
        assert IsStep(events[j], t, Starting);
        StepBeforeGrows(events, e, j, t, Stopping);
      } else {
        CheckKeepsTargets(r, e, capture);
        MovesNeedTarget(r, e, capture);
        assert IsMoveOf(e, t);
        OneTarget(r, e, capture, t);
        StepBeforeGrows(events, e, |events|, t, Stopping);
      }
    }
    forall t | t in r'.targets
      ensures PathOk(es, t, r'.targets[t])
    {
      if e.kind.MaintenanceCaptured? {
        CaptureInitial(r, e, capture);
      } else {
        PathStep(events, r, e, capture, t);
      }
    }
  }

  lemma PathStep(events: seq<Event>, r: ReplayRun, e: Event, capture: Option<Capture>, t: string)
    requires Originals(r) && PathsOk(events, r) && Check(r, e, capture).Some? && !e.kind.MaintenanceCaptured?
    requires t in Check(r, e, capture).value.targets
    ensures PathOk(events + [e], t, Check(r, e, capture).value.targets[t])
  {
    OneTarget(r, e, capture, t);
    MoveKind(r, e, capture);
    hide Check;
    assert (events + [e])[|events|] == e;
    if StepBefore(events, |events|, t, Stopping) {
      StepBeforeGrows(events, e, |events|, t, Stopping);
    }
    if StepBefore(events, |events|, t, Starting) {
      StepBeforeGrows(events, e, |events|, t, Starting);
    }
    assert PathOk(events, t, r.targets[t]) && OriginalAllows(r.targets[t]);
  }

  lemma MoveKind(r: ReplayRun, e: Event, capture: Option<Capture>)
    requires Check(r, e, capture).Some?
    ensures e.kind.TargetTransitioned? || e.kind.TargetSkipped? ==> (e.kind.TargetSkipped? <==> e.toState.Skipped?)
  {
    hide EventShapeOk, EventJustified;
  }

  lemma {:induction false} PathsJournal(events: seq<Event>, capture: Option<Capture>)
    requires ReplayAll(events, capture).Some?
    ensures PathsOk(events, ReplayAll(events, capture).value)
  {
    hide Check;
    if events == [] {
    } else {
      var n := |events| - 1;
      assert events == events[..n] + [events[n]];
      PathsJournal(events[..n], capture);
      PinnedJournal(events[..n], capture);
      Conservation(events[..n], capture);
      CheckCounts(ReplayAll(events[..n], capture).value, events[n], capture);
      PathsStep(events[..n], ReplayAll(events[..n], capture).value, events[n], capture);
    }
  }

  /** Restoration: a healthy target was captured running, and its journal, whatever failures and
      reopenings lie between, asks it to stop before it asks it to start, every time it does. */
  lemma RestorationSafety(calls: seq<Call>, id: string, t: string)
    requires id in Exec(EMPTY_DB, calls).runs && t in Exec(EMPTY_DB, calls).runs[id].targets
    ensures var db := Exec(EMPTY_DB, calls);
            var target, events := db.runs[id].targets[t], EventsOf(db.journal, id);
            && (target.state.Healthy? ==> target.original.Running? && StepBefore(events, |events|, t, Starting))
            && forall j :: 0 <= j < |events| && IsStep(events[j], t, Starting) ==> StepBefore(events, j, t, Stopping)
  {
    var db := Exec(EMPTY_DB, calls);
    Reachable(calls);
    hide Exec, JournalOk, LocksExclusive, CaptureOk, EventsOf, ReplayAll, StepBefore;
    var rec, events := db.runs[id], EventsOf(db.journal, id);
    assert RunOk(db, id);
    PathsJournal(events, rec.capture);
    MirroredTarget(rec, t);
    assert PathOk(events, t, MirrorTargets(rec.targets)[t]);
  }
}
