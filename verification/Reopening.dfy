/** What reopening a failed run really allows. Only entry to `stopped` checks the stop barrier, so a run
    can be reopened for waiting or starting while targets still run: two reachable histories show it, and
    `EnteringPhase` says exactly when it does not happen. */
module Reopening {
  import opened Lifecycle
  import opened Text
  import opened Records
  import opened Writer
  import opened Replay
  import opened Invariant
  import opened Histories
  import opened Versions
  import opened Coherence
  import opened Release

  const ADMIN := Authority(AuditContext("a", "admin", "q"), "r")

  const DISCOVERY: Document := Single(TargetInput("t", "k", Running, Some(EMPTY_OBJECT)))

  /** A run captured with one running target. */
  const CAPTURED_CALLS: seq<Call> := [
    Create(RunInput("m", New, Some(EMPTY_OBJECT)), ADMIN.audit),
    CaptureRun("m", Some(DISCOVERY), ADMIN.audit)]

  function Move(a: Authority, to: StateName): Call {
    TransitionTarget("m", "t", Change(a, to), ANY, a.audit)
  }

  lemma OneLetter(s: string)
    requires |s| == 1 && !IsSpace(s[0])
    ensures Trim(s) == s && Utf8Length(s) <= 4
  {
    assert s[..0] == "" && Utf8Length("") == 0;
  }

  lemma AdminSuffices()
    ensures Sufficient(ADMIN)
  {
    hide Trim, Utf8Length;
    OneLetter("r");
  }

  lemma DiscoveryParses()
    ensures ParseTargets(DISCOVERY) == Some([CaptureTarget("t", "k", Running, EMPTY_OBJECT)])
  {
    hide Trim, Utf8Length;
    OneLetter("k");
    var ts := [TargetInput("t", "k", Running, Some(EMPTY_OBJECT))];
    assert ValidTargetInput(ts[0]);
    assert ParseTargets(DISCOVERY).value == [CaptureTarget("t", "k", Running, EMPTY_OBJECT)];
  }

  /** The state of the example: the run's phase, its one target's state, and a journal all its own. */
  predicate Shows(db: Db, phase: StateName, target: StateName) {
    && "m" in db.runs && db.runs["m"].state == phase && db.runs["m"].capture.Some?
    && db.runs["m"].targets.Keys == {"t"}
    && db.runs["m"].targets["t"].state == target && db.runs["m"].targets["t"].original == Running
    && forall i :: 0 <= i < |db.journal| ==> db.journal[i].maintenanceId == "m"
  }

  lemma Captures()
    ensures Shows(Exec(EMPTY_DB, CAPTURED_CALLS), Captured, Captured)
  {
    DiscoveryParses();
    hide ParseTargets, Trim;
    var d1 := Step(EMPTY_DB, CAPTURED_CALLS[0]);
    assert d1.runs == map["m" := RunRecord(New, 1, EMPTY_OBJECT, None, map[])];
    assert Exec(EMPTY_DB, CAPTURED_CALLS[..1]) == d1 by {
      assert CAPTURED_CALLS[..1] == [CAPTURED_CALLS[0]];
      OneCall(EMPTY_DB, CAPTURED_CALLS[0]);
    }
    var ts := [CaptureTarget("t", "k", Running, EMPTY_OBJECT)];
    assert InsertedTargets(ts) == map["t" := InsertedTarget(ts[0])] by { assert ts[..0] == []; }
    hide Exercised, EventsOf;
    var d2 := Step(d1, CAPTURED_CALLS[1]);
    assert !LockHeld(d1, "k");
    assert d2.runs["m"] == CapturedRecord(d1.runs["m"], Capture(DISCOVERY, Sha256(DISCOVERY)), ts);
  }

  lemma {:induction false} OwnJournal(journal: seq<Event>)
    requires forall i :: 0 <= i < |journal| ==> journal[i].maintenanceId == "m"
    ensures EventsOf(journal, "m") == journal
  {
    if journal == [] {
    } else {
      var n := |journal| - 1;
      OwnJournal(journal[..n]);
      assert journal == journal[..n] + [journal[n]];
    }
  }

  /** One phase change of the example. */
  lemma Goes(db: Db, phase: StateName, target: StateName, to: StateName)
    requires Shows(db, phase, target)
    requires (!phase.Failed? && to.Failed? && !IsMaintenanceTerminal(phase)) || (phase.Captured? && to.Stopping?)
             || (phase.Failed? && (to.Waiting? || to.Starting?))
    requires ValidMaintenanceTransition(phase, to)
    ensures var db' := Step(db, Go("m", ADMIN, to));
            && Shows(db', to, target) && |db'.journal| == |db.journal| + 1
            && db'.journal[..|db.journal|] == db.journal
            && db'.journal[|db.journal|].kind == TransitionKind(phase, to)
  {
    AdminSuffices();
    hide Exercised, EventsOf, Trim, ValidJustification, IsAdmin, StoppedBarrier, CompletionObjection;
    var rec := db.runs["m"];
    assert TransitionObjection(rec, Exercised(EventsOf(db.journal, "m")), Change(ADMIN, to), ANY, ADMIN.audit).None?;
    assert Transitioned(rec, to).targets.Keys == rec.targets.Keys;
  }

  /** One target move of the example. */
  lemma Moved(db: Db, phase: StateName, target: StateName, to: StateName)
    requires Shows(db, phase, target) && !IsMaintenanceTerminal(phase)
    requires ValidTargetTransition(target, to) && !to.Skipped? && TargetPhaseAllowed(phase, to)
    ensures var db' := Step(db, Move(ADMIN, to));
            && Shows(db', phase, to) && |db'.journal| == |db.journal| + 1
            && db'.journal[..|db.journal|] == db.journal
            && var e := db'.journal[|db.journal|];
            && e.kind.TargetTransitioned? && e.targetId == "t" && e.fromState == target && e.toState == to
  {
    hide Exercised, EventsOf, Trim, ValidJustification, IsAdmin;
    var rec := db.runs["m"];
    assert TargetObjection(phase, rec.targets["t"], Change(ADMIN, to), ANY, ADMIN.audit).None?;
    assert WithTarget(rec, "t", to).targets.Keys == rec.targets.Keys;
  }

  lemma ThenExec(calls: seq<Call>, call: Call)
    ensures Exec(EMPTY_DB, calls + [call]) == Step(Exec(EMPTY_DB, calls), call)
  {
    assert (calls + [call])[..|calls|] == calls;
  }

  /** A run can be waiting or starting while a target that was running has never been asked to stop. */
  lemma ReopenedWithoutBarrier(phase: StateName)
    requires phase.Waiting? || phase.Starting?
    ensures exists calls, id, t ::
              var db := Exec(EMPTY_DB, calls);
              && id in db.runs && t in db.runs[id].targets && db.runs[id].state == phase
              && db.runs[id].targets[t].original.Running? && db.runs[id].targets[t].state.Captured?
  {
    Captures();
    hide Exec, Shows, Step;
    var a := CAPTURED_CALLS + [Go("m", ADMIN, Failed)];
    var b := a + [Go("m", ADMIN, phase)];
    ThenExec(CAPTURED_CALLS, Go("m", ADMIN, Failed));
    ThenExec(a, Go("m", ADMIN, phase));
    Goes(Exec(EMPTY_DB, CAPTURED_CALLS), Captured, Captured, Failed);
    Goes(Exec(EMPTY_DB, a), Failed, Captured, phase);
    PhaseShown(Exec(EMPTY_DB, b), phase);
  }

  lemma PhaseShown(db: Db, phase: StateName)
    requires Shows(db, phase, Captured)
    ensures "m" in db.runs && "t" in db.runs["m"].targets && db.runs["m"].state == phase
    ensures db.runs["m"].targets["t"].original.Running? && db.runs["m"].targets["t"].state.Captured?
  {
  }

  // ---- When the barrier does hold ----

  /** What the start phase needs of the targets: whatever was running is past its stop, the rest is settled. */
  predicate StartBarrier(targets: map<string, Target>) {
    forall t :: t in targets ==>
      if targets[t].original.Running? then !targets[t].state.Captured? && !targets[t].state.Stopping?
      else !Unresolved(targets[t])
  }

  /** The two barriers are what coherence asks of the phases behind them, and the first implies the second. */
  lemma BarriersArePhases(targets: map<string, Target>)
    ensures StoppedBarrier(targets) <==> forall t :: t in targets ==> PhaseAllows(Waiting, MirrorTargets(targets)[t])
    ensures StartBarrier(targets) <==> forall t :: t in targets ==> PhaseAllows(Starting, MirrorTargets(targets)[t])
    ensures StoppedBarrier(targets) ==> StartBarrier(targets)
  {
    forall t | t in targets
      ensures Unresolved(targets[t]) <==> !PhaseAllows(Waiting, MirrorTargets(targets)[t])
    {
    }
  }

  /** Barriers look at states alone. */
  lemma SameStates(targets: map<string, Target>, targets': map<string, Target>)
    requires targets.Keys == targets'.Keys
    requires forall t :: t in targets ==>
               targets'[t].state == targets[t].state && targets'[t].original == targets[t].original
    ensures StoppedBarrier(targets') <==> StoppedBarrier(targets)
    ensures StartBarrier(targets') <==> StartBarrier(targets)
  {
    assert forall t :: t in targets <==> t in targets';
    assert forall t :: t in targets ==> (Unresolved(targets'[t]) <==> Unresolved(targets[t]));
  }

  lemma BumpKeepsBarriers(rec: RunRecord, to: StateName)
    ensures StoppedBarrier(Transitioned(rec, to).targets) <==> StoppedBarrier(rec.targets)
    ensures StartBarrier(Transitioned(rec, to).targets) <==> StartBarrier(rec.targets)
  {
    SameStates(rec.targets, Transitioned(rec, to).targets);
  }

  /** Exactly when an accepted change of phase leaves the run behind the barrier of its new phase, told by
      what a caller can read beforehand: entry to `stopped` always does; entry to `waiting` does if and
      only if the run comes from `stopped`, or its targets meet the stop barrier; entry to `starting` does
      if and only if the run comes from a waiting phase that passed the barrier, or its targets meet the
      start barrier. */
  lemma EnteringPhase(db: Db, id: string, change: StateChange, pre: VersionPrecondition, audit: AuditContext)
    requires DbOk(db) && Accepted(db, TransitionRun(id, change, pre, audit))
    ensures id in db.runs && id in Step(db, TransitionRun(id, change, pre, audit)).runs
    ensures var rec, after := db.runs[id], Step(db, TransitionRun(id, change, pre, audit)).runs[id];
            && after.state == change.state
            && (change.state.Stopped? ==> StoppedBarrier(after.targets))
            && (change.state.Waiting? ==>
                  (StoppedBarrier(after.targets) <==> rec.state.Stopped? || StoppedBarrier(rec.targets)))
            && (change.state.Starting? ==>
                  (StartBarrier(after.targets) <==>
                     (rec.state.Waiting? && PassedBarrier(EventsOf(db.journal, id))) || StartBarrier(rec.targets)))
  {
    AcceptedChange(db, id, change, pre, audit);
    hide Accepted, Step, DbOk, StoppedBarrier, StartBarrier, Transitioned, PassedBarrier, EventsOf;
    var rec := db.runs[id];
    BumpKeepsBarriers(rec, change.state);
    if rec.state.Waiting? && PassedBarrier(EventsOf(db.journal, id)) {
      WaitingBehindBarrier(db, id);
      BarriersArePhases(rec.targets);
    }
  }

  lemma AcceptedChange(db: Db, id: string, change: StateChange, pre: VersionPrecondition, audit: AuditContext)
    requires DbOk(db) && Accepted(db, TransitionRun(id, change, pre, audit))
    ensures id in db.runs && id in Step(db, TransitionRun(id, change, pre, audit)).runs
    ensures Step(db, TransitionRun(id, change, pre, audit)).runs[id] == Transitioned(db.runs[id], change.state)
    ensures Transitioned(db.runs[id], change.state).state == change.state
    ensures change.state.Stopped? || db.runs[id].state.Stopped? ==> StoppedBarrier(db.runs[id].targets)
  {
    hide DbOk, ValidId, ValidJustification, IsAdmin, Trim, Exercised, EventsOf, ReopenObjection, CompletionObjection,
         StoppedBarrier, CaptureOk, HistoryOk, TargetOk;
    RunOf(db, id);
  }

  /** A waiting run that passed the barrier since its last reopening is behind it. */
  lemma WaitingBehindBarrier(db: Db, id: string)
    requires DbOk(db) && id in db.runs && db.runs[id].state.Waiting? && PassedBarrier(EventsOf(db.journal, id))
    ensures StoppedBarrier(db.runs[id].targets)
  {
    hide DbOk, RecordOk, EventsOf, ReplayAll, PassedBarrier, ReopenedSinceCapture, Settled, Exercised;
    var rec, events := db.runs[id], EventsOf(db.journal, id);
    RunOf(db, id);
    SettledByEvents(events, rec.capture);
    PinnedJournal(events, rec.capture);
    BarriersArePhases(rec.targets);
  }

  /** The target fails to stop, the run fails, is reopened for the start phase, and the target is started. */
  function Detour(db: Db): Db {
    Step(Step(Step(Step(db, Move(ADMIN, Failed)), Go("m", ADMIN, Failed)), Go("m", ADMIN, Starting)),
        Move(ADMIN, Starting))
  }

  lemma DetourTaken(db: Db)
    requires Shows(db, Stopping, Stopping)
    ensures var events, n := Detour(db).journal, |db.journal| + 3;
            && Shows(Detour(db), Starting, Starting) && |events| == n + 1
            && events[n].kind.TargetTransitioned? && events[n].targetId == "t"
            && events[n].fromState.Failed? && events[n].toState.Starting?
            && !IsMoveOf(events[n - 1], "t") && !IsMoveOf(events[n - 2], "t")
            && IsMoveOf(events[n - 3], "t") && events[n - 3].fromState.Stopping?
  {
    hide Shows, Step;
    var d1 := Step(db, Move(ADMIN, Failed));
    Moved(db, Stopping, Stopping, Failed);
    var d2 := Step(d1, Go("m", ADMIN, Failed));
    Goes(d1, Stopping, Failed, Failed);
    var d3 := Step(d2, Go("m", ADMIN, Starting));
    Goes(d2, Failed, Failed, Starting);
    var d4 := Step(d3, Move(ADMIN, Starting));
    Moved(d3, Starting, Failed, Starting);
    var k := |db.journal|;
    assert d2.journal[k] == d2.journal[..k + 1][k];
    assert d3.journal[k] == d3.journal[..k + 2][k] && d3.journal[k + 1] == d3.journal[..k + 2][k + 1];
    forall i | k <= i < k + 3
      ensures d4.journal[i] == d3.journal[i]
    {
      assert d4.journal[i] == d4.journal[..k + 3][i];
    }
  }

  /** The documentation says a failed target retries the phase that failed. After a reopening it need not:
      a target that failed while stopping can be retried by starting it. */
  lemma RetryMayChangeStep()
    ensures exists calls, id, j ::
              var events := EventsOf(Exec(EMPTY_DB, calls).journal, id);
              && 0 <= j < |events| && events[j].kind.TargetTransitioned? && events[j].fromState.Failed?
              && !RetriesFailedStep(events, j)
  {
    Captures();
    hide Exec, Shows, Step, EventsOf, IsMoveOf, RetriesFailedStep;
    var c0 := CAPTURED_CALLS;
    var c1 := c0 + [Go("m", ADMIN, Stopping)];
    var c2 := c1 + [Move(ADMIN, Stopping)];
    ThenExec(c0, Go("m", ADMIN, Stopping));
    ThenExec(c1, Move(ADMIN, Stopping));
    Goes(Exec(EMPTY_DB, c0), Captured, Captured, Stopping);
    Moved(Exec(EMPTY_DB, c1), Stopping, Captured, Stopping);
    var c3 := c2 + [Move(ADMIN, Failed)];
    var c4 := c3 + [Go("m", ADMIN, Failed)];
    var c5 := c4 + [Go("m", ADMIN, Starting)];
    var c6 := c5 + [Move(ADMIN, Starting)];
    ThenExec(c2, Move(ADMIN, Failed));
    ThenExec(c3, Go("m", ADMIN, Failed));
    ThenExec(c4, Go("m", ADMIN, Starting));
    ThenExec(c5, Move(ADMIN, Starting));
    var db := Exec(EMPTY_DB, c2);
    DetourTaken(db);
    assert Exec(EMPTY_DB, c6) == Detour(db);
    JournalOwned(Detour(db), Starting, Starting);
    var events := Detour(db).journal;
    RetryDiffers(events, |events| - 1);
    assert EventsOf(Exec(EMPTY_DB, c6).journal, "m") == events;
  }

  lemma JournalOwned(db: Db, phase: StateName, target: StateName)
    requires Shows(db, phase, target)
    ensures EventsOf(db.journal, "m") == db.journal
  {
    OwnJournal(db.journal);
  }

  /** Stopping failed, the run failed, was reopened, and then the target was started. */
  lemma RetryDiffers(events: seq<Event>, n: int)
    requires 3 <= n < |events|
    requires events[n].kind.TargetTransitioned? && events[n].targetId == "t" && events[n].toState.Starting?
    requires !IsMoveOf(events[n - 1], "t") && !IsMoveOf(events[n - 2], "t")
    requires IsMoveOf(events[n - 3], "t") && events[n - 3].fromState.Stopping?
    ensures !RetriesFailedStep(events, n)
  {
    hide IsMoveOf;
    assert events[..n][..n - 1] == events[..n - 1];
    assert events[..n - 1][..n - 2] == events[..n - 2];
    assert LastMove(events[..n - 2], "t") == Some(events[n - 3]);
    assert LastMove(events[..n - 1], "t") == LastMove(events[..n - 2], "t");
    assert LastMove(events[..n], "t") == LastMove(events[..n - 1], "t");
  }
}
