/** Restoration can always finish: from every reachable captured run that is neither completed nor cancelled
    and has targets, an explicit sequence of administrator calls, all of them accepted, stops and starts what
    is still to be restarted, and completes the run with everything healthy that was running. */
module Restoration {
  import opened Lifecycle
  import opened Text
  import opened Records
  import opened Writer
  import opened Invariant
  import opened Histories
  import opened Release

  // ---- What one target still needs ----

  /** The moves of one target in a phase: what was running is stopped in the stop phase, and started in the
      start phase, where whatever cannot be restarted is skipped. */
  function Route(phase: StateName, original: StateName, state: StateName): seq<StateName> {
    if state.Skipped? || original.Stopped? then []
    else if !original.Running? then (if phase.Starting? then [Skipped] else [])
    else if phase.Stopping? then
      match state
      case Captured => [Stopping, Stopped]
      case Failed => [Stopping, Stopped]
      case Stopping => [Stopped]
      case _ => []
    else
      match state
      case Stopped => [Starting, Healthy]
      case Starting => [Healthy]
      case _ => []
  }

  function Destination(phase: StateName, original: StateName, state: StateName): StateName {
    var route := Route(phase, original, state);
    if route == [] then state else route[|route| - 1]
  }

  /** The targets after every one of them has gone its route. */
  function After(phase: StateName, targets: map<string, Target>): map<string, Target> {
    map t | t in targets :: targets[t].(state := Destination(phase, targets[t].original, targets[t].state))
  }

  function MoveTo(id: string, t: string, a: Authority, to: StateName): Call {
    TransitionTarget(id, t, Change(a, to), ANY, a.audit)
  }

  function Travel(id: string, t: string, a: Authority, route: seq<StateName>): seq<Call> {
    seq(|route|, i requires 0 <= i < |route| => MoveTo(id, t, a, route[i]))
  }

  /** The routes of all targets, in the order of the discovery document. */
  function Routes(id: string, phase: StateName, targets: map<string, Target>, ts: seq<CaptureTarget>, a: Authority)
    : seq<Call>
  {
    if ts == [] then []
    else
      var n := |ts| - 1;
      Routes(id, phase, targets, ts[..n], a)
      + (if ts[n].id in targets then
           Travel(id, ts[n].id, a, Route(phase, targets[ts[n].id].original, targets[ts[n].id].state))
         else [])
  }

  /** Through the stop phase and the start phase, entered by way of a failure where need be. */
  function RestorePlan(id: string, rec: RunRecord, ts: seq<CaptureTarget>, a: Authority): seq<Call> {
    Reach(id, rec.state, Stopping, a) + Routes(id, Stopping, rec.targets, ts, a)
    + Reach(id, Stopping, Starting, a) + Routes(id, Starting, After(Stopping, rec.targets), ts, a)
    + [Go(id, a, Completed)]
  }

  /** What was running is healthy in the end; nothing else but a skip can happen to the rest. */
  lemma Arrives(t: Target)
    requires TargetOk(t)
    ensures var end := Destination(Starting, t.original, Destination(Stopping, t.original, t.state));
            && TargetCompletionAllowed(t.original, end)
            && (t.state.Skipped? ==> end.Skipped?)
            && (!t.state.Skipped? && t.original.Running? ==> end.Healthy?)
            && (!t.state.Skipped? && t.original.Stopped? ==> end.Stopped?)
            && (!t.state.Skipped? && !t.original.Running? && !t.original.Stopped? ==> end.Skipped?)
  {
    hide StorableKey;
  }

  // ---- One target ----

  /** One target has changed its state, and nothing else but versions. */
  ghost predicate Walked(rec: RunRecord, rec': RunRecord, t: string, to: StateName) {
    && rec'.state == rec.state && rec'.capture == rec.capture && rec'.targets.Keys == rec.targets.Keys
    && forall u :: u in rec.targets ==>
         && rec'.targets[u].original == rec.targets[u].original
         && rec'.targets[u].state == if u == t then to else rec.targets[u].state
  }

  predicate MoveUnopposed(phase: StateName, original: StateName, from: StateName, to: StateName) {
    && ValidTargetTransition(from, to) && !from.Healthy? && !from.Skipped?
    && (to.Skipped? || (original.Running? && TargetPhaseAllowed(phase, to)))
  }

  lemma MoveLeads(db: Db, id: string, t: string, a: Authority, to: StateName)
    requires DbOk(db) && id in db.runs && Sufficient(a) && t in db.runs[id].targets && ValidTargetState(to)
    requires !IsMaintenanceTerminal(db.runs[id].state)
    requires MoveUnopposed(db.runs[id].state, db.runs[id].targets[t].original, db.runs[id].targets[t].state, to)
    ensures Leads(db, [MoveTo(id, t, a, to)], id, WithTarget(db.runs[id], t, to))
    ensures Walked(db.runs[id], WithTarget(db.runs[id], t, to), t, to)
  {
    hide DbOk, Exec, AllAccepted, CaptureOk, HistoryOk, Trim, ValidJustification, IsAdmin, ValidId, StoppedBarrier,
         CompletionObjection;
    RunOf(db, id);
    OneCall(db, MoveTo(id, t, a, to));
    StepKeepsDb(db, MoveTo(id, t, a, to));
    NothingOpposes(db.runs[id].state, db.runs[id].targets[t], a, to);
    hide TargetObjection, TargetOk;
  }

  lemma NothingOpposes(phase: StateName, target: Target, a: Authority, to: StateName)
    requires Sufficient(a) && MoveUnopposed(phase, target.original, target.state, to)
    ensures TargetObjection(phase, target, Change(a, to), ANY, a.audit).None?
  {
    hide ValidJustification, IsAdmin;
  }

  lemma TargetIsOk(db: Db, id: string, t: string)
    requires DbOk(db) && id in db.runs && t in db.runs[id].targets
    ensures TargetOk(db.runs[id].targets[t])
  {
    hide DbOk, CaptureOk, HistoryOk, StoppedBarrier, CompletionObjection, ValidId, TargetOk;
    RunOf(db, id);
  }

  /** Every step of a route is open. */
  lemma RouteIsOpen(phase: StateName, t: Target)
    requires TargetOk(t) && (phase.Stopping? || phase.Starting?)
    ensures var route := Route(phase, t.original, t.state);
            && |route| <= 2 && (forall i :: 0 <= i < |route| ==> ValidTargetState(route[i]))
            && (|route| >= 1 ==> MoveUnopposed(phase, t.original, t.state, route[0]))
            && (|route| == 2 ==> MoveUnopposed(phase, t.original, route[0], route[1]))
  {
    hide StorableKey;
  }

  lemma WalkedTwice(rec: RunRecord, mid: RunRecord, end: RunRecord, t: string, via: StateName, to: StateName)
    requires Walked(rec, mid, t, via) && Walked(mid, end, t, to)
    ensures Walked(rec, end, t, to)
  {
  }

  lemma TwoMovesLead(db: Db, id: string, t: string, a: Authority, via: StateName, to: StateName)
    requires DbOk(db) && id in db.runs && Sufficient(a) && t in db.runs[id].targets
    requires ValidTargetState(via) && ValidTargetState(to) && !IsMaintenanceTerminal(db.runs[id].state)
    requires MoveUnopposed(db.runs[id].state, db.runs[id].targets[t].original, db.runs[id].targets[t].state, via)
    requires MoveUnopposed(db.runs[id].state, db.runs[id].targets[t].original, via, to)
    ensures exists rec' ::
              && Leads(db, [MoveTo(id, t, a, via)] + [MoveTo(id, t, a, to)], id, rec')
              && Walked(db.runs[id], rec', t, to)
  {
    hide DbOk, Exec, AllAccepted, Sufficient, MoveUnopposed, WithTarget, MoveTo;
    var rec, first, second := db.runs[id], [MoveTo(id, t, a, via)], [MoveTo(id, t, a, to)];
    MoveLeads(db, id, t, a, via);
    var mid := WithTarget(rec, t, via);
    MoveLeads(Exec(db, first), id, t, a, to);
    var end := WithTarget(mid, t, to);
    hide Walked;
    LeadsOn(db, first, second, id, mid, end);
    WalkedTwice(rec, mid, end, t, via, to);
  }

  lemma RouteLeads(db: Db, id: string, t: string, a: Authority)
    requires DbOk(db) && id in db.runs && Sufficient(a) && t in db.runs[id].targets
    requires db.runs[id].state.Stopping? || db.runs[id].state.Starting?
    ensures var rec := db.runs[id];
            var target := rec.targets[t];
            var calls := Travel(id, t, a, Route(rec.state, target.original, target.state));
            && |calls| <= 2
            && exists rec' ::
                 Leads(db, calls, id, rec') && Walked(rec, rec', t,
                     Destination(rec.state, target.original, target.state))
  {
    hide DbOk, Leads, Sufficient, TargetOk, MoveUnopposed, Route, WithTarget, MoveTo, Walked, Destination;
    var rec := db.runs[id];
    var target := rec.targets[t];
    var route := Route(rec.state, target.original, target.state);
    var calls, to := Travel(id, t, a, route), Destination(rec.state, target.original, target.state);
    TargetIsOk(db, id, t);
    RouteIsOpen(rec.state, target);
    RouteEnds(rec.state, target.original, target.state);
    if |route| == 0 {
      NothingLeads(db, id);
      StaysPut(rec, t);
      assert calls == [];
    } else if |route| == 1 {
      MoveLeads(db, id, t, a, route[0]);
      assert calls == [MoveTo(id, t, a, route[0])];
    } else {
      TwoMovesLead(db, id, t, a, route[0], route[1]);
      assert calls == [MoveTo(id, t, a, route[0])] + [MoveTo(id, t, a, route[1])];
    }
  }

  lemma RouteEnds(phase: StateName, original: StateName, state: StateName)
    ensures var route := Route(phase, original, state);
            Destination(phase, original, state) == if route == [] then state else route[|route| - 1]
  {
  }

  lemma StaysPut(rec: RunRecord, t: string)
    requires t in rec.targets
    ensures Walked(rec, rec, t, rec.targets[t].state)
  {
  }

  // ---- All targets ----

  /** The first targets of the document have gone their routes, the others are where they were. */
  ghost predicate Advanced(rec: RunRecord, rec': RunRecord, phase: StateName, ts: seq<CaptureTarget>) {
    && rec'.state == rec.state && rec'.capture == rec.capture && rec'.targets.Keys == rec.targets.Keys
    && forall t :: t in rec.targets ==>
         && rec'.targets[t].original == rec.targets[t].original
         && rec'.targets[t].state ==
            if Among(t, ts) then Destination(phase, rec.targets[t].original, rec.targets[t].state)
            else rec.targets[t].state
  }

  predicate Among(t: string, ts: seq<CaptureTarget>) { exists i :: 0 <= i < |ts| && ts[i].id == t }

  predicate SameStates(targets: map<string, Target>, targets': map<string, Target>) {
    && targets.Keys == targets'.Keys
    && forall t :: t in targets ==>
         targets'[t].original == targets[t].original && targets'[t].state == targets[t].state
  }

  lemma AmongFront(ts: seq<CaptureTarget>, t: string)
    requires ts != [] && DistinctIds(ts)
    ensures Among(t, ts) <==> Among(t, ts[..|ts| - 1]) || t == ts[|ts| - 1].id
    ensures !Among(ts[|ts| - 1].id, ts[..|ts| - 1])
  {
    var n := |ts| - 1;
    if i :| 0 <= i < |ts| && ts[i].id == t && i < n {
      assert ts[..n][i].id == t;
    }
  }

  lemma {:induction false} RoutesLead(db: Db, id: string, targets: map<string, Target>, ts: seq<CaptureTarget>,
                                      a: Authority)
    requires DbOk(db) && id in db.runs && Sufficient(a) && DistinctIds(ts)
    requires db.runs[id].state.Stopping? || db.runs[id].state.Starting?
    requires SameStates(targets, db.runs[id].targets)
    ensures exists rec' ::
              && Leads(db, Routes(id, db.runs[id].state, targets, ts, a), id, rec')
              && Advanced(db.runs[id], rec', db.runs[id].state, ts)
    ensures |Routes(id, db.runs[id].state, targets, ts, a)| <= 2 * |ts|
  {
    hide DbOk, Sufficient, Exec, AllAccepted, Route, Travel;
    var rec := db.runs[id];
    if ts == [] {
      NothingLeads(db, id);
      assert Advanced(rec, rec, rec.state, ts);
    } else {
      var n := |ts| - 1;
      var t, first := ts[n].id, Routes(id, rec.state, targets, ts[..n], a);
      RoutesLead(db, id, targets, ts[..n], a);
      var mid :| Leads(db, first, id, mid) && Advanced(rec, mid, rec.state, ts[..n]);
      AmongFront(ts, t);
      if t in targets {
        RouteLeads(Exec(db, first), id, t, a);
        var to := Destination(rec.state, rec.targets[t].original, rec.targets[t].state);
        var second := Travel(id, t, a, Route(rec.state, rec.targets[t].original, rec.targets[t].state));
        var end :| Leads(Exec(db, first), second, id, end) && Walked(mid, end, t, to);
        LeadsOn(db, first, second, id, mid, end);
        OneMore(rec, mid, end, ts);
      } else {
        assert Routes(id, rec.state, targets, ts, a) == first;
        NoneMore(rec, mid, ts);
      }
    }
  }

  lemma OneMore(rec: RunRecord, mid: RunRecord, end: RunRecord, ts: seq<CaptureTarget>)
    requires ts != [] && DistinctIds(ts) && Advanced(rec, mid, rec.state, ts[..|ts| - 1])
    requires ts[|ts| - 1].id in rec.targets
    requires var target := rec.targets[ts[|ts| - 1].id];
             Walked(mid, end, ts[|ts| - 1].id, Destination(rec.state, target.original, target.state))
    ensures Advanced(rec, end, rec.state, ts)
  {
    hide Destination, Among, DistinctIds;
    forall u | u in rec.targets
      ensures Among(u, ts) <==> Among(u, ts[..|ts| - 1]) || u == ts[|ts| - 1].id
    {
      AmongFront(ts, u);
    }
  }

  lemma NoneMore(rec: RunRecord, mid: RunRecord, ts: seq<CaptureTarget>)
    requires ts != [] && DistinctIds(ts) && Advanced(rec, mid, rec.state, ts[..|ts| - 1])
    requires ts[|ts| - 1].id !in rec.targets
    ensures Advanced(rec, mid, rec.state, ts)
  {
    hide Destination, Among, DistinctIds;
    forall u | u in rec.targets
      ensures Among(u, ts) <==> Among(u, ts[..|ts| - 1])
    {
      AmongFront(ts, u);
    }
  }

  // ---- The whole plan ----

  predicate AmongAll(rec: RunRecord, ts: seq<CaptureTarget>) { forall t :: t in rec.targets ==> Among(t, ts) }

  lemma AdvancedStates(rec: RunRecord, rec': RunRecord, targets: map<string, Target>, phase: StateName,
                       ts: seq<CaptureTarget>)
    requires AmongAll(rec, ts) && Advanced(rec, rec', phase, ts) && SameStates(targets, rec.targets)
    ensures SameStates(After(phase, targets), rec'.targets) && AmongAll(rec', ts)
  {
    hide Destination, Among;
  }

  lemma SameRunStates(targets: map<string, Target>, rec: RunRecord, there: RunRecord, ts: seq<CaptureTarget>)
    requires SameStates(targets, rec.targets) && SameRun(rec, there) && AmongAll(rec, ts)
    ensures SameStates(targets, there.targets) && AmongAll(there, ts)
  {
    hide Among;
  }

  /** One phase of the plan: reach it, and let every target go its route. */
  lemma PhaseLeads(db: Db, id: string, targets: map<string, Target>, ts: seq<CaptureTarget>, phase: StateName,
      a: Authority)
    requires DbOk(db) && id in db.runs && Sufficient(a) && DistinctIds(ts) && (phase.Stopping? || phase.Starting?)
    requires db.runs[id].capture.Some? && !IsClosed(db.runs[id].state)
    requires SameStates(targets, db.runs[id].targets) && AmongAll(db.runs[id], ts)
    ensures var calls := Reach(id, db.runs[id].state, phase, a) + Routes(id, phase, targets, ts, a);
            && |calls| <= 2 + 2 * |ts|
            && exists rec' ::
                 && Leads(db, calls, id, rec') && rec'.state == phase && rec'.capture == db.runs[id].capture
                 && SameStates(After(phase, targets), rec'.targets) && AmongAll(rec', ts)
  {
    hide DbOk, Exec, AllAccepted, Sufficient, Reach, Routes, SameStates, AmongAll, Among, After, DistinctIds;
    var rec := db.runs[id];
    var reach, routes := Reach(id, rec.state, phase, a), Routes(id, phase, targets, ts, a);
    ReachLeads(db, id, a, phase);
    var there :| Leads(db, reach, id, there) && SameRun(rec, there) && there.state == phase;
    SameRunStates(targets, rec, there, ts);
    RoutesLead(Exec(db, reach), id, targets, ts, a);
    var end :| Leads(Exec(db, reach), routes, id, end) && Advanced(there, end, phase, ts);
    AdvancedStates(there, end, targets, phase, ts);
    LeadsOn(db, reach, routes, id, there, end);
  }

  /** Where one target may end. */
  predicate EndsWell(target: Target, end: Target) {
    && end.original == target.original
    && TargetCompletionAllowed(end.original, end.state)
    && (target.state.Skipped? ==> end.state.Skipped?)
    && (!target.state.Skipped? ==>
          match target.original
          case Running => end.state.Healthy?
          case Stopped => end.state.Stopped?
          case _ => end.state.Skipped?)
  }

  /** The outcome: every target reconciled, and everything healthy that was running and not given up. */
  ghost predicate Restored(rec: RunRecord, end: RunRecord) {
    end.state.Completed? && AllEndWell(rec, end)
  }

  ghost predicate AllEndWell(rec: RunRecord, end: RunRecord) {
    && end.targets.Keys == rec.targets.Keys
    && forall t :: t in rec.targets ==> EndsWell(rec.targets[t], end.targets[t])
  }

  ghost predicate TargetsOk(rec: RunRecord) { forall t :: t in rec.targets ==> TargetOk(rec.targets[t]) }

  lemma EachArrives(rec: RunRecord, done: RunRecord, t: string)
    requires TargetsOk(rec) && SameStates(After(Starting, After(Stopping, rec.targets)), done.targets)
    requires t in rec.targets
    ensures t in done.targets && EndsWell(rec.targets[t], done.targets[t])
  {
    hide TargetOk, Destination, TargetCompletionAllowed;
    Arrives(rec.targets[t]);
    assert t in After(Stopping, rec.targets) && t in After(Starting, After(Stopping, rec.targets));
  }

  lemma AllArrive(rec: RunRecord, done: RunRecord)
    requires TargetsOk(rec) && SameStates(After(Starting, After(Stopping, rec.targets)), done.targets)
    requires rec.targets != map[] && done.capture.Some?
    ensures CompletionObjection(done).None? && done.targets != map[]
    ensures Restored(rec, Transitioned(done, Completed))
  {
    hide TargetsOk, SameStates, After, EndsWell, CompletionObjection, Transitioned;
    SameTargets(rec, done);
    forall t | t in rec.targets
      ensures EndsWell(rec.targets[t], done.targets[t])
    {
      EachArrives(rec, done, t);
    }
    ReadyToComplete(rec, done);
    CompletedWell(rec, done);
  }

  lemma ReadyToComplete(rec: RunRecord, done: RunRecord)
    requires AllEndWell(rec, done) && rec.targets != map[] && done.capture.Some?
    ensures CompletionObjection(done).None? && done.targets != map[]
  {
    hide TargetCompletionAllowed;
    var k :| k in rec.targets;
    assert k in done.targets;
  }

  lemma CompletedWell(rec: RunRecord, done: RunRecord)
    requires AllEndWell(rec, done)
    ensures Restored(rec, Transitioned(done, Completed))
  {
    hide TargetCompletionAllowed;
    var end := Transitioned(done, Completed);
    assert end.targets.Keys == done.targets.Keys;
    forall t | t in rec.targets
      ensures EndsWell(rec.targets[t], end.targets[t])
    {
      assert end.targets[t].state == done.targets[t].state && end.targets[t].original == done.targets[t].original;
    }
  }

  lemma SameTargets(rec: RunRecord, done: RunRecord)
    requires SameStates(After(Starting, After(Stopping, rec.targets)), done.targets)
    ensures done.targets.Keys == rec.targets.Keys
  {
    hide Destination;
    assert After(Starting, After(Stopping, rec.targets)).Keys == rec.targets.Keys;
  }

  lemma CompletionLeads(db: Db, id: string, a: Authority)
    requires DbOk(db) && id in db.runs && db.runs[id].state.Starting? && CompletionObjection(db.runs[id]).None?
    ensures Leads(db, [Go(id, a, Completed)], id, Transitioned(db.runs[id], Completed))
  {
    hide DbOk, Exec, AllAccepted, EventsOf, Exercised, CaptureOk, ValidId, HistoryOk, ReopenObjection,
         CompletionObjection, StoppedBarrier, TargetOk;
    RunOf(db, id);
    GoLeads(db, id, a, Completed);
  }

  lemma PlanRestores(db: Db, id: string, ts: seq<CaptureTarget>, a: Authority)
    requires DbOk(db) && id in db.runs && Sufficient(a) && !IsClosed(db.runs[id].state) && db.runs[id].targets != map[]
    requires db.runs[id].capture.Some? && DistinctIds(ts) && AmongAll(db.runs[id], ts) && TargetsOk(db.runs[id])
    ensures |RestorePlan(id, db.runs[id], ts, a)| <= 4 * |ts| + 5
    ensures exists end :: Leads(db, RestorePlan(id, db.runs[id], ts, a), id, end) && Restored(db.runs[id], end)
  {
    hide DbOk, Exec, AllAccepted, Sufficient, Reach, Routes, SameStates, AmongAll, After, DistinctIds, TargetsOk,
         Restored, Transitioned, CompletionObjection;
    var rec := db.runs[id];
    StatesOfItself(rec.targets);
    PhaseLeads(db, id, rec.targets, ts, Stopping, a);
    var stop := Reach(id, rec.state, Stopping, a) + Routes(id, Stopping, rec.targets, ts, a);
    var stopped :|
      && Leads(db, stop, id, stopped) && stopped.state == Stopping && stopped.capture == rec.capture
      && SameStates(After(Stopping, rec.targets), stopped.targets) && AmongAll(stopped, ts);
    var targets := After(Stopping, rec.targets);
    PhaseLeads(Exec(db, stop), id, targets, ts, Starting, a);
    var start := Reach(id, Stopping, Starting, a) + Routes(id, Starting, targets, ts, a);
    var done :|
      && Leads(Exec(db, stop), start, id, done) && done.state == Starting && done.capture == rec.capture
      && SameStates(After(Starting, targets), done.targets) && AmongAll(done, ts);
    AllArrive(rec, done);
    LeadsOn(db, stop, start, id, stopped, done);
    CompletionLeads(Exec(db, stop + start), id, a);
    LeadsOn(db, stop + start, [Go(id, a, Completed)], id, done, Transitioned(done, Completed));
    assert RestorePlan(id, rec, ts, a) == stop + start + [Go(id, a, Completed)];
  }

  lemma StatesOfItself(targets: map<string, Target>)
    ensures SameStates(targets, targets)
  {
  }

  lemma DocumentNamesTargets(db: Db, id: string)
    requires DbOk(db) && id in db.runs && db.runs[id].targets != map[]
    ensures var rec := db.runs[id];
            && rec.capture.Some? && ParseTargets(rec.capture.value.document).Some? && TargetsOk(rec)
            && AmongAll(rec, ParseTargets(rec.capture.value.document).value)
            && |ParseTargets(rec.capture.value.document).value| == |rec.targets|
  {
    DocumentOf(db, id);
    hide DbOk, ParseTargets, TargetOk;
    forall t | t in db.runs[id].targets
      ensures TargetOk(db.runs[id].targets[t])
    {
      TargetIsOk(db, id, t);
    }
  }

  /** From every reachable run that has n targets and is neither completed nor cancelled, the plan has at most
      4n + 5 calls, every one is accepted, and the run ends completed: what was running and was not skipped
      before is healthy, what was stopped is stopped, and only what was captured as degraded or unknown has
      been skipped. */
  lemma RestorationCanFinish(calls: seq<Call>, id: string, a: Authority)
    requires id in Exec(EMPTY_DB, calls).runs && Sufficient(a)
    requires !IsClosed(Exec(EMPTY_DB, calls).runs[id].state) && Exec(EMPTY_DB, calls).runs[id].targets != map[]
    ensures var db := Exec(EMPTY_DB, calls);
            var rec := db.runs[id];
            && rec.capture.Some? && ParseTargets(rec.capture.value.document).Some?
            && var plan := RestorePlan(id, rec, ParseTargets(rec.capture.value.document).value, a);
            && |plan| <= 4 * |rec.targets| + 5
            && AllAccepted(db, plan)
            && id in Exec(db, plan).runs && Restored(rec, Exec(db, plan).runs[id])
  {
    Reachable(calls);
    var db := Exec(EMPTY_DB, calls);
    hide Exec, DbOk, AllAccepted, Sufficient, ParseTargets, TargetsOk, AmongAll, Restored, RestorePlan;
    DocumentNamesTargets(db, id);
    PlanRestores(db, id, ParseTargets(db.runs[id].capture.value.document).value, a);
  }
}
