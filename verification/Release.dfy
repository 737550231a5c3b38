/** Locks can always be released: from every reachable run that still holds its locks, a short explicit
    sequence of administrator calls, all of them accepted, completes or cancels it. */
module Release {
  import opened Lifecycle
  import opened Text
  import opened Records
  import opened Writer
  import opened Invariant
  import opened Histories
  import opened Agreement

  /** The administrator and the reason given with every call of the plan. */
  datatype Authority = Authority(audit: AuditContext, justification: string)

  predicate Sufficient(a: Authority) {
    IsAdmin(a.audit.role) && ValidJustification(a.justification)
  }

  const ANY := VersionPrecondition(true, [])

  function Change(a: Authority, to: StateName): StateChange {
    StateChange(to, a.justification, Some(EMPTY_OBJECT))
  }

  function Go(id: string, a: Authority, to: StateName): Call {
    TransitionRun(id, Change(a, to), ANY, a.audit)
  }

  function Skip(id: string, t: string, a: Authority): Call {
    TransitionTarget(id, t, Change(a, Skipped), ANY, a.audit)
  }

  predicate Unfinished(t: Target) {
    !t.state.Healthy? && !t.state.Skipped?
  }

  /** Skip, in the order of the discovery document, every target that is not finished. */
  function Skips(id: string, targets: map<string, Target>, ts: seq<CaptureTarget>, a: Authority): seq<Call> {
    if ts == [] then []
    else
      var n := |ts| - 1;
      Skips(id, targets, ts[..n], a)
      + (if ts[n].id in targets && Unfinished(targets[ts[n].id]) then [Skip(id, ts[n].id, a)] else [])
  }

  /** Bring a captured run to a phase through a failure, unless it is there already. */
  function Reach(id: string, state: StateName, to: StateName, a: Authority): seq<Call> {
    if state == to then []
    else if state.Failed? then [Go(id, a, to)]
    else [Go(id, a, Failed), Go(id, a, to)]
  }

  function Plan(id: string, rec: RunRecord, a: Authority): seq<Call> {
    if rec.state.New? then [Go(id, a, Cancelled)]
    else if rec.capture.None? then [Go(id, a, New), Go(id, a, Cancelled)]
    else if rec.targets == map[] || ParseTargets(rec.capture.value.document).None?
      then Reach(id, rec.state, Captured, a) + [Go(id, a, Cancelled)]
    else
      Reach(id, rec.state, Starting, a)
      + Skips(id, rec.targets, ParseTargets(rec.capture.value.document).value, a)
      + [Go(id, a, Completed)]
  }

  predicate AllAccepted(db: Db, calls: seq<Call>)
    decreases |calls|
  {
    calls == [] ||
    (AllAccepted(db, calls[..|calls| - 1]) && Accepted(Exec(db, calls[..|calls| - 1]), calls[|calls| - 1]))
  }

  lemma AllAcceptedLast(db: Db, calls: seq<Call>)
    requires calls != []
    ensures var n := |calls| - 1;
            AllAccepted(db, calls) <==> AllAccepted(db, calls[..n]) && Accepted(Exec(db, calls[..n]), calls[n])
  {
    hide Step, Decide, Accepted;
  }

  lemma {:induction false} AllAcceptedSplit(db: Db, a: seq<Call>, b: seq<Call>)
    requires AllAccepted(db, a) && AllAccepted(Exec(db, a), b)
    ensures AllAccepted(db, a + b)
    decreases |b|
  {
    hide AllAccepted, Exec, Accepted;
    if b == [] {
      assert a + b == a;
    } else {
      var n := |b| - 1;
      AllAcceptedLast(Exec(db, a), b);
      AllAcceptedSplit(db, a, b[..n]);
      ExecSplit(db, a, b[..n]);
      assert (a + b)[..|a + b| - 1] == a + b[..n] && (a + b)[|a + b| - 1] == b[n];
      AllAcceptedLast(db, a + b);
    }
  }

  lemma OneCall(db: Db, call: Call)
    ensures Exec(db, [call]) == Step(db, call)
    ensures AllAccepted(db, [call]) <==> Accepted(db, call)
  {
    hide Step, Decide;
    assert [call][..0] == [];
    assert Exec(db, []) == db && AllAccepted(db, []);
  }

  /** The outcome of a planned piece: all accepted, and the run as expected. */
  ghost predicate Leads(db: Db, calls: seq<Call>, id: string, rec: RunRecord) {
    && AllAccepted(db, calls)
    && id in Exec(db, calls).runs && Exec(db, calls).runs[id] == rec
    && DbOk(Exec(db, calls))
  }

  lemma LeadsOn(db: Db, a: seq<Call>, b: seq<Call>, id: string, mid: RunRecord, end: RunRecord)
    requires Leads(db, a, id, mid) && Leads(Exec(db, a), b, id, end)
    ensures Leads(db, a + b, id, end)
  {
    hide DbOk, AllAccepted, Exec;
    AllAcceptedSplit(db, a, b);
    ExecSplit(db, a, b);
  }

  /** One phase change by the administrator, when nothing stands against it. */
  lemma GoLeads(db: Db, id: string, a: Authority, to: StateName)
    requires DbOk(db) && id in db.runs && ValidId(id) && ValidMaintenanceState(to)
    requires TransitionObjection(db.runs[id], Exercised(EventsOf(db.journal, id)), Change(a, to), ANY, a.audit).None?
    ensures Leads(db, [Go(id, a, to)], id, Transitioned(db.runs[id], to))
  {
    hide DbOk, Exec, AllAccepted, TransitionObjection, EventsOf, Exercised, Trim, ValidId;
    OneCall(db, Go(id, a, to));
    StepKeepsDb(db, Go(id, a, to));
  }

  /** Nothing stands against failing an active run, nor against reopening a captured one for the capture,
      the stop or the start phase. */
  lemma ReachUnopposed(rec: RunRecord, exercised: bool, a: Authority, to: StateName)
    requires ValidMaintenanceState(rec.state) && !rec.state.New? && !IsClosed(rec.state) && rec.capture.Some?
    ensures !rec.state.Failed? ==> TransitionObjection(rec, exercised, Change(a, Failed), ANY, a.audit).None?
    ensures rec.state.Failed? && Sufficient(a) && (to.Captured? || to.Stopping? || to.Starting?) ==>
              TransitionObjection(rec, exercised, Change(a, to), ANY, a.audit).None?
  {
    hide ValidJustification, IsAdmin, StoppedBarrier, CompletionObjection;
  }

  lemma ReachLeads(db: Db, id: string, a: Authority, to: StateName)
    requires DbOk(db) && id in db.runs && Sufficient(a)
    requires db.runs[id].capture.Some? && !IsClosed(db.runs[id].state) && (to.Captured? || to.Stopping? || to.Starting?)
    ensures exists rec ::
              Leads(db, Reach(id, db.runs[id].state, to, a), id, rec) && SameRun(db.runs[id], rec) && rec.state == to
    ensures |Reach(id, db.runs[id].state, to, a)| <= 2
  {
    hide DbOk, Exec, AllAccepted, EventsOf, Exercised, TransitionObjection, Sufficient, CaptureOk, ValidId,
         StoppedBarrier, CompletionObjection, HistoryOk, TargetOk, Change;
    var rec := db.runs[id];
    var exercised := Exercised(EventsOf(db.journal, id));
    RunOf(db, id);
    ReachUnopposed(rec, exercised, a, to);
    if rec.state == to {
      NothingLeads(db, id);
    } else if rec.state.Failed? {
      GoLeads(db, id, a, to);
      assert Leads(db, Reach(id, rec.state, to, a), id, Transitioned(rec, to));
    } else {
      GoLeads(db, id, a, Failed);
      var mid := Exec(db, [Go(id, a, Failed)]);
      var failed := Transitioned(rec, Failed);
      ReachUnopposed(failed, Exercised(EventsOf(mid.journal, id)), a, to);
      GoLeads(mid, id, a, to);
      LeadsOn(db, [Go(id, a, Failed)], [Go(id, a, to)], id, failed, Transitioned(failed, to));
      assert [Go(id, a, Failed)] + [Go(id, a, to)] == Reach(id, rec.state, to, a);
    }
  }

  lemma NothingLeads(db: Db, id: string)
    requires DbOk(db) && id in db.runs
    ensures Leads(db, [], id, db.runs[id])
  {
    hide DbOk;
  }

  /** The same run but for its state and versions. */
  ghost predicate SameRun(rec: RunRecord, rec': RunRecord) {
    && rec'.capture == rec.capture && rec'.targets.Keys == rec.targets.Keys
    && forall t :: t in rec.targets ==>
         rec'.targets[t].state == rec.targets[t].state && rec'.targets[t].original == rec.targets[t].original
  }

  /** The effect of skipping the unfinished ones among the first targets of the document. */
  ghost predicate SkippedSome(rec: RunRecord, rec': RunRecord, ts: seq<CaptureTarget>) {
    && rec'.state == rec.state && rec'.capture == rec.capture && rec'.targets.Keys == rec.targets.Keys
    && (forall t :: t in rec.targets ==> rec'.targets[t].original == rec.targets[t].original)
    && (forall i :: 0 <= i < |ts| && ts[i].id in rec.targets ==> !Unfinished(rec'.targets[ts[i].id]))
    && (forall t :: t in rec.targets && (forall i :: 0 <= i < |ts| ==> ts[i].id != t) ==>
          rec'.targets[t].state == rec.targets[t].state)
  }

  lemma SkipLeads(db: Db, id: string, t: string, a: Authority)
    requires DbOk(db) && id in db.runs && Sufficient(a) && db.runs[id].state.Starting?
    requires t in db.runs[id].targets && Unfinished(db.runs[id].targets[t])
    ensures Leads(db, [Skip(id, t, a)], id, WithTarget(db.runs[id], t, Skipped))
  {
    hide DbOk, Exec, AllAccepted, CaptureOk, HistoryOk, Trim, ValidJustification, IsAdmin, ValidId, StoppedBarrier,
         CompletionObjection;
    RunOf(db, id);
    OneCall(db, Skip(id, t, a));
    StepKeepsDb(db, Skip(id, t, a));
    assert TargetObjection(db.runs[id].state, db.runs[id].targets[t], Change(a, Skipped), ANY, a.audit).None?;
  }

  lemma {:induction false} SkipsLead(db: Db, id: string, targets: map<string, Target>, ts: seq<CaptureTarget>,
      a: Authority)
    requires DbOk(db) && id in db.runs && Sufficient(a) && db.runs[id].state.Starting? && DistinctIds(ts)
    requires targets.Keys == db.runs[id].targets.Keys
    requires forall t :: t in targets ==> targets[t].state == db.runs[id].targets[t].state
    ensures exists rec :: Leads(db, Skips(id, targets, ts, a), id, rec) && SkippedSome(db.runs[id], rec, ts)
    ensures |Skips(id, targets, ts, a)| <= |ts|
  {
    hide DbOk, Sufficient, Exec, AllAccepted;
    if ts == [] {
      NothingLeads(db, id);
      assert SkippedSome(db.runs[id], db.runs[id], ts);
    } else {
      var n := |ts| - 1;
      var t := ts[n].id;
      var first := Skips(id, targets, ts[..n], a);
      SkipsLead(db, id, targets, ts[..n], a);
      var mid :| Leads(db, first, id, mid) && SkippedSome(db.runs[id], mid, ts[..n]);
      if t in targets && Unfinished(targets[t]) {
        assert mid.targets[t].state == targets[t].state;
        SkipLeads(Exec(db, first), id, t, a);
        var end := WithTarget(mid, t, Skipped);
        LeadsOn(db, first, [Skip(id, t, a)], id, mid, end);
        assert SkippedSome(db.runs[id], end, ts) by { SkippedOne(db.runs[id], mid, ts); }
      } else {
        assert first == Skips(id, targets, ts, a);
        assert SkippedSome(db.runs[id], mid, ts) by { SkippedNone(db.runs[id], mid, ts); }
      }
    }
  }

  lemma SkippedOne(rec: RunRecord, mid: RunRecord, ts: seq<CaptureTarget>)
    requires ts != [] && DistinctIds(ts) && SkippedSome(rec, mid, ts[..|ts| - 1]) && ts[|ts| - 1].id in rec.targets
    ensures SkippedSome(rec, WithTarget(mid, ts[|ts| - 1].id, Skipped), ts)
  {
    var n := |ts| - 1;
    var end := WithTarget(mid, ts[n].id, Skipped);
    forall i | 0 <= i < |ts| && ts[i].id in rec.targets
      ensures !Unfinished(end.targets[ts[i].id])
    {
      if i < n {
        assert ts[..n][i] == ts[i];
      }
    }
  }

  lemma SkippedNone(rec: RunRecord, mid: RunRecord, ts: seq<CaptureTarget>)
    requires ts != [] && DistinctIds(ts) && SkippedSome(rec, mid, ts[..|ts| - 1])
    requires ts[|ts| - 1].id in rec.targets ==> !Unfinished(rec.targets[ts[|ts| - 1].id])
    ensures SkippedSome(rec, mid, ts)
  {
    var n := |ts| - 1;
    forall i | 0 <= i < |ts| && ts[i].id in rec.targets
      ensures !Unfinished(mid.targets[ts[i].id])
    {
      if i < n {
        assert ts[..n][i] == ts[i];
      }
    }
  }

  /** With every target finished, the run in its starting phase can complete. */
  lemma CompleteLeads(db: Db, id: string, a: Authority)
    requires DbOk(db) && id in db.runs && db.runs[id].state.Starting? && db.runs[id].targets != map[]
    requires forall t :: t in db.runs[id].targets ==> !Unfinished(db.runs[id].targets[t])
    ensures Leads(db, [Go(id, a, Completed)], id, Transitioned(db.runs[id], Completed))
  {
    hide DbOk, Exec, AllAccepted, EventsOf, Exercised, CaptureOk, ValidId, HistoryOk, ReopenObjection;
    RunOf(db, id);
    assert CompletionObjection(db.runs[id]).None?;
    GoLeads(db, id, a, Completed);
  }

  lemma CancelLeads(db: Db, id: string, a: Authority)
    requires DbOk(db) && id in db.runs && (db.runs[id].state.New? || db.runs[id].state.Captured?)
             && db.runs[id].targets == map[]
    ensures Leads(db, [Go(id, a, Cancelled)], id, Transitioned(db.runs[id], Cancelled))
  {
    hide DbOk, Exec, AllAccepted, EventsOf, Exercised, CaptureOk, ValidId, HistoryOk, ReopenObjection, StoppedBarrier,
         CompletionObjection;
    RunOf(db, id);
    UncapturedRun(id, db.runs[id], EventsOf(db.journal, id));
    GoLeads(db, id, a, Cancelled);
  }

  lemma PlanWithoutTargets(db: Db, id: string, a: Authority)
    requires DbOk(db) && id in db.runs && Sufficient(a) && !IsClosed(db.runs[id].state) && db.runs[id].targets == map[]
    ensures exists rec :: Leads(db, Plan(id, db.runs[id], a), id, rec) && rec.state.Cancelled?
    ensures |Plan(id, db.runs[id], a)| <= 3
  {
    hide DbOk, Exec, AllAccepted, EventsOf, Exercised, CaptureOk, ValidId, HistoryOk, ValidJustification, IsAdmin,
         ParseTargets, StoppedBarrier, CompletionObjection, TargetOk;
    var rec := db.runs[id];
    RunOf(db, id);
    if rec.state.New? {
      CancelLeads(db, id, a);
    } else if rec.capture.None? {
      GoLeads(db, id, a, New);
      var mid := Exec(db, [Go(id, a, New)]);
      CancelLeads(mid, id, a);
      LeadsOn(db, [Go(id, a, New)], [Go(id, a, Cancelled)], id, mid.runs[id], Transitioned(mid.runs[id], Cancelled));
      assert [Go(id, a, New)] + [Go(id, a, Cancelled)] == Plan(id, rec, a);
    } else {
      ReachLeads(db, id, a, Captured);
      var first := Reach(id, rec.state, Captured, a);
      var there :| Leads(db, first, id, there) && SameRun(rec, there) && there.state.Captured?;
      CancelLeads(Exec(db, first), id, a);
      LeadsOn(db, first, [Go(id, a, Cancelled)], id, there, Transitioned(there, Cancelled));
    }
  }

  /** The document behind a run that has targets. */
  lemma DocumentOf(db: Db, id: string)
    requires DbOk(db) && id in db.runs && db.runs[id].targets != map[]
    ensures var rec := db.runs[id];
            && rec.capture.Some? && ParseTargets(rec.capture.value.document).Some? && !rec.state.New?
            && var ts := ParseTargets(rec.capture.value.document).value;
            && TargetsOfCapture(rec.targets, ts) && |rec.targets| == |ts|
  {
    hide DbOk, HistoryOk, ParseTargets, StoppedBarrier, CompletionObjection, TargetOk, ValidId;
    RunOf(db, id);
    SameKeysSameSize(db.runs[id].targets, ParseTargets(db.runs[id].capture.value.document).value);
  }

  lemma AllFinished(rec: RunRecord, there: RunRecord, done: RunRecord, ts: seq<CaptureTarget>)
    requires TargetsOfCapture(rec.targets, ts) && SameRun(rec, there) && SkippedSome(there, done, ts)
             && rec.targets != map[]
    ensures done.targets != map[] && forall t :: t in done.targets ==> !Unfinished(done.targets[t])
  {
    var t :| t in rec.targets;
    assert t in done.targets;
    forall t | t in done.targets
      ensures !Unfinished(done.targets[t])
    {
      assert t in rec.targets;
      var i :| 0 <= i < |ts| && ts[i].id == t;
    }
  }

  lemma PlanWithTargets(db: Db, id: string, a: Authority)
    requires DbOk(db) && id in db.runs && Sufficient(a) && !IsClosed(db.runs[id].state) && db.runs[id].targets != map[]
    ensures exists rec :: Leads(db, Plan(id, db.runs[id], a), id, rec) && rec.state.Completed?
    ensures |Plan(id, db.runs[id], a)| <= |db.runs[id].targets| + 3
  {
    hide DbOk, Exec, AllAccepted, ParseTargets, Sufficient, BumpTargets, Unfinished, Skips, Reach, TargetsOfCapture;
    var rec := db.runs[id];
    DocumentOf(db, id);
    var ts := ParseTargets(rec.capture.value.document).value;
    ReachLeads(db, id, a, Starting);
    var reach := Reach(id, rec.state, Starting, a);
    var there :| Leads(db, reach, id, there) && SameRun(rec, there) && there.state.Starting?;
    var skips := Skips(id, rec.targets, ts, a);
    SkipsLead(Exec(db, reach), id, rec.targets, ts, a);
    var done :| Leads(Exec(db, reach), skips, id, done) && SkippedSome(there, done, ts);
    AllFinished(rec, there, done, ts);
    assert done.state.Starting?;
    hide SkippedSome, SameRun;
    LeadsOn(db, reach, skips, id, there, done);
    CompleteLeads(Exec(db, reach + skips), id, a);
    LeadsOn(db, reach + skips, [Go(id, a, Completed)], id, done, Transitioned(done, Completed));
    assert Plan(id, rec, a) == reach + skips + [Go(id, a, Completed)];
  }

  /** From every reachable run that is neither completed nor cancelled, with n targets, the plan has at
      most n + 3 calls, every one is accepted, and the run ends completed or cancelled. This covers
      runs never captured, captures without targets, and healthy targets in a reopened stop phase. */
  lemma LocksCanBeReleased(calls: seq<Call>, id: string, a: Authority)
    requires id in Exec(EMPTY_DB, calls).runs && !IsClosed(Exec(EMPTY_DB, calls).runs[id].state) && Sufficient(a)
    ensures var db := Exec(EMPTY_DB, calls);
            var plan := Plan(id, db.runs[id], a);
            && |plan| <= |db.runs[id].targets| + 3
            && AllAccepted(db, plan)
            && id in Exec(db, plan).runs && IsClosed(Exec(db, plan).runs[id].state)
            && forall key :: !HoldsLock(Exec(db, plan).runs[id], key)
  {
    Reachable(calls);
    var db := Exec(EMPTY_DB, calls);
    hide Exec, DbOk, Plan, AllAccepted, Sufficient;
    if db.runs[id].targets == map[] {
      PlanWithoutTargets(db, id, a);
    } else {
      PlanWithTargets(db, id, a);
    }
  }
}
