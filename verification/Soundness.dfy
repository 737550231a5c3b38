/** What verification rules out. A database that verifies is, apart from the set of run ids, determined by its
    journal: whoever changes a row, but not the journal, is found out. */
module Soundness {
  import opened Lifecycle
  import opened Records
  import opened Writer
  import opened Replay
  import opened Invariant
  import opened Versions
  import opened Agreement

  // ---- What a verified run looks like ----

  function Ids(ts: seq<CaptureTarget>): set<string> { set i | 0 <= i < |ts| :: ts[i].id }

  lemma {:induction false} IdsCount(ts: seq<CaptureTarget>)
    requires DistinctIds(ts)
    ensures |Ids(ts)| == |ts|
  {
    if ts == [] {
      assert Ids(ts) == {};
    } else {
      var n := |ts| - 1;
      IdsCount(ts[..n]);
      assert Ids(ts) == Ids(ts[..n]) + {ts[n].id};
    }
  }

  lemma SubsetOfSameSize(a: set<string>, b: set<string>)
    requires a <= b && |a| == |b|
    ensures a == b
  {
    assert b == a + (b - a);
  }

  /** The stored rows equal the replay of the journal, field by field. */
  ghost predicate EqualsReplay(rec: RunRecord, r: ReplayRun) {
    && rec.state == r.state && rec.version == r.revision && (rec.capture.Some? <==> r.captured)
    && rec.targets.Keys == r.targets.Keys
    && forall t :: t in rec.targets ==>
         rec.targets[t].state == r.targets[t].state && rec.targets[t].version == r.targets[t].version
  }

  /** The targets are those of the document, with its keys, original states and carried fields. */
  ghost predicate TargetsOf(targets: map<string, Target>, ts: seq<CaptureTarget>) {
    && targets.Keys == Ids(ts)
    && forall i :: 0 <= i < |ts| ==>
         && ts[i].id in targets
         && targets[ts[i].id].lockKey == ts[i].lockKey
         && targets[ts[i].id].original == ts[i].original
         && targets[ts[i].id].carried == ts[i].carried
  }

  /** The stored rows equal the saved document, field by field, and the digest is the document's. */
  ghost predicate EqualsCapture(rec: RunRecord) {
    && (rec.capture.None? ==> rec.targets == map[])
    && (rec.capture.Some? ==>
          && rec.capture.value.digest == Sha256(rec.capture.value.document)
          && ParseTargets(rec.capture.value.document).Some?
          && TargetsOf(rec.targets, ParseTargets(rec.capture.value.document).value))
  }

  lemma CountedTargets(targets: map<string, Target>, ts: seq<CaptureTarget>)
    requires DistinctIds(ts) && |targets| == |ts|
    requires forall t :: t in targets ==> exists i :: 0 <= i < |ts| && ts[i].id == t && SameIdentity(targets[t], ts[i])
    ensures TargetsOf(targets, ts)
  {
    IdsCount(ts);
    assert targets.Keys <= Ids(ts);
    SubsetOfSameSize(targets.Keys, Ids(ts));
    forall i | 0 <= i < |ts|
      ensures ts[i].id in targets && SameIdentity(targets[ts[i].id], ts[i])
    {
      assert ts[i].id in Ids(ts);
      var j :| 0 <= j < |ts| && ts[j].id == ts[i].id && SameIdentity(targets[ts[i].id], ts[j]);
    }
  }

  lemma RunVerifiedReplays(id: string, rec: RunRecord, events: seq<Event>)
    requires RunVerified(id, rec, events)
    ensures ReplayAll(events, rec.capture).Some? && EqualsReplay(rec, ReplayAll(events, rec.capture).value)
    ensures ReplayAll(events, rec.capture).value.created == Some(CreatedRun(id, rec.identity))
  {
    hide ReplayAll, ParseTargets, CaptureLoads, SameIdentity;
    SubsetOfSameSize(rec.targets.Keys, ReplayAll(events, rec.capture).value.targets.Keys);
  }

  lemma RunVerifiedCapture(id: string, rec: RunRecord, events: seq<Event>)
    requires RunVerified(id, rec, events)
    ensures EqualsCapture(rec)
  {
    hide ReplayAll, ParseTargets, TargetsOf, SameIdentity;
    CountedTargets(rec.targets, CapturedTargets(rec.capture));
  }

  lemma RunVerifiedMeans(id: string, rec: RunRecord, events: seq<Event>)
    requires RunVerified(id, rec, events)
    ensures ReplayAll(events, rec.capture).Some? && EqualsReplay(rec, ReplayAll(events, rec.capture).value)
    ensures ReplayAll(events, rec.capture).value.created == Some(CreatedRun(id, rec.identity))
    ensures EqualsCapture(rec)
  {
    hide ReplayAll, RunVerified, EqualsReplay, EqualsCapture;
    RunVerifiedReplays(id, rec, events);
    RunVerifiedCapture(id, rec, events);
  }

  /** Verification is sound: in a database that verifies, the journal of every run replays from nothing, and
      the stored run, its targets and its capture equal what the journal and the saved document say. */
  lemma VerifiedMeans(db: Db, id: string)
    requires Verified(db) && id in db.runs
    ensures var rec, events := db.runs[id], EventsOf(db.journal, id);
            && ReplayAll(events, rec.capture).Some?
            && EqualsReplay(rec, ReplayAll(events, rec.capture).value)
            && ReplayAll(events, rec.capture).value.created == Some(CreatedRun(id, rec.identity))
            && EqualsCapture(rec)
  {
    hide ReplayAll, EventsOf, RunVerified, EqualsReplay, EqualsCapture;
    RunVerifiedMeans(id, db.runs[id], EventsOf(db.journal, id));
  }

  /** No two runs that are neither completed nor cancelled share a lock key. */
  lemma VerifiedLocks(db: Db, a: string, b: string, t: string, u: string)
    requires Verified(db) && a in db.runs && b in db.runs && t in db.runs[a].targets && u in db.runs[b].targets
    requires db.runs[a].targets[t].lockKey == db.runs[b].targets[u].lockKey
    requires db.runs[a].state !in {Completed, Cancelled} && db.runs[b].state !in {Completed, Cancelled}
    ensures a == b
  {
    hide RunVerified, EventShapeOk, GlobalEventOk;
    var key := db.runs[a].targets[t].lockKey;
    assert HoldsLock(db.runs[a], key) && HoldsLock(db.runs[b], key);
  }

  // ---- The journal determines the rest ----

  /** Every capture event carries the digest of the capture it was replayed with. */
  lemma {:induction false} DigestsAgree(events: seq<Event>, capture: Option<Capture>, i: int)
    requires ReplayAll(events, capture).Some? && 0 <= i < |events| && events[i].kind.MaintenanceCaptured?
    ensures capture.Some? && events[i].payload.CapturePayload? && events[i].payload.digest == capture.value.digest
  {
    hide Check;
    var n := |events| - 1;
    if i < n {
      DigestsAgree(events[..n], capture, i);
    } else {
      DigestChecked(ReplayAll(events[..n], capture).value, events[n], capture);
    }
  }

  lemma DigestChecked(r: ReplayRun, e: Event, capture: Option<Capture>)
    requires Check(r, e, capture).Some? && e.kind.MaintenanceCaptured?
    ensures capture.Some? && e.payload.CapturePayload? && e.payload.digest == capture.value.digest
  {
    hide EventShapeOk, ParseTargets, AddCaptured;
  }

  lemma SameCapture(id: string, rec: RunRecord, rec': RunRecord, events: seq<Event>)
    requires RunVerified(id, rec, events) && RunVerified(id, rec', events)
    ensures rec.capture == rec'.capture
  {
    hide ReplayAll, ParseTargets, HasCapture;
    Conservation(events, rec.capture);
    Conservation(events, rec'.capture);
    if HasCapture(events) {
      var i := CaptureIndex(events);
      DigestsAgree(events, rec.capture, i);
      DigestsAgree(events, rec'.capture, i);
    }
  }

  lemma CaptureIndex(events: seq<Event>) returns (i: int)
    requires HasCapture(events)
    ensures 0 <= i < |events| && events[i].kind.MaintenanceCaptured?
  {
    i :| 0 <= i < |events| && events[i].kind.MaintenanceCaptured?;
  }

  lemma SameTargets(rec: RunRecord, rec': RunRecord, r: ReplayRun)
    requires rec.capture == rec'.capture && EqualsCapture(rec) && EqualsCapture(rec')
    requires EqualsReplay(rec, r) && EqualsReplay(rec', r)
    ensures rec.targets == rec'.targets
  {
    hide ParseTargets, TargetsOf;
    if rec.capture.Some? {
      var ts := ParseTargets(rec.capture.value.document).value;
      forall t | t in rec.targets
        ensures rec.targets[t] == rec'.targets[t]
      {
        SameTarget(rec.targets, rec'.targets, ts, t);
      }
    }
  }

  lemma SameTarget(a: map<string, Target>, b: map<string, Target>, ts: seq<CaptureTarget>, t: string)
    requires TargetsOf(a, ts) && TargetsOf(b, ts) && t in a && t in b
    ensures a[t].lockKey == b[t].lockKey && a[t].original == b[t].original && a[t].carried == b[t].carried
  {
    assert t in Ids(ts);
    var i :| 0 <= i < |ts| && ts[i].id == t;
  }

  lemma SameRecord(id: string, rec: RunRecord, rec': RunRecord, events: seq<Event>)
    requires RunVerified(id, rec, events) && RunVerified(id, rec', events)
    ensures rec == rec'
  {
    hide ReplayAll, RunVerified, EqualsCapture;
    SameCapture(id, rec, rec', events);
    RunVerifiedMeans(id, rec, events);
    RunVerifiedMeans(id, rec', events);
    SameTargets(rec, rec', ReplayAll(events, rec.capture).value);
  }

  /** Two databases that verify, with the same journal and the same run ids, are the same: the journal
      determines every state, version, identity, capture and target. */
  lemma JournalDeterminesAll(db: Db, db': Db)
    requires Verified(db) && Verified(db') && db.journal == db'.journal && db.runs.Keys == db'.runs.Keys
    ensures db == db'
  {
    hide RunVerified, EventsOf, LocksExclusive, EventShapeOk, GlobalEventOk;
    forall id | id in db.runs
      ensures db.runs[id] == db'.runs[id]
    {
      assert id in db'.runs;
      SameRecord(id, db.runs[id], db'.runs[id], EventsOf(db.journal, id));
    }
  }

  /** So tampering is found: change any field of one target of a verified database and nothing else, and it no
      longer verifies. */
  lemma TamperedTargetIsFound(db: Db, id: string, t: string, target: Target)
    requires Verified(db) && id in db.runs && t in db.runs[id].targets && target != db.runs[id].targets[t]
    ensures var rec := db.runs[id].(targets := db.runs[id].targets[t := target]);
            !Verified(Db(db.runs[id := rec], db.journal))
  {
    hide Verified;
    var db' := Db(db.runs[id := db.runs[id].(targets := db.runs[id].targets[t := target])], db.journal);
    assert db'.runs[id].targets[t] != db.runs[id].targets[t];
    if Verified(db') {
      JournalDeterminesAll(db, db');
    }
  }

  /** The same for the state, the version, the identity, the document or the digest of a run, or for targets
      added or removed. */
  lemma TamperedRunIsFound(db: Db, id: string, rec: RunRecord)
    requires Verified(db) && id in db.runs && rec != db.runs[id]
    ensures !Verified(Db(db.runs[id := rec], db.journal))
  {
    hide Verified;
    var db' := Db(db.runs[id := rec], db.journal);
    assert db'.runs[id] != db.runs[id];
    if Verified(db') {
      JournalDeterminesAll(db, db');
    }
  }
}
