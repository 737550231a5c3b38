/** Conditional writes from the header text to the database: the scanner of internal/api/server.go composed
    with the version checks of internal/store. */
module Conditional {
  import opened Records
  import opened Text
  import opened Writer
  import opened Versions
  import opened IfMatch

  /** What the store says to a condition that was read from a header is the strong comparison of the header
      with the current version; it never asks such a client for a condition. */
  lemma ObjectionIsComparison(raw: string, version: int)
    requires Understood(raw).Condition? && 1 <= version < INT64_LIMIT
    ensures Understood(raw).pre.Objection(version)
         == if StronglyMatches(raw, version) then None else Some(VersionConflict)
  {
    UnderstoodExactly(raw);
    hide ParseList, NamedVersions, StronglyMatches;
  }

  /** The comparison, for the versions a 64-bit tag can name. */
  ghost predicate HeaderMatches(raw: string, version: int) {
    1 <= version < INT64_LIMIT ==> StronglyMatches(raw, version)
  }

  /** A change of a run or a target, and a new observation, sent with a header, are accepted only if the
      header strongly matches the version they meet. */
  lemma AcceptedMatchesStrongly(db: Db, id: string, tid: string, change: StateChange, payload: Option<Json>,
                                raw: string, audit: AuditContext)
    requires Understood(raw).Condition?
    ensures Accepted(db, TransitionRun(id, change, Understood(raw).pre, audit)) ==>
              id in db.runs && HeaderMatches(raw, db.runs[id].version)
    ensures Accepted(db, TransitionTarget(id, tid, change, Understood(raw).pre, audit)) ==>
              && id in db.runs && tid in db.runs[id].targets
              && HeaderMatches(raw, db.runs[id].targets[tid].version)
    ensures Decide(db, Observe(id, tid, payload, Understood(raw).pre, audit)).Ok?
            && Decide(db, Observe(id, tid, payload, Understood(raw).pre, audit)).value.Recorded? ==>
              && id in db.runs && tid in db.runs[id].targets
              && HeaderMatches(raw, db.runs[id].targets[tid].version)
  {
    var pre := Understood(raw).pre;
    AcceptedHasNoObjection(db, id, tid, change, payload, pre, audit);
    hide Understood, StronglyMatches, Accepted, Decide;
    if id in db.runs {
      Compared(raw, db.runs[id].version);
      if tid in db.runs[id].targets {
        Compared(raw, db.runs[id].targets[tid].version);
      }
    }
  }

  lemma Compared(raw: string, version: int)
    requires Understood(raw).Condition?
    ensures Understood(raw).pre.Objection(version).None? ==> HeaderMatches(raw, version)
  {
    hide Understood, StronglyMatches;
    if 1 <= version < INT64_LIMIT {
      ObjectionIsComparison(raw, version);
    }
  }

  lemma AcceptedHasNoObjection(db: Db, id: string, tid: string, change: StateChange, payload: Option<Json>,
                               pre: VersionPrecondition, audit: AuditContext)
    ensures Accepted(db, TransitionRun(id, change, pre, audit)) ==>
              id in db.runs && pre.Objection(db.runs[id].version).None?
    ensures Accepted(db, TransitionTarget(id, tid, change, pre, audit)) ==>
              && id in db.runs && tid in db.runs[id].targets
              && pre.Objection(db.runs[id].targets[tid].version).None?
    ensures Decide(db, Observe(id, tid, payload, pre, audit)).Ok?
            && Decide(db, Observe(id, tid, payload, pre, audit)).value.Recorded? ==>
              && id in db.runs && tid in db.runs[id].targets
              && pre.Objection(db.runs[id].targets[tid].version).None?
  {
    hide ValidId, ValidJustification, IsAdmin, Trim, Exercised, EventsOf, ReopenObjection, CompletionObjection,
         StoppedBarrier, FindObservation;
  }

  /** No lost update, from response header to request header: a client that sends back the tag it was given
      for a run, or for a target, is answered with a write only if what it read is still there. */
  lemma NoLostUpdateByTag(calls: seq<Call>, i: nat, id: string, tid: string, change: StateChange, audit: AuditContext)
    requires i <= |calls| && id in Exec(EMPTY_DB, calls[..i]).runs
    ensures var read, now := Exec(EMPTY_DB, calls[..i]), Exec(EMPTY_DB, calls);
            var v := read.runs[id].version;
            1 <= v < INT64_LIMIT ==>
              && Understood(VersionETag(v)).Condition? && id in now.runs
              && (Accepted(now, TransitionRun(id, change, Understood(VersionETag(v)).pre, audit)) ==>
                    now.runs[id] == read.runs[id])
    ensures var read, now := Exec(EMPTY_DB, calls[..i]), Exec(EMPTY_DB, calls);
            tid in read.runs[id].targets && 1 <= read.runs[id].targets[tid].version < INT64_LIMIT ==>
              var v := read.runs[id].targets[tid].version;
              && Understood(VersionETag(v)).Condition? && id in now.runs && tid in now.runs[id].targets
              && (Accepted(now, TransitionTarget(id, tid, change, Understood(VersionETag(v)).pre, audit)) ==>
                    now.runs[id].targets[tid] == read.runs[id].targets[tid]
                        && now.runs[id].state == read.runs[id].state)
  {
    hide Exec, Accepted, Understood, VersionETag;
    assert calls[..|calls|] == calls;
    NoAba(calls, i, |calls|, id);
    NoLostUpdate(calls, i, id, tid, change, audit);
    var read := Exec(EMPTY_DB, calls[..i]);
    if 1 <= read.runs[id].version < INT64_LIMIT {
      OwnTag(read.runs[id].version);
    }
    if tid in read.runs[id].targets && 1 <= read.runs[id].targets[tid].version < INT64_LIMIT {
      OwnTag(read.runs[id].targets[tid].version);
    }
  }
}
