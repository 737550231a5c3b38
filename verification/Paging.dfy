/** Keyset paging over tables that grow while they are read (internal/store/reads.go). Rows are numbered
    1, 2, 3, ... in insertion order; a page lists matching rows from the newest down, below a cursor. */
module Paging {
  import opened Lifecycle
  import opened Text
  import opened Records
  import opened Writer
  import opened Histories
  import opened Safety

  /** pageLimit. */
  function PageLimit(requested: int): (limit: nat)
    ensures 1 <= limit <= 200
  {
    if requested <= 0 then 100 else if requested > 200 then 200 else requested
  }

  /** The first n matching row ids from row `top` down: ORDER BY id DESC LIMIT n. */
  function Select<T>(rows: seq<T>, p: T -> bool, top: nat, n: nat): seq<int>
    requires top <= |rows|
  {
    if top == 0 || n == 0 then []
    else if p(rows[top - 1]) then [top as int] + Select(rows, p, top - 1, n - 1)
    else Select(rows, p, top - 1, n)
  }

  /** The newest row a cursor lets through; cursor 0 stands for no cursor. */
  function Top<T>(rows: seq<T>, cursor: nat): (top: nat)
    ensures top <= |rows|
  {
    if cursor == 0 || cursor > |rows| then |rows| else cursor - 1
  }

  datatype Page = Page(ids: seq<int>, next: Option<int>)

  /** One page: ask for one row more than the limit, and keep it only as the sign that there is more. */
  function PageOf<T>(rows: seq<T>, p: T -> bool, cursor: nat, limit: nat): Page
    requires limit >= 1
  {
    var found := Select(rows, p, Top(rows, cursor), limit + 1);
    if |found| > limit then Page(found[..limit], Some(found[limit - 1])) else Page(found, None)
  }

  /** Row ids strictly from the newest down, none above `top`. */
  predicate Descends(ids: seq<int>, top: int) {
    && (forall i :: 0 <= i < |ids| ==> 1 <= ids[i] <= top)
    && (forall i, j :: 0 <= i < j < |ids| ==> ids[i] > ids[j])
  }

  // ---- What Select returns ----

  lemma {:induction false} SelectShape<T>(rows: seq<T>, p: T -> bool, top: nat, n: nat)
    requires top <= |rows|
    ensures |Select(rows, p, top, n)| <= n
    ensures forall i :: 0 <= i < |Select(rows, p, top, n)| ==>
              1 <= Select(rows, p, top, n)[i] <= top && p(rows[Select(rows, p, top, n)[i] - 1])
    ensures forall i, j :: 0 <= i < j < |Select(rows, p, top, n)| ==>
            Select(rows, p, top, n)[i] > Select(rows, p, top, n)[j]
  {
    if top > 0 && n > 0 {
      if p(rows[top - 1]) {
        SelectShape(rows, p, top - 1, n - 1);
      } else {
        SelectShape(rows, p, top - 1, n);
      }
    }
  }

  /** A matching row is selected, unless the selection ran full above it. */
  lemma {:induction false} SelectFinds<T>(rows: seq<T>, p: T -> bool, top: nat, n: nat, row: int)
    requires top <= |rows| && 1 <= row <= top && p(rows[row - 1])
    ensures row in Select(rows, p, top, n) || (|Select(rows, p, top, n)| == n
            && (n > 0 ==> Select(rows, p, top, n)[n - 1] > row))
  {
    if n > 0 && row < top {
      if p(rows[top - 1]) {
        SelectFinds(rows, p, top - 1, n - 1, row);
      } else {
        SelectFinds(rows, p, top - 1, n, row);
      }
    }
  }

  /** Rows above the top play no part, and a table keeps its old rows while it grows. */
  lemma {:induction false} SelectStable<T>(rows: seq<T>, more: seq<T>, p: T -> bool, top: nat, n: nat)
    requires top <= |rows| && rows <= more
    ensures Select(more, p, top, n) == Select(rows, p, top, n)
  {
    if top > 0 && n > 0 {
      if p(rows[top - 1]) {
        SelectStable(rows, more, p, top - 1, n - 1);
      } else {
        SelectStable(rows, more, p, top - 1, n);
      }
    }
  }

  /** All matching rows from one row down. */
  function Matching<T>(rows: seq<T>, p: T -> bool, top: nat): seq<int>
    requires top <= |rows|
  {
    Select(rows, p, top, top)
  }

  /** Asking for more than a full selection continues below its last row. */
  lemma {:induction false} SelectContinues<T>(rows: seq<T>, p: T -> bool, top: nat, n: nat, m: nat)
    requires top <= |rows| && 1 <= n <= m && |Select(rows, p, top, n)| == n
    ensures 1 <= Select(rows, p, top, n)[n - 1] <= top
    ensures Select(rows, p, top, m) == Select(rows, p, top, n)
            + Select(rows, p, Select(rows, p, top, n)[n - 1] - 1, m - n)
  {
    SelectShape(rows, p, top, n);
    if p(rows[top - 1]) {
      if n > 1 {
        SelectContinues(rows, p, top - 1, n - 1, m - 1);
      }
    } else {
      SelectContinues(rows, p, top - 1, n, m);
    }
  }

  /** A selection that did not run full is complete. */
  lemma {:induction false} SelectComplete<T>(rows: seq<T>, p: T -> bool, top: nat, n: nat, m: nat)
    requires top <= |rows| && |Select(rows, p, top, n)| < n && n <= m
    ensures Select(rows, p, top, m) == Select(rows, p, top, n)
  {
    if top > 0 {
      if p(rows[top - 1]) {
        SelectComplete(rows, p, top - 1, n - 1, m - 1);
      } else {
        SelectComplete(rows, p, top - 1, n, m);
      }
    }
  }

  lemma {:induction false} SelectEnough<T>(rows: seq<T>, p: T -> bool, top: nat, n: nat)
    requires top <= |rows| && n >= top
    ensures Select(rows, p, top, n) == Matching(rows, p, top)
  {
    if top > 0 {
      if p(rows[top - 1]) {
        SelectEnough(rows, p, top - 1, n - 1);
      } else {
        SelectEnough(rows, p, top - 1, n);
        SelectEnough(rows, p, top - 1, top);
      }
    }
  }

  /** Cutting a selection short keeps its front. */
  lemma {:induction false} SelectFront<T>(rows: seq<T>, p: T -> bool, top: nat, n: nat, m: nat)
    requires top <= |rows| && n <= m && |Select(rows, p, top, m)| >= n
    ensures Select(rows, p, top, n) == Select(rows, p, top, m)[..n]
  {
    if top > 0 && n > 0 {
      if p(rows[top - 1]) {
        SelectFront(rows, p, top - 1, n - 1, m - 1);
      } else {
        SelectFront(rows, p, top - 1, n, m);
      }
    }
  }

  /** A page and what is left for the next one together are all matching rows. */
  lemma PageSplits<T>(rows: seq<T>, p: T -> bool, cursor: nat, limit: nat)
    requires limit >= 1
    ensures var page := PageOf(rows, p, cursor, limit);
            var top := Top(rows, cursor);
            if page.next.None? then page.ids == Matching(rows, p, top)
            else
              && |page.ids| == limit && page.ids[limit - 1] == page.next.value
              && 1 <= page.next.value <= top
              && Matching(rows, p, top) == page.ids + Matching(rows, p, page.next.value - 1)
  {
    var top := Top(rows, cursor);
    var found := Select(rows, p, top, limit + 1);
    SelectShape(rows, p, top, limit + 1);
    if |found| <= limit {
      SelectComplete(rows, p, top, limit + 1, limit + 1 + top);
      SelectEnough(rows, p, top, limit + 1 + top);
    } else {
      SelectFront(rows, p, top, limit, limit + 1);
      SelectContinues(rows, p, top, limit, limit + top);
      SelectEnough(rows, p, top, limit + top);
      SelectEnough(rows, p, found[limit - 1] - 1, top);
    }
  }

  // ---- A client following next_cursor ----

  /** A table over time: what the client's k-th request finds. */
  ghost predicate Grows<T(!new)>(env: nat -> seq<T>) {
    forall k: nat :: env(k) <= env(k + 1)
  }

  /** A table whose rows may change but never disappear. */
  ghost predicate KeepsRows<T(!new)>(env: nat -> seq<T>) {
    forall k: nat :: |env(k)| <= |env(k + 1)|
  }

  /** The row ids of all pages from the k-th request on. */
  function Follow<T>(env: nat -> seq<T>, p: T -> bool, limit: nat, k: nat, cursor: nat): seq<int>
    requires limit >= 1
    decreases if cursor == 0 then |env(k)| + 1 else cursor
  {
    var page := PageOf(env(k), p, cursor, limit);
    if page.next.None? then page.ids
    else
      PageSplits(env(k), p, cursor, limit);
      page.ids + Follow(env, p, limit, k + 1, page.next.value)
  }

  lemma {:induction false} GrowsFromStart<T(!new)>(env: nat -> seq<T>, k: nat)
    requires Grows(env)
    ensures env(0) <= env(k)
  {
    if k > 0 {
      GrowsFromStart(env, k - 1);
      assert env(k - 1) <= env(k - 1 + 1);
    }
  }

  lemma {:induction false} FollowBelow<T(!new)>(env: nat -> seq<T>, p: T -> bool, limit: nat, k: nat, cursor: nat)
    requires Grows(env) && limit >= 1 && 1 <= cursor <= |env(0)|
    ensures Follow(env, p, limit, k, cursor) == Matching(env(0), p, cursor - 1)
    decreases cursor
  {
    GrowsFromStart(env, k);
    var page := PageOf(env(k), p, cursor, limit);
    PageSplits(env(k), p, cursor, limit);
    SelectStable(env(0), env(k), p, cursor - 1, cursor - 1);
    if page.next.Some? {
      var next := page.next.value;
      SelectStable(env(0), env(k), p, next - 1, next - 1);
      FollowBelow(env, p, limit, k + 1, next);
    }
  }

  /** Paging an append-only table is complete and free of duplicates: following next_cursor until it is
      absent ends, and the pages together are exactly the rows that matched at the first request, each
      once, from the newest down, whatever was appended meanwhile. */
  lemma PagingIsExact<T(!new)>(env: nat -> seq<T>, p: T -> bool, limit: nat)
    requires Grows(env) && limit >= 1
    ensures var all := Follow(env, p, limit, 0, 0);
            && all == Matching(env(0), p, |env(0)|)
            && Descends(all, |env(0)|)
            && (forall row :: row in all <==> 1 <= row <= |env(0)| && p(env(0)[row - 1]))
  {
    var rows := env(0);
    PageSplits(rows, p, 0, limit);
    var page := PageOf(rows, p, 0, limit);
    if page.next.Some? {
      FollowBelow(env, p, limit, 1, page.next.value);
    }
    SelectShape(rows, p, |rows|, |rows|);
    forall row | 1 <= row <= |rows| && p(rows[row - 1])
      ensures row in Matching(rows, p, |rows|)
    {
      MatchingFinds(rows, p, |rows|, row);
    }
  }

  lemma {:induction false} MatchingFinds<T>(rows: seq<T>, p: T -> bool, top: nat, row: int)
    requires top <= |rows| && 1 <= row <= top && p(rows[row - 1])
    ensures row in Matching(rows, p, top)
  {
    SelectFinds(rows, p, top, top + 1, row);
    SelectEnough(rows, p, top, top + 1);
    SelectShape(rows, p, top, top);
  }

  /** Where rows can change between pages, as the list of runs does: the rows still come strictly from the
      newest down, without duplicates, only rows of the first request, and no row that matches all along
      is missed. */
  lemma {:induction false} PagingOfChangingRows<T(!new)>(env: nat -> seq<T>, p: T -> bool, limit: nat, k: nat,
      cursor: nat)
    requires KeepsRows(env) && limit >= 1 && (cursor == 0 || cursor <= |env(k)|)
    ensures var all := Follow(env, p, limit, k, cursor);
            && Descends(all, Top(env(k), cursor))
            && (forall row :: 1 <= row <= Top(env(k), cursor) && MatchesFrom(env, p, k, row) ==> row in all)
    decreases if cursor == 0 then |env(k)| + 1 else cursor
  {
    var rows, top := env(k), Top(env(k), cursor);
    var page := PageOf(rows, p, cursor, limit);
    PageSplits(rows, p, cursor, limit);
    SelectShape(rows, p, top, top);
    forall row | 1 <= row <= top && MatchesFrom(env, p, k, row)
      ensures row in Matching(rows, p, top)
    {
      MatchingFinds(rows, p, top, row);
    }
    if page.next.Some? {
      var next := page.next.value;
      assert |env(k)| <= |env(k + 1)|;
      PagingOfChangingRows(env, p, limit, k + 1, next);
      var rest, below := Follow(env, p, limit, k + 1, next), Matching(rows, p, next - 1);
      assert Top(env(k + 1), next) == next - 1;
      PageIsFront(page.ids, below, top, next);
      DescendingJoin(page.ids, rest, top, next);
      forall row | 1 <= row <= top && MatchesFrom(env, p, k, row)
        ensures row in page.ids + rest
      {
        if row >= next {
          SelectShape(rows, p, next - 1, next - 1);
          assert row in page.ids + below;
        } else {
          assert MatchesFrom(env, p, k + 1, row);
        }
      }
    }
  }

  /** A page of a descending list descends, down to its last row. */
  lemma PageIsFront(ids: seq<int>, below: seq<int>, top: int, next: int)
    requires Descends(ids + below, top) && ids != [] && ids[|ids| - 1] == next
    ensures Descends(ids, top) && forall i :: 0 <= i < |ids| ==> next <= ids[i]
  {
    var all := ids + below;
    assert forall i :: 0 <= i < |ids| ==> all[i] == ids[i];
  }

  lemma DescendingJoin(ids: seq<int>, rest: seq<int>, top: int, next: int)
    requires Descends(ids, top) && Descends(rest, next - 1) && next <= top + 1
    requires forall i :: 0 <= i < |ids| ==> next <= ids[i]
    ensures Descends(ids + rest, top)
  {
    var all := ids + rest;
    assert forall i :: 0 <= i < |all| ==> all[i] == if i < |ids| then ids[i] else rest[i - |ids|];
  }

  ghost predicate MatchesFrom<T(!new)>(env: nat -> seq<T>, p: T -> bool, k: nat, row: int) {
    forall j: nat :: j >= k ==> 1 <= row <= |env(j)| && p(env(j)[row - 1])
  }

  // ---- The event feed ----

  datatype Cursor = NoCursor | BadCursor | At(id: int)

  datatype EventFilter = EventFilter(
    maintenanceId: string, targetId: string, eventType: Option<EventKind>, resourceType: Option<ResourceType>,
    resourceId: string, actor: string, role: string, requestId: string)

  predicate Selected(f: EventFilter, e: Event) {
    && (f.maintenanceId == "" || e.maintenanceId == f.maintenanceId)
    && (f.targetId == "" || e.targetId == f.targetId)
    && (f.eventType.None? || e.kind == f.eventType.value)
    && (f.resourceType.None? || e.resourceType == f.resourceType.value)
    && (f.resourceId == "" || e.resourceId == f.resourceId)
    && (f.actor == "" || e.actor == f.actor)
    && (f.role == "" || e.role == f.role)
    && (f.requestId == "" || e.requestId == f.requestId)
  }

  /** Every field that the filter sets is the event's. */
  ghost predicate Agrees(f: EventFilter, e: Event) {
    && (f.maintenanceId != "" ==> f.maintenanceId == e.maintenanceId)
    && (f.targetId != "" ==> f.targetId == e.targetId)
    && (f.eventType.Some? ==> f.eventType == Some(e.kind))
    && (f.resourceType.Some? ==> f.resourceType == Some(e.resourceType))
    && (f.resourceId != "" ==> f.resourceId == e.resourceId)
    && (f.actor != "" ==> f.actor == e.actor)
    && (f.role != "" ==> f.role == e.role)
    && (f.requestId != "" ==> f.requestId == e.requestId)
  }

  lemma SelectedAgrees(f: EventFilter, e: Event)
    ensures Selected(f, e) <==> Agrees(f, e)
  {
  }

  /** decodeEventCursor on a decoded text: absent, or an id of at least 1. */
  function CursorId(c: Cursor): Option<nat> {
    match c
    case NoCursor => Some(0)
    case BadCursor => None
    case At(id) => if id < 1 then None else Some(id)
  }

  datatype EventPage = EventPage(items: seq<Event>, next: Option<int>)

  /** ListEvents: check the request, read one row more than the limit, trim, name the next cursor. */
  method ListEvents(journal: seq<Event>, f: EventFilter, cursor: Cursor, requested: int) returns (r: Outcome<EventPage>)
    requires forall i :: 0 <= i < |journal| ==> journal[i].id == i + 1
    ensures r.Err? <==>
              || (f.maintenanceId != "" && !ValidId(f.maintenanceId)) || (f.targetId != "" && !ValidId(f.targetId))
              || (f.targetId != "" && f.maintenanceId == "")
              || cursor.BadCursor? || (cursor.At? && cursor.id < 1)
    ensures r.Ok? ==> forall i :: 0 <= i < |r.value.items| ==> Agrees(f, r.value.items[i])
    ensures r.Ok? ==>
              var limit := if requested <= 0 then 100 else if requested > 200 then 200 else requested;
              |r.value.items| <= limit && (r.value.next.Some? ==> |r.value.items| == limit)
    ensures r.Ok? ==>
              var page := PageOf(journal, e => Selected(f, e), CursorId(cursor).value, PageLimit(requested));
              && r.value.next == page.next && |r.value.items| == |page.ids|
              && forall i :: 0 <= i < |page.ids| ==>
                   1 <= page.ids[i] <= |journal| && r.value.items[i] == journal[page.ids[i] - 1]
  {
    hide ValidId, Selected, Agrees;
    if f.maintenanceId != "" && !ValidId(f.maintenanceId) {
      return Err(Invalid);
    }
    if f.targetId != "" && !ValidId(f.targetId) {
      return Err(Invalid);
    }
    if f.targetId != "" && f.maintenanceId == "" {
      return Err(Invalid);
    }
    var start := CursorId(cursor);
    if start.None? {
      return Err(Invalid);
    }
    var limit := PageLimit(requested);
    var p := e => Selected(f, e);
    var found := Select(journal, p, Top(journal, start.value), limit + 1);
    SelectShape(journal, p, Top(journal, start.value), limit + 1);
    var items: seq<Event> := [];
    for i := 0 to |found|
      invariant |items| == i
      invariant forall j :: 0 <= j < i ==> Agrees(f, items[j])
      invariant forall j :: 0 <= j < i ==> items[j] == journal[found[j] - 1]
    {
      SelectedAgrees(f, journal[found[i] - 1]);
      items := items + [journal[found[i] - 1]];
    }
    if |items| > limit {
      return Ok(EventPage(items[..limit], Some(items[limit - 1].id)));
    }
    return Ok(EventPage(items, None));
  }

  /** The event feed is exact: a client that follows next_cursor through the event list, while any clients
      append further events between its pages, receives exactly the events that matched its filter at the
      first page, each once, newest first. `at(k)` are the calls made before the client's k-th page. */
  lemma EventFeedIsExact(at: nat -> seq<Call>, f: EventFilter, requested: int)
    requires forall k: nat :: at(k) <= at(k + 1)
    ensures var env := (k: nat) => Exec(EMPTY_DB, at(k)).journal;
            var all := Follow(env, (e: Event) => Selected(f, e), PageLimit(requested), 0, 0);
            && Descends(all, |env(0)|)
            && forall row :: row in all <==> 1 <= row <= |env(0)| && Agrees(f, env(0)[row - 1])
  {
    hide Selected, Agrees, Exec;
    var env := (k: nat) => Exec(EMPTY_DB, at(k)).journal;
    forall k: nat
      ensures env(k) <= env(k + 1)
    {
      assert at(k + 1) == at(k) + at(k + 1)[|at(k)|..];
      ExecSplit(EMPTY_DB, at(k), at(k + 1)[|at(k)|..]);
      JournalGrows(Exec(EMPTY_DB, at(k)), at(k + 1)[|at(k)|..]);
    }
    PagingIsExact(env, (e: Event) => Selected(f, e), PageLimit(requested));
    forall i | 0 <= i < |env(0)|
      ensures Selected(f, env(0)[i]) <==> Agrees(f, env(0)[i])
    {
      SelectedAgrees(f, env(0)[i]);
    }
  }

  lemma {:induction false} JournalGrows(db: Db, calls: seq<Call>)
    ensures db.journal <= Exec(db, calls).journal
    decreases |calls|
  {
    hide Step;
    if calls == [] {
    } else {
      var n := |calls| - 1;
      JournalGrows(db, calls[..n]);
      TransactionalFrame(Exec(db, calls[..n]), calls[n]);
    }
  }

  // ---- The list of runs ----

  /** The runs in the order of their rows, which is the order of their creation. */
  function Created(journal: seq<Event>): seq<string> {
    if journal == [] then []
    else
      var n := |journal| - 1;
      Created(journal[..n]) + (if journal[n].kind.MaintenanceCreated? then [journal[n].maintenanceId] else [])
  }

  datatype RunEntry = RunEntry(id: string, state: StateName, version: int, identity: Json)

  /** The rows of the maintenance table. */
  function RunTable(ids: seq<string>, runs: map<string, RunRecord>): seq<RunEntry> {
    if ids == [] then []
    else
      var n := |ids| - 1;
      RunTable(ids[..n], runs)
      + (if ids[n] in runs then
           [RunEntry(ids[n], runs[ids[n]].state, runs[ids[n]].version, runs[ids[n]].identity)]
         else [])
  }

  function RunsOf(db: Db): seq<RunEntry> { RunTable(Created(db.journal), db.runs) }

  lemma CreatedAppend(journal: seq<Event>, e: Event)
    ensures Created(journal + [e])
         == Created(journal) + (if e.kind.MaintenanceCreated? then [e.maintenanceId] else [])
  {
    assert (journal + [e])[..|journal|] == journal;
  }

  lemma {:induction false} CreatedPrefix(journal: seq<Event>, more: seq<Event>)
    requires journal <= more
    ensures Created(journal) <= Created(more)
  {
    if journal == more {
    } else {
      var n := |more| - 1;
      CreatedPrefix(journal, more[..n]);
    }
  }

  /** Every run has exactly one row. */
  ghost predicate RowsAreRuns(db: Db) {
    var ids := Created(db.journal);
    && (forall id :: id in ids <==> id in db.runs)
    && (forall i, j :: 0 <= i < j < |ids| ==> ids[i] != ids[j])
  }

  /** What an accepted call does to the rows: only a creation adds one, and only for a new id. */
  lemma DecidedRow(db: Db, call: Call)
    requires Accepted(db, call)
    ensures match Decide(db, call).value
            case Unchanged => true
            case Noted(e) => !e.kind.MaintenanceCreated?
            case Recorded(id, _, e) => (e.kind.MaintenanceCreated? <==> id !in db.runs) && e.maintenanceId == id
  {
    hide ParseTargets, Trim, ValidId, TransitionObjection, TargetObjection, FindObservation, LockHeld, InsertedTargets,
         Exercised, EventsOf, KeysStorable;
  }

  lemma RowAdded(db: Db, runs: map<string, RunRecord>, e: Event)
    requires RowsAreRuns(db)
    requires if e.kind.MaintenanceCreated? then
               e.maintenanceId !in db.runs && runs.Keys == db.runs.Keys + {e.maintenanceId}
             else runs.Keys == db.runs.Keys
    ensures RowsAreRuns(Db(runs, db.journal + [e]))
  {
    CreatedAppend(db.journal, e);
    hide Created;
    assert forall id :: id in runs <==> id in runs.Keys;
    assert forall id :: id in db.runs <==> id in db.runs.Keys;
  }

  lemma StepKeepsRows(db: Db, call: Call)
    requires RowsAreRuns(db)
    ensures RowsAreRuns(Step(db, call))
  {
    if Accepted(db, call) {
      DecidedRow(db, call);
      hide Decide, RowsAreRuns;
      match Decide(db, call).value
      case Unchanged =>
      case Noted(e) => RowAdded(db, db.runs, e);
      case Recorded(id, record, e) => RowAdded(db, db.runs[id := record], e);
    }
  }

  lemma {:induction false} RowsStayRuns(calls: seq<Call>)
    ensures RowsAreRuns(Exec(EMPTY_DB, calls))
    decreases |calls|
  {
    if calls == [] {
    } else {
      hide RowsAreRuns, Step;
      var n := |calls| - 1;
      RowsStayRuns(calls[..n]);
      StepKeepsRows(Exec(EMPTY_DB, calls[..n]), calls[n]);
    }
  }

  lemma {:induction false} RunTableAt(ids: seq<string>, runs: map<string, RunRecord>)
    requires forall id :: id in ids ==> id in runs
    ensures |RunTable(ids, runs)| == |ids|
    ensures forall i :: 0 <= i < |ids| ==>
              RunTable(ids, runs)[i]
              == RunEntry(ids[i], runs[ids[i]].state, runs[ids[i]].version, runs[ids[i]].identity)
  {
    if ids == [] {
    } else {
      var n := |ids| - 1;
      assert ids == ids[..n] + [ids[n]];
      RunTableAt(ids[..n], runs);
    }
  }

  /** `labels` stands for the equality tests on change ticket and workflow version, which are part of the
      identity a run was created with; a test that was not asked for is always true. */
  datatype RunFilter = RunFilter(state: StateName, maintenanceId: string, labels: Json -> bool)

  predicate Listed(f: RunFilter, r: RunEntry) {
    && (f.state.NoState? || r.state == f.state)
    && (f.maintenanceId == "" || r.id == f.maintenanceId)
    && f.labels(r.identity)
  }

  /** The run is in the state and has the id that the filter sets, and passes its other tests. */
  ghost predicate Fits(f: RunFilter, r: RunEntry) {
    (f.state != NoState ==> r.state == f.state) && (f.maintenanceId != "" ==> r.id == f.maintenanceId)
    && f.labels(r.identity)
  }

  lemma ListedFits(f: RunFilter, r: RunEntry)
    ensures Listed(f, r) <==> Fits(f, r)
  {
  }

  /** The rows of the list are the runs as they are: one for each, with its state, version and identity. */
  lemma RowsShowRuns(calls: seq<Call>)
    ensures var db := Exec(EMPTY_DB, calls);
            && |RunsOf(db)| == |Created(db.journal)|
            && (forall i :: 0 <= i < |RunsOf(db)| ==>
                  && RunsOf(db)[i].id == Created(db.journal)[i] && RunsOf(db)[i].id in db.runs
                  && RunsOf(db)[i].state == db.runs[RunsOf(db)[i].id].state
                  && RunsOf(db)[i].version == db.runs[RunsOf(db)[i].id].version
                  && RunsOf(db)[i].identity == db.runs[RunsOf(db)[i].id].identity)
            && (forall id :: id in db.runs <==> id in Created(db.journal))
  {
    RowsStayRuns(calls);
    hide Exec, Created;
    var db := Exec(EMPTY_DB, calls);
    RunTableAt(Created(db.journal), db.runs);
  }

  datatype RunPage = RunPage(items: seq<RunEntry>, next: Option<int>)

  /** ListMaintenances: like the event list, with the row numbers read beside the rows. */
  method ListMaintenances(db: Db, f: RunFilter, cursor: Cursor, requested: int) returns (r: Outcome<RunPage>)
    ensures r.Err? <==>
              || f.state !in {NoState, New, Captured, Stopping, Stopped, Waiting, Starting, Completed, Failed,
                 Cancelled}
              || (f.maintenanceId != "" && !ValidId(f.maintenanceId))
              || cursor.BadCursor? || (cursor.At? && cursor.id < 1)
    ensures r.Ok? ==> forall i :: 0 <= i < |r.value.items| ==> Fits(f, r.value.items[i])
    ensures r.Ok? ==>
              var limit := if requested <= 0 then 100 else if requested > 200 then 200 else requested;
              |r.value.items| <= limit && (r.value.next.Some? ==> |r.value.items| == limit)
    ensures r.Ok? ==>
              var page := PageOf(RunsOf(db), e => Listed(f, e), CursorId(cursor).value, PageLimit(requested));
              && r.value.next == page.next && |r.value.items| == |page.ids|
              && forall i :: 0 <= i < |page.ids| ==>
                   1 <= page.ids[i] <= |RunsOf(db)| && r.value.items[i] == RunsOf(db)[page.ids[i] - 1]
  {
    hide ValidId, Listed, RunsOf, Fits;
    if !f.state.NoState? && !ValidMaintenanceState(f.state) {
      return Err(Invalid);
    }
    if f.maintenanceId != "" && !ValidId(f.maintenanceId) {
      return Err(Invalid);
    }
    var start := CursorId(cursor);
    if start.None? {
      return Err(Invalid);
    }
    var limit, rows := PageLimit(requested), RunsOf(db);
    var p := e => Listed(f, e);
    var found := Select(rows, p, Top(rows, start.value), limit + 1);
    SelectShape(rows, p, Top(rows, start.value), limit + 1);
    var items: seq<RunEntry>, rowIds: seq<int> := [], [];
    for i := 0 to |found|
      invariant |items| == i && rowIds == found[..i]
      invariant forall j :: 0 <= j < i ==> Fits(f, items[j])
      invariant forall j :: 0 <= j < i ==> items[j] == rows[found[j] - 1]
    {
      ListedFits(f, rows[found[i] - 1]);
      items := items + [rows[found[i] - 1]];
      rowIds := rowIds + [found[i]];
    }
    if |items| > limit {
      return Ok(RunPage(items[..limit], Some(rowIds[limit - 1])));
    }
    return Ok(RunPage(items, None));
  }

  /** A table that may have grown, each old row still the row of the same run. */
  predicate SameRuns(rows: seq<RunEntry>, rows': seq<RunEntry>) {
    |rows| <= |rows'| && forall i :: 0 <= i < |rows| ==> rows'[i].id == rows[i].id
  }

  /** The list of runs keeps up: while any clients make any calls between the pages, a row stays the same
      run's row, the pages come strictly from the newest run down without duplicates, and no run that
      matches the filter throughout is missed. `at(k)` are the calls made before the client's k-th page. */
  lemma RunListKeepsUp(at: nat -> seq<Call>, f: RunFilter, requested: int)
    requires forall k: nat :: at(k) <= at(k + 1)
    ensures var env := (k: nat) => RunsOf(Exec(EMPTY_DB, at(k)));
            var all := Follow(env, (e: RunEntry) => Listed(f, e), PageLimit(requested), 0, 0);
            && (forall k: nat :: SameRuns(env(k), env(k + 1)))
            && Descends(all, |env(0)|)
            && (forall row :: 1 <= row <= |env(0)| && FitsThroughout(env, f, row) ==> row in all)
  {
    hide Listed, Fits, Exec, RunsOf;
    var env := (k: nat) => RunsOf(Exec(EMPTY_DB, at(k)));
    forall k: nat
      ensures SameRuns(env(k), env(k + 1))
    {
      assert at(k + 1) == at(k) + at(k + 1)[|at(k)|..];
      ExecSplit(EMPTY_DB, at(k), at(k + 1)[|at(k)|..]);
      RunRowsStay(at(k), at(k + 1)[|at(k)|..]);
    }
    PagingOfChangingRows(env, (e: RunEntry) => Listed(f, e), PageLimit(requested), 0, 0);
    forall row | 1 <= row <= |env(0)| && FitsThroughout(env, f, row)
      ensures MatchesFrom(env, (e: RunEntry) => Listed(f, e), 0, row)
    {
      forall k: nat
        ensures 1 <= row <= |env(k)| && Listed(f, env(k)[row - 1])
      {
        ListedFits(f, env(k)[row - 1]);
      }
    }
  }

  /** The run of one row fits the filter at every request. */
  ghost predicate FitsThroughout(env: nat -> seq<RunEntry>, f: RunFilter, row: int) {
    forall k: nat :: 1 <= row <= |env(k)| && Fits(f, env(k)[row - 1])
  }

  lemma RunRowsStay(calls: seq<Call>, later: seq<Call>)
    ensures var rows, rows' := RunsOf(Exec(EMPTY_DB, calls)), RunsOf(Exec(Exec(EMPTY_DB, calls), later));
            SameRuns(rows, rows')
  {
    ExecSplit(EMPTY_DB, calls, later);
    RowsStayRuns(calls);
    RowsStayRuns(calls + later);
    hide Exec, Created;
    var db := Exec(EMPTY_DB, calls);
    var db' := Exec(db, later);
    JournalGrows(db, later);
    CreatedPrefix(db.journal, db'.journal);
    RunTableAt(Created(db.journal), db.runs);
    RunTableAt(Created(db'.journal), db'.runs);
  }
}
