/** The rules of the service in one place, read as a caller would: for each call, exactly when it is accepted
    and what it then writes, as one flat condition over words, numbers and tables. Nothing here leans on the
    predicates that the writer and the verifier share. */
module Rules {
  import opened Lifecycle
  import opened Text
  import opened Records
  import opened Writer
  import opened Safety
  import opened Schema

  // ---- Words ----

  predicate AlphaNumeric(c: char) {
    48 <= c as int <= 57 || 65 <= c as int <= 90 || 97 <= c as int <= 122
  }

  /** 1 to 200 characters: an ASCII letter or digit, then letters, digits and six marks. */
  predicate WellNamed(id: string) {
    && 1 <= |id| <= 200 && AlphaNumeric(id[0])
    && forall i :: 0 < i < |id| ==> AlphaNumeric(id[i]) || id[i] in {'.', '_', ':', '@', '+', '-'}
  }

  lemma NamesAre(id: string)
    ensures ValidId(id) <==> WellNamed(id)
  {
    if WellNamed(id) {
      forall i | 0 <= i < |id|
        ensures IsIdChar(id[i], i == 0)
      {
      }
    }
  }

  /** Not blank, and at most 4096 bytes without its outer white space. */
  predicate Reason(justification: string) {
    Trim(justification) != "" && Utf8Length(Trim(justification)) <= 4096
  }

  predicate Meets(pre: VersionPrecondition, version: int) { pre.any || version in pre.versions }

  function OrSystem(text: string): string { if text == "" then "system" else text }

  // ---- Creation ----

  /** A run is created if and only if its id is well formed and unused, its state is left open or `new`, and
      its metadata is less than 1000 levels deep; and this is what is written. */
  lemma CreationRule(db: Db, input: RunInput, audit: AuditContext)
    ensures Accepted(db, Create(input, audit)) <==>
              && WellNamed(input.id) && input.id !in db.runs && input.state in {NoState, New}
              && input.identity.Some? && input.identity.value.depth < 1000
    ensures Accepted(db, Create(input, audit)) ==>
              var id, identity := input.id, input.identity.value;
              Step(db, Create(input, audit))
              == Db(db.runs[id := RunRecord(New, 1, identity, None, map[])],
                    db.journal + [Event(|db.journal| + 1, MaintenanceCreated, OrSystem(audit.requestId),
                                        OrSystem(audit.actor), OrSystem(audit.role), MaintenanceResource, id, id, "",
                                        NoState, NoState, 0, 0, 1, CreatedPayload(id, New, 1, identity))])
  {
    NamesAre(input.id);
    hide ValidId, WellNamed;
  }

  // ---- Capture ----

  predicate AcceptableTarget(t: TargetInput) {
    && WellNamed(t.id) && Trim(t.lockKey) != "" && Utf8Length(Trim(t.lockKey)) <= 512
    && t.original in {Running, Stopped, Degraded, Unknown} && t.carried.Some?
  }

  function Inputs(d: Document): seq<TargetInput> { if d.targets.Items? then d.targets.items else [] }

  predicate AcceptableDocument(d: Document) {
    && !d.targets.NotAnArray?
    && (forall i :: 0 <= i < |Inputs(d)| ==> AcceptableTarget(Inputs(d)[i]))
    && (forall i, j :: 0 <= i < j < |Inputs(d)| ==> Inputs(d)[i].id != Inputs(d)[j].id)
  }

  lemma AcceptableMeans(t: TargetInput)
    ensures AcceptableTarget(t) <==> ValidTargetInput(t)
  {
    NamesAre(t.id);
    hide ValidId, WellNamed, Trim, Utf8Length;
  }

  /** What a document yields: its targets in order, their keys trimmed. */
  lemma DocumentYields(d: Document)
    ensures ParseTargets(d).Some? <==> AcceptableDocument(d)
    ensures ParseTargets(d).Some? ==> |ParseTargets(d).value| == |Inputs(d)|
    ensures ParseTargets(d).Some? ==> forall i :: 0 <= i < |Inputs(d)| ==>
              && Inputs(d)[i].carried.Some?
              && ParseTargets(d).value[i]
                 == CaptureTarget(Inputs(d)[i].id, Trim(Inputs(d)[i].lockKey), Inputs(d)[i].original,
                                  Inputs(d)[i].carried.value)
  {
    hide ValidTargetInput, AcceptableTarget, Trim, Utf8Length, ValidId, ValidOriginalState;
    var ts := Inputs(d);
    forall i | 0 <= i < |ts|
      ensures AcceptableTarget(ts[i]) <==> ValidTargetInput(ts[i])
      ensures ValidTargetInput(ts[i]) ==> ts[i].carried.Some?
    {
      AcceptableMeans(ts[i]);
      CarriedPresent(ts[i]);
    }
    if d.targets.Items? {
      assert ParseTargets(d).Some? <==> ValidTargetInputs(ts);
      assert ValidTargetInputs(ts) <==> AcceptableDocument(d);
    }
  }

  lemma CarriedPresent(t: TargetInput)
    ensures ValidTargetInput(t) ==> t.carried.Some?
  {
    hide ValidId, Trim, Utf8Length;
  }

  /** A key is taken while a run that is not completed and not cancelled has a target with it. */
  predicate KeyTaken(db: Db, key: string) {
    exists id, t ::
      && id in db.runs && t in db.runs[id].targets && db.runs[id].targets[t].lockKey == key
      && db.runs[id].state != Completed && db.runs[id].state != Cancelled
  }

  lemma TakenMeans(db: Db, key: string)
    ensures LockHeld(db, key) <==> KeyTaken(db, key)
  {
    if LockHeld(db, key) {
      var id :| id in db.runs && HoldsLock(db.runs[id], key);
      var t :| t in db.runs[id].targets && db.runs[id].targets[t].lockKey == key;
    }
    if KeyTaken(db, key) {
      var id, t :|
        && id in db.runs && t in db.runs[id].targets && db.runs[id].targets[t].lockKey == key
        && db.runs[id].state != Completed && db.runs[id].state != Cancelled;
      assert HoldsLock(db.runs[id], key);
    }
  }

  /** The keys of a document are free, and none begins with U+0000. */
  predicate KeysUsable(db: Db, d: Document) {
    forall i :: 0 <= i < |Inputs(d)| ==>
      && !KeyTaken(db, Trim(Inputs(d)[i].lockKey))
      && (Trim(Inputs(d)[i].lockKey) != "" ==> Trim(Inputs(d)[i].lockKey)[0] != '\0')
  }

  ghost predicate AnyHeld(db: Db, ts: seq<CaptureTarget>) {
    exists i :: 0 <= i < |ts| && LockHeld(db, ts[i].lockKey)
  }

  /** The keys as the document gives them and as they are parsed. */
  ghost predicate SameKeys(d: Document, ts: seq<CaptureTarget>) {
    |ts| == |Inputs(d)| && forall i :: 0 <= i < |ts| ==> ts[i].lockKey == Trim(Inputs(d)[i].lockKey)
  }

  lemma KeysParsed(d: Document)
    requires ParseTargets(d).Some?
    ensures SameKeys(d, ParseTargets(d).value)
  {
    hide ParseTargets, Trim, AcceptableDocument, Inputs;
    DocumentYields(d);
    var ts := ParseTargets(d).value;
    forall i | 0 <= i < |ts|
      ensures ts[i].lockKey == Trim(Inputs(d)[i].lockKey)
    {
      assert Inputs(d)[i].carried.Some?;
    }
  }

  lemma NoneHeld(db: Db, d: Document, ts: seq<CaptureTarget>)
    requires SameKeys(d, ts)
    ensures !AnyHeld(db, ts) <==> forall i :: 0 <= i < |Inputs(d)| ==> !KeyTaken(db, Trim(Inputs(d)[i].lockKey))
  {
    hide Trim, LockHeld, KeyTaken, Inputs;
    forall i | 0 <= i < |ts|
      ensures LockHeld(db, ts[i].lockKey) <==> KeyTaken(db, Trim(Inputs(d)[i].lockKey))
    {
      TakenMeans(db, ts[i].lockKey);
    }
  }

  lemma NoneNul(d: Document, ts: seq<CaptureTarget>)
    requires SameKeys(d, ts)
    ensures !BeginsWithNul(ts) <==>
              forall i :: 0 <= i < |Inputs(d)| ==>
                Trim(Inputs(d)[i].lockKey) != "" ==> Trim(Inputs(d)[i].lockKey)[0] != '\0'
  {
    hide Trim, Inputs;
  }

  lemma UsableMeans(db: Db, d: Document)
    requires ParseTargets(d).Some?
    ensures KeysUsable(db, d) <==> !AnyHeld(db, ParseTargets(d).value) && KeysStorable(ParseTargets(d).value)
  {
    hide ParseTargets, Trim, KeysStorable, AnyHeld, KeyTaken, BeginsWithNul, SameKeys, Inputs;
    StorableUnlessNul(d);
    KeysParsed(d);
    NoneHeld(db, d, ParseTargets(d).value);
    NoneNul(d, ParseTargets(d).value);
  }

  /** The decision on a capture, condition by condition. */
  lemma CaptureDecided(db: Db, id: string, d: Document, audit: AuditContext)
    ensures Writes(db, CaptureRun(id, Some(d), audit)) <==>
              && ValidId(id) && ParseTargets(d).Some? && id in db.runs && db.runs[id].capture.None?
              && db.runs[id].state.New? && !AnyHeld(db, ParseTargets(d).value) && d.Depth() <= 1000
              && KeysStorable(ParseTargets(d).value)
    ensures Accepted(db, CaptureRun(id, Some(d), audit)) && !Writes(db, CaptureRun(id, Some(d), audit)) <==>
              && ValidId(id) && ParseTargets(d).Some? && id in db.runs
              && db.runs[id].capture == Some(Capture(d, Sha256(d)))
  {
    hide ValidId, ParseTargets, KeysStorable, LockHeld, CapturedRecord, CaptureEvent;
  }

  /** A document is captured if and only if the run is new and uncaptured, every target of the document is
      acceptable and no id comes twice, no key is taken or unstorable, and it is at most 1000 levels deep. The
      other accepted capture is the same document again, which writes nothing. */
  lemma CaptureRule(db: Db, id: string, document: Option<Document>, audit: AuditContext)
    ensures Writes(db, CaptureRun(id, document, audit)) <==>
              && WellNamed(id) && id in db.runs && db.runs[id].capture.None? && db.runs[id].state == New
              && document.Some? && AcceptableDocument(document.value) && KeysUsable(db, document.value)
              && document.value.Depth() <= 1000
    ensures Accepted(db, CaptureRun(id, document, audit)) && !Writes(db, CaptureRun(id, document, audit)) <==>
              && WellNamed(id) && id in db.runs && document.Some? && AcceptableDocument(document.value)
              && db.runs[id].capture == Some(Capture(document.value, Sha256(document.value)))
  {
    hide ValidId, WellNamed, ParseTargets, KeysUsable, KeysStorable, AnyHeld, AcceptableDocument, Inputs;
    NamesAre(id);
    if document.Some? {
      CaptureDecided(db, id, document.value, audit);
      hide Decide;
      DocumentYields(document.value);
      if ParseTargets(document.value).Some? {
        UsableMeans(db, document.value);
      }
    }
  }

  /** What a capture writes: the run with its targets, and one event with the digest and their number. */
  lemma CaptureWrites(db: Db, id: string, document: Option<Document>, audit: AuditContext)
    requires Writes(db, CaptureRun(id, document, audit))
    ensures id in db.runs && document.Some?
    ensures var rec, after := db.runs[id], Step(db, CaptureRun(id, document, audit));
            && id in after.runs && after.runs == db.runs[id := after.runs[id]]
            && CapturedAs(rec, after.runs[id], document.value)
            && after.journal == db.journal + [
                 Event(|db.journal| + 1, MaintenanceCaptured, OrSystem(audit.requestId), OrSystem(audit.actor),
                       OrSystem(audit.role), MaintenanceResource, id, id, "", New, Captured, rec.version,
                       rec.version + 1, rec.version + 1,
                       CapturePayload(Sha256(document.value), |Inputs(document.value)|))]
  {
    hide ValidId, ParseTargets, KeysStorable, LockHeld, CapturedAs, CapturedRecord, AcceptableDocument, Inputs, Trim;
    InputsCounted(document.value);
    CapturedMeans(db.runs[id], document.value);
  }

  lemma InputsCounted(d: Document)
    ensures ParseTargets(d).Some? ==> |ParseTargets(d).value| == |Inputs(d)|
  {
    hide AcceptableDocument, ParseTargets;
    DocumentYields(d);
  }

  /** The run after its capture: every target as the document gives it, stopped if it was stopped. */
  ghost predicate CapturedAs(rec: RunRecord, after: RunRecord, d: Document) {
    && after.state == Captured && after.version == rec.version + 1 && after.identity == rec.identity
    && after.capture == Some(Capture(d, Sha256(d)))
    && (forall t :: t in after.targets <==> Named(t, Inputs(d)))
    && forall i :: 0 <= i < |Inputs(d)| ==>
         Inputs(d)[i].id in after.targets && CapturedTarget(after.targets[Inputs(d)[i].id], Inputs(d)[i])
  }

  /** One target as the document gives it. */
  predicate CapturedTarget(t: Target, input: TargetInput) {
    && input.carried.Some?
    && t == Target(Trim(input.lockKey), if input.original == Stopped then Stopped else Captured, input.original,
                   input.carried.value, 1)
  }

  predicate Named(t: string, ins: seq<TargetInput>) { exists i :: 0 <= i < |ins| && ins[i].id == t }

  /** What parsing keeps of the targets. */
  ghost predicate ParsedFrom(ts: seq<CaptureTarget>, ins: seq<TargetInput>) {
    && |ts| == |ins|
    && forall i :: 0 <= i < |ins| ==>
         && ins[i].carried.Some?
         && ts[i] == CaptureTarget(ins[i].id, Trim(ins[i].lockKey), ins[i].original, ins[i].carried.value)
  }

  lemma ParsedMeans(d: Document)
    requires ParseTargets(d).Some?
    ensures ParsedFrom(ParseTargets(d).value, Inputs(d)) && DistinctIds(ParseTargets(d).value)
  {
    hide ParseTargets, AcceptableDocument, Inputs, Trim;
    DocumentYields(d);
  }

  lemma InsertedNamed(ts: seq<CaptureTarget>, ins: seq<TargetInput>, t: string)
    requires ParsedFrom(ts, ins)
    ensures t in InsertedTargets(ts) <==> Named(t, ins)
  {
    hide Trim;
    if t in InsertedTargets(ts) {
      var i :| 0 <= i < |ts| && ts[i].id == t;
      assert ins[i].id == t;
    }
    if i :| 0 <= i < |ins| && ins[i].id == t {
      assert ts[i].id == t;
    }
  }

  lemma InsertedOne(ts: seq<CaptureTarget>, ins: seq<TargetInput>, i: int)
    requires ParsedFrom(ts, ins) && DistinctIds(ts) && 0 <= i < |ins|
    ensures ins[i].id in InsertedTargets(ts) && CapturedTarget(InsertedTargets(ts)[ins[i].id], ins[i])
  {
    hide Trim, InsertedTarget, CapturedTarget;
    InsertedTargetsAt(ts, i);
    InsertedMeans(ts[i], ins[i]);
  }

  lemma CapturedMeans(rec: RunRecord, d: Document)
    requires ParseTargets(d).Some?
    ensures CapturedAs(rec, CapturedRecord(rec, Capture(d, Sha256(d)), ParseTargets(d).value), d)
  {
    hide ParseTargets, InsertedTargets, Inputs, CapturedTarget, ParsedFrom, Named, DistinctIds;
    ParsedMeans(d);
    var ts, ins := ParseTargets(d).value, Inputs(d);
    forall t
      ensures t in InsertedTargets(ts) <==> Named(t, ins)
    {
      InsertedNamed(ts, ins, t);
    }
    forall i | 0 <= i < |ins|
      ensures ins[i].id in InsertedTargets(ts) && CapturedTarget(InsertedTargets(ts)[ins[i].id], ins[i])
    {
      InsertedOne(ts, ins, i);
    }
  }

  lemma InsertedMeans(t: CaptureTarget, input: TargetInput)
    requires input.carried.Some?
    requires t == CaptureTarget(input.id, Trim(input.lockKey), input.original, input.carried.value)
    ensures t.id == input.id && CapturedTarget(InsertedTarget(t), input)
  {
    hide Trim;
  }

  // ---- Phases ----

  /** Every change of phase that a caller can ask for. */
  const RUN_STEPS: set<(StateName, StateName)> := {
    (New, Cancelled), (New, Failed),
    (Captured, Stopping), (Captured, Cancelled), (Captured, Failed),
    (Stopping, Stopped), (Stopping, Failed),
    (Stopped, Waiting), (Stopped, Failed),
    (Waiting, Starting), (Waiting, Failed),
    (Starting, Completed), (Starting, Failed),
    (Failed, New), (Failed, Captured), (Failed, Stopping), (Failed, Stopped), (Failed, Waiting), (Failed, Starting)}

  /** Every move of a target that was running, with the phase it needs. */
  const TARGET_STEPS: set<(StateName, StateName, StateName)> := {
    (Stopping, Captured, Stopping), (Stopping, Stopping, Stopped), (Stopping, Failed, Stopping),
    (Starting, Stopped, Starting), (Starting, Starting, Healthy), (Starting, Failed, Starting),
    (Stopping, Stopping, Failed), (Stopping, Starting, Failed),
    (Starting, Stopping, Failed), (Starting, Starting, Failed)}

  /** As it was found, or given up. */
  predicate AsItWas(t: Target) {
    t.state == Skipped || (t.original == Running && t.state == Healthy) || (t.original == Stopped && t.state == Stopped)
  }

  predicate AtRest(t: Target) {
    t.state == Skipped || (t.state == Stopped && t.original in {Running, Stopped})
  }

  predicate WasExercised(journal: seq<Event>, id: string) {
    exists i :: 0 <= i < |journal| && journal[i].maintenanceId == id && journal[i].kind == TargetTransitioned
  }

  lemma ExercisedMeans(journal: seq<Event>, id: string)
    ensures Exercised(EventsOf(journal, id)) <==> WasExercised(journal, id)
  {
    hide EventsOf;
    var events := EventsOf(journal, id);
    if i :| 0 <= i < |events| && events[i].kind.TargetTransitioned? {
      EventsOfMember(journal, id, events[i]);
    }
    if i :| 0 <= i < |journal| && journal[i].maintenanceId == id && journal[i].kind == TargetTransitioned {
      EventsOfMember(journal, id, journal[i]);
    }
  }

  /** What the phase a run is to enter asks beyond the table. */
  predicate PhaseGranted(db: Db, id: string, rec: RunRecord, change: StateChange, audit: AuditContext) {
    && (rec.state, change.state) in RUN_STEPS
    && (rec.state == Failed ==>
          audit.role == "admin" && Reason(change.justification) && (rec.capture.None? <==> change.state == New))
    && (rec.state == Captured && change.state == Cancelled ==> !WasExercised(db.journal, id))
    && (change.state == Stopped ==> forall t :: t in rec.targets ==> AtRest(rec.targets[t]))
    && (change.state == Completed ==>
          && rec.capture.Some? && rec.targets != map[]
          && forall t :: t in rec.targets ==> AsItWas(rec.targets[t]))
  }

  lemma GrantedMeans(db: Db, id: string, rec: RunRecord, change: StateChange, pre: VersionPrecondition,
                     audit: AuditContext)
    ensures && ValidMaintenanceState(change.state)
            && TransitionObjection(rec, WasExercised(db.journal, id), change, pre, audit).None?
            <==> Meets(pre, rec.version) && PhaseGranted(db, id, rec, change, audit)
  {
    hide Trim, Utf8Length, WasExercised;
    BarrierMeans(rec.targets);
    CompletionMeans(rec);
    hide StoppedBarrier, CompletionObjection, AtRest, AsItWas;
  }

  lemma BarrierMeans(targets: map<string, Target>)
    ensures StoppedBarrier(targets) <==> forall t :: t in targets ==> AtRest(targets[t])
  {
    assert forall t :: t in targets ==> (Unresolved(targets[t]) <==> !AtRest(targets[t]));
  }

  lemma CompletionMeans(rec: RunRecord)
    ensures CompletionObjection(rec).None? <==>
              && rec.capture.Some? && rec.targets != map[]
              && forall t :: t in rec.targets ==> AsItWas(rec.targets[t])
  {
    assert forall t :: t in rec.targets ==>
             (TargetCompletionAllowed(rec.targets[t].original, rec.targets[t].state) <==> AsItWas(rec.targets[t]));
  }

  /** A change of phase is accepted if and only if it is in the table, the version is one that was named, its
      detail is less than 1000 levels deep, and it meets what the phase asks; and this is what is written. */
  lemma PhaseRule(db: Db, id: string, change: StateChange, pre: VersionPrecondition, audit: AuditContext)
    ensures Accepted(db, TransitionRun(id, change, pre, audit)) <==>
              && WellNamed(id) && id in db.runs && change.detail.Some? && change.detail.value.depth < 1000
              && Meets(pre, db.runs[id].version) && PhaseGranted(db, id, db.runs[id], change, audit)
    ensures Accepted(db, TransitionRun(id, change, pre, audit)) ==>
              var rec, after := db.runs[id], Step(db, TransitionRun(id, change, pre, audit));
              && after.runs == db.runs[id := after.runs[id]]
              && PhaseEntered(rec, after.runs[id], change.state)
              && after.journal == db.journal + [
                   Event(|db.journal| + 1,
                         if change.state == Completed then MaintenanceCompleted
                         else if rec.state == Failed then MaintenanceReopened
                         else MaintenanceTransitioned,
                         OrSystem(audit.requestId), OrSystem(audit.actor), OrSystem(audit.role), MaintenanceResource,
                         id, id, "", rec.state, change.state, rec.version, rec.version + 1, rec.version + 1,
                         TransitionPayload(Trim(change.justification), change.detail.value))]
  {
    NamesAre(id);
    ExercisedMeans(db.journal, id);
    hide ValidId, WellNamed, Exercised, EventsOf, WasExercised, PhaseGranted, Trim, TransitionObjection, Meets,
         PhaseEntered, Transitioned;
    if id in db.runs {
      GrantedMeans(db, id, db.runs[id], change, pre, audit);
      EnteredMeans(db.runs[id], change.state);
    }
  }

  /** The run in its new phase: its version one higher, and with a capture that of every target. */
  ghost predicate PhaseEntered(rec: RunRecord, after: RunRecord, to: StateName) {
    && after.state == to && after.version == rec.version + 1
    && after.identity == rec.identity && after.capture == rec.capture && after.targets.Keys == rec.targets.Keys
    && forall t :: t in rec.targets ==>
         var old_, new_ := rec.targets[t], after.targets[t];
         new_ == Target(old_.lockKey, old_.state, old_.original, old_.carried,
                        if rec.capture.Some? then old_.version + 1 else old_.version)
  }

  lemma EnteredMeans(rec: RunRecord, to: StateName)
    ensures PhaseEntered(rec, Transitioned(rec, to), to)
  {
    assert Transitioned(rec, to).targets.Keys == rec.targets.Keys;
  }

  // ---- Targets ----

  /** What a move asks beyond the version it names. */
  predicate MoveGranted(phase: StateName, target: Target, change: StateChange, audit: AuditContext) {
    if change.state == Skipped then
      && audit.role == "admin" && Reason(change.justification)
      && target.state in {Captured, Stopping, Stopped, Starting, Failed}
    else
      target.original !in {Stopped, Degraded, Unknown} && (phase, target.state, change.state) in TARGET_STEPS
  }

  lemma MoveMeans(phase: StateName, target: Target, change: StateChange, pre: VersionPrecondition, audit: AuditContext)
    ensures && ValidTargetState(change.state) && TargetObjection(phase, target, change, pre, audit).None?
            <==> Meets(pre, target.version) && MoveGranted(phase, target, change, audit)
  {
    hide Trim, Utf8Length;
  }

  /** A target is moved if and only if its run is open, the version is one that was named, the detail is less
      than 1000 levels deep, and either an administrator skips it for a reason, or it was running and the
      table has the move in this phase; and this is what is written. */
  lemma TargetRule(db: Db, id: string, tid: string, change: StateChange, pre: VersionPrecondition, audit: AuditContext)
    ensures Accepted(db, TransitionTarget(id, tid, change, pre, audit)) <==>
              && WellNamed(id) && WellNamed(tid) && id in db.runs && tid in db.runs[id].targets
              && change.detail.Some? && change.detail.value.depth < 1000
              && db.runs[id].state !in {Completed, Failed, Cancelled}
              && Meets(pre, db.runs[id].targets[tid].version)
              && MoveGranted(db.runs[id].state, db.runs[id].targets[tid], change, audit)
    ensures Accepted(db, TransitionTarget(id, tid, change, pre, audit)) ==>
              var rec := db.runs[id];
              var target := rec.targets[tid];
              Step(db, TransitionTarget(id, tid, change, pre, audit))
              == Db(db.runs[id := RunRecord(rec.state, rec.version + 1, rec.identity, rec.capture,
                      rec.targets[tid := Target(target.lockKey, change.state, target.original, target.carried,
                                                target.version + 1)])],
                    db.journal + [
                      Event(|db.journal| + 1, if change.state == Skipped then TargetSkipped else TargetTransitioned,
                            OrSystem(audit.requestId), OrSystem(audit.actor), OrSystem(audit.role), TargetResource, tid,
                            id, tid, target.state, change.state, target.version, target.version + 1, rec.version + 1,
                            TransitionPayload(Trim(change.justification), change.detail.value))])
  {
    NamesAre(id);
    NamesAre(tid);
    hide ValidId, WellNamed, MoveGranted, Trim, TargetObjection, Meets;
    if id in db.runs && tid in db.runs[id].targets {
      MoveMeans(db.runs[id].state, db.runs[id].targets[tid], change, pre, audit);
    }
  }

  // ---- Observations ----

  /** The journal has an observation of this target of this run under this request id. */
  predicate Observed(journal: seq<Event>, id: string, tid: string, requestId: string, i: int) {
    && 0 <= i < |journal| && journal[i].kind == TargetObserved && journal[i].maintenanceId == id
    && journal[i].targetId == tid && journal[i].requestId == requestId
  }

  lemma ObservedMeans(journal: seq<Event>, id: string, tid: string, requestId: string)
    ensures FindObservation(EventsOf(journal, id), tid, requestId).Some? <==>
              exists i :: Observed(journal, id, tid, requestId, i)
    ensures FindObservation(EventsOf(journal, id), tid, requestId).Some? ==>
              exists i :: Observed(journal, id, tid, requestId, i)
                          && journal[i].payload == FindObservation(EventsOf(journal, id), tid, requestId).value
  {
    hide EventsOf, FindObservation;
    var events := EventsOf(journal, id);
    FindObservationFinds(events, tid, requestId);
    if FindObservation(events, tid, requestId).Some? {
      var i :| 0 <= i < |events| && IsObservation(events[i], tid, requestId)
               && events[i].payload == FindObservation(events, tid, requestId).value;
      EventsOfMember(journal, id, events[i]);
      var j :| 0 <= j < |journal| && journal[j] == events[i];
      assert Observed(journal, id, tid, requestId, j);
    }
    if i :| Observed(journal, id, tid, requestId, i) {
      EventsOfMember(journal, id, journal[i]);
      var j :| 0 <= j < |events| && events[j] == journal[i];
      assert IsObservation(events[j], tid, requestId);
    }
  }

  /** An observation is recorded if and only if its target exists, its run is open, the version is one that was
      named, it is at most 1000 levels deep, and its request id was not used for this target before; nothing
      but the journal changes. */
  lemma ObservationRule(db: Db, id: string, tid: string, payload: Option<Json>, pre: VersionPrecondition,
                        audit: AuditContext)
    ensures Writes(db, Observe(id, tid, payload, pre, audit)) <==>
              && WellNamed(id) && WellNamed(tid) && id in db.runs && tid in db.runs[id].targets
              && payload.Some? && payload.value.depth <= 1000
              && db.runs[id].state !in {Completed, Failed, Cancelled}
              && Meets(pre, db.runs[id].targets[tid].version)
              && !exists i :: Observed(db.journal, id, tid, OrSystem(audit.requestId), i)
    ensures Accepted(db, Observe(id, tid, payload, pre, audit))
            && !Writes(db, Observe(id, tid, payload, pre, audit)) ==>
              && payload.Some?
              && exists i :: Observed(db.journal, id, tid, OrSystem(audit.requestId), i)
                             && db.journal[i].payload == ObservationPayload(payload.value)
    ensures Writes(db, Observe(id, tid, payload, pre, audit)) ==>
              Step(db, Observe(id, tid, payload, pre, audit))
              == Db(db.runs, db.journal + [
                   Event(|db.journal| + 1, TargetObserved, OrSystem(audit.requestId), OrSystem(audit.actor),
                         OrSystem(audit.role), TargetResource, tid, id, tid, NoState, NoState, 0, 0, 0,
                         ObservationPayload(payload.value))])
  {
    NamesAre(id);
    NamesAre(tid);
    ObservedMeans(db.journal, id, tid, OrSystem(audit.requestId));
    hide ValidId, WellNamed, FindObservation, EventsOf, Observed;
    assert id in db.runs ==> db.runs[id := db.runs[id]] == db.runs;
  }

  // ---- Administrators ----

  /** Whoever is not an administrator and asks to skip a target is answered that it is forbidden, once the
      request is well formed, names an open run and one of its targets, and a version that is current. */
  lemma SkippingIsForbidden(db: Db, id: string, tid: string, change: StateChange, pre: VersionPrecondition,
                            audit: AuditContext)
    requires audit.role != "admin" && change.state == Skipped
    requires WellNamed(id) && WellNamed(tid) && change.detail.Some? && id in db.runs && tid in db.runs[id].targets
    requires db.runs[id].state !in {Completed, Failed, Cancelled} && Meets(pre, db.runs[id].targets[tid].version)
    ensures Decide(db, TransitionTarget(id, tid, change, pre, audit)) == Err(Forbidden)
    ensures Step(db, TransitionTarget(id, tid, change, pre, audit)) == db
  {
    NamesAre(id);
    NamesAre(tid);
    hide ValidId, WellNamed, ValidJustification;
  }

  /** So is whoever is not an administrator and asks to change a failed run. */
  lemma ReopeningIsForbidden(db: Db, id: string, change: StateChange, pre: VersionPrecondition, audit: AuditContext)
    requires audit.role != "admin" && WellNamed(id) && change.detail.Some? && id in db.runs
    requires change.state in {New, Captured, Stopping, Stopped, Waiting, Starting, Completed, Failed, Cancelled}
    requires db.runs[id].state == Failed && Meets(pre, db.runs[id].version)
    ensures Decide(db, TransitionRun(id, change, pre, audit)) == Err(Forbidden)
    ensures Step(db, TransitionRun(id, change, pre, audit)) == db
  {
    NamesAre(id);
    hide ValidId, WellNamed, ValidJustification, Exercised, EventsOf, StoppedBarrier, CompletionObjection, Transitioned,
         TransitionEvent, Trim;
  }

  // ---- Every journal ----

  /** What an event may say. */
  ghost predicate Lawful(e: Event) {
    match e.kind
    case MaintenanceCreated => e.aggregateVersion == 1
    case MaintenanceCaptured => e.fromState == New && e.toState == Captured && e.toVersion == e.fromVersion + 1
    case MaintenanceTransitioned =>
      && (e.fromState, e.toState) in RUN_STEPS && e.fromState != Failed && e.toState != Completed
      && e.toVersion == e.fromVersion + 1 && e.aggregateVersion == e.toVersion
    case MaintenanceReopened =>
      && (e.fromState, e.toState) in RUN_STEPS && e.fromState == Failed && e.role == "admin"
      && e.payload.TransitionPayload? && Reason(e.payload.justification)
      && e.toVersion == e.fromVersion + 1 && e.aggregateVersion == e.toVersion
    case MaintenanceCompleted =>
      && e.fromState == Starting && e.toState == Completed
      && e.toVersion == e.fromVersion + 1 && e.aggregateVersion == e.toVersion
    case TargetTransitioned =>
      && (exists phase :: (phase, e.fromState, e.toState) in TARGET_STEPS) && e.toVersion == e.fromVersion + 1
    case TargetSkipped =>
      && e.toState == Skipped && e.fromState in {Captured, Stopping, Stopped, Starting, Failed} && e.role == "admin"
      && e.payload.TransitionPayload? && Reason(e.payload.justification) && e.toVersion == e.fromVersion + 1
    case TargetObserved => e.aggregateVersion == 0 && e.fromState == NoState && e.toState == NoState
    case BackupCreated => e.maintenanceId == ""
    case BackupDownloaded => e.maintenanceId == ""
    case UnknownKind(_) => false
  }

  lemma TrimmedReason(justification: string)
    requires Reason(justification)
    ensures Reason(Trim(justification))
  {
    TrimIdempotent(justification);
    hide Trim, Utf8Length;
  }

  /** A call adds at most one event, and a lawful one. */
  ghost predicate AddsLawfully(db: Db, after: Db) {
    || after.journal == db.journal
    || (&& |after.journal| == |db.journal| + 1 && after.journal[..|db.journal|] == db.journal
        && Lawful(after.journal[|db.journal|]))
  }

  lemma CallIsLawful(db: Db, call: Call)
    requires Accepted(db, call)
    ensures AddsLawfully(db, Step(db, call))
  {
    hide Decide, WellNamed, Lawful;
    match call
    case Create(input, audit) => CreationIsLawful(db, input, audit);
    case CaptureRun(id, document, audit) => CaptureIsLawful(db, id, document, audit);
    case TransitionRun(id, change, pre, audit) =>
      hide PhaseGranted, PhaseEntered;
      PhaseRule(db, id, change, pre, audit);
      PhaseEventLawful(db, id, change, pre, audit);
    case TransitionTarget(id, tid, change, pre, audit) =>
      hide MoveGranted;
      TargetRule(db, id, tid, change, pre, audit);
      TargetEventLawful(db, id, tid, change, pre, audit);
    case Observe(id, tid, payload, pre, audit) => ObservationIsLawful(db, id, tid, payload, pre, audit);
    case BackupNote(artifact, manifest, audit) => NoteIsLawful(db, artifact, manifest, audit);
  }

  lemma CreationIsLawful(db: Db, input: RunInput, audit: AuditContext)
    requires Accepted(db, Create(input, audit))
    ensures AddsLawfully(db, Step(db, Create(input, audit)))
  {
    hide Decide, WellNamed, Accepted, Step;
    CreationRule(db, input, audit);
  }

  lemma CaptureIsLawful(db: Db, id: string, document: Option<Document>, audit: AuditContext)
    requires Accepted(db, CaptureRun(id, document, audit))
    ensures AddsLawfully(db, Step(db, CaptureRun(id, document, audit)))
  {
    hide Decide, CapturedAs;
    if Writes(db, CaptureRun(id, document, audit)) {
      hide Step, Accepted;
      CaptureWrites(db, id, document, audit);
    } else {
      CaptureNotNoted(db, id, document, audit);
    }
  }

  lemma CaptureNotNoted(db: Db, id: string, document: Option<Document>, audit: AuditContext)
    ensures Accepted(db, CaptureRun(id, document, audit)) ==>
              !Decide(db, CaptureRun(id, document, audit)).value.Noted?
  {
    hide ParseTargets, ValidId, LockHeld, KeysStorable, CapturedRecord;
  }

  lemma ObservationIsLawful(db: Db, id: string, tid: string, payload: Option<Json>, pre: VersionPrecondition,
                            audit: AuditContext)
    requires Accepted(db, Observe(id, tid, payload, pre, audit))
    ensures AddsLawfully(db, Step(db, Observe(id, tid, payload, pre, audit)))
  {
    hide ValidId, FindObservation, EventsOf;
  }

  lemma NoteIsLawful(db: Db, artifact: string, manifest: Manifest, audit: AuditContext)
    ensures AddsLawfully(db, Step(db, BackupNote(artifact, manifest, audit)))
  {
  }

  lemma StepIsLawful(db: Db, call: Call)
    requires forall i :: 0 <= i < |db.journal| ==> Lawful(db.journal[i])
    ensures forall i :: 0 <= i < |Step(db, call).journal| ==> Lawful(Step(db, call).journal[i])
  {
    hide Decide, Lawful, Commit;
    if Accepted(db, call) {
      CallIsLawful(db, call);
      var after := Step(db, call);
      forall i | 0 <= i < |after.journal|
        ensures Lawful(after.journal[i])
      {
        if i < |db.journal| {
          assert after.journal[i] == after.journal[..|db.journal|][i] || after.journal == db.journal;
        }
      }
    }
  }

  lemma PhaseEventLawful(db: Db, id: string, change: StateChange, pre: VersionPrecondition, audit: AuditContext)
    requires Accepted(db, TransitionRun(id, change, pre, audit))
    ensures Lawful(Step(db, TransitionRun(id, change, pre, audit)).journal[|db.journal|])
  {
    PhaseRule(db, id, change, pre, audit);
    hide Accepted, Step, WellNamed, PhaseEntered, WasExercised, Trim, Utf8Length;
    if db.runs[id].state == Failed {
      TrimmedReason(change.justification);
    }
  }

  lemma TargetEventLawful(db: Db, id: string, tid: string, change: StateChange, pre: VersionPrecondition,
                          audit: AuditContext)
    requires Accepted(db, TransitionTarget(id, tid, change, pre, audit))
    ensures Lawful(Step(db, TransitionTarget(id, tid, change, pre, audit)).journal[|db.journal|])
  {
    TargetRule(db, id, tid, change, pre, audit);
    hide Accepted, Step, WellNamed, Trim, Utf8Length;
    if change.state == Skipped {
      TrimmedReason(change.justification);
    } else {
      assert (db.runs[id].state, db.runs[id].targets[tid].state, change.state) in TARGET_STEPS;
    }
  }

  /** In every reachable journal every event is lawful: changes and moves are in their tables, each one version
      up, and skips and reopenings are an administrator's, with a reason. */
  lemma {:induction false} JournalIsLawful(calls: seq<Call>)
    ensures forall i :: 0 <= i < |Exec(EMPTY_DB, calls).journal| ==> Lawful(Exec(EMPTY_DB, calls).journal[i])
    decreases |calls|
  {
    if calls == [] {
    } else {
      hide Step, Lawful;
      var n := |calls| - 1;
      JournalIsLawful(calls[..n]);
      StepIsLawful(Exec(EMPTY_DB, calls[..n]), calls[n]);
    }
  }
}
