# Lazarus: a verified model of the maintenance coordinator

Lazarus coordinates maintenance runs for several clients at once. A run discovers and captures its
targets, stops them, waits, starts them again and completes; every run and every target carries a
version, every write names the version it was based on (If-Match), every accepted write appends one
event to an append-only journal, and an independent verifier rebuilds every run from the journal alone.

This project models that core in Dafny and proves its rules for all inputs and all runs. A run of the
service is any finite sequence of calls, accepted or rejected, from any number of clients; the service
serialises its writes, so every interleaving is such a sequence.

| module | what it holds |
|---|---|
| `Lifecycle`, `Text`, `Records` | the two transition tables, the text rules, rows, events, errors |
| `Writer` | what each store call decides, as functions of the database value (`Decide`, `Step`, `Exec`) |
| `Replay` | the verifier's own rules (`Apply`, `Check`, `ReplayAll`), written independently of `Writer` |
| `StoreTables` | the store as an object: tables updated row by row, proved equal to `Step` |
| `Verifier` | the replayer as an object and the verification loops, proved equal to `Replay` |
| `Rules` | for each call, exactly when it is accepted and what it writes, in words, numbers and tables of its own |
| `Invariant`, `Histories` | what every call keeps, and that every reachable database has it |
| `Agreement`, `Soundness` | replay refines storage; writer and verifier accept the same events; what verification rules out |
| `Versions`, `Safety`, `Coherence`, `Reopening`, `Schema` | the properties of whole runs |
| `Release`, `Restoration` | explicit plans that free every lock, and that finish every restoration |
| `IfMatch`, `Conditional` | the If-Match scanner against the grammar of RFC 9110, and composed with the store |
| `Paging` | cursor paging over tables that grow while they are read |
| `Backup` | the backup directory with a stop possible between any two file operations |

`DbOk` is the central invariant: each stored record is well formed, equals the replay of its own
journal, and shares no lock key with another run that is neither completed nor cancelled.
`Histories.Reachable` proves it of every database reached from the empty one, so a lemma that
requires `DbOk` speaks about every reachable database.

Writer and verifier share some words: the lifecycle tables, the role test, the text rules. What these mean is
not taken from their definitions: `Rules` states each call's acceptance as one flat condition with literal
tables, and the `Text`, `IfMatch`, `Paging` and `Backup` modules say by number or by position what their
characters, limits, orders and names are.

## Where the code differs from what it says

- The documentation says that a failed target retries the phase that failed (docs/architecture.md:39,
  docs/api.md:103). The code lets a failed target go to `stopping` or `starting`
  (internal/store/lifecycle.go:18), whichever phase the run is in. `Coherence.RetryRepeatsExactlyInPhase`
  gives the exact condition, `Coherence.RetryStaysInPhase` shows that runs not reopened since their capture,
  and those past the stop barrier since, always meet it, and `Reopening.RetryMayChangeStep` is a reachable
  history that does not.
- Only entry to `stopped` checks the stop barrier, so a run can be reopened for `waiting` or `starting` with a
  target that was never asked to stop (`Reopening.ReopenedWithoutBarrier`). `Reopening.EnteringPhase` says
  exactly when entering a phase leaves the run behind its barrier, by what a caller can read beforehand;
  `Coherence.ReopeningSettles` says exactly when a reopening leaves every target fit for the phase; and
  `Coherence.PhaseCoherence` covers what follows: runs not reopened since their capture, runs past the stop
  barrier since their last reopening, and runs reopened for a phase their targets fitted, in particular the
  phase they failed in (docs/api.md:170-176).
- The verifier accepts a capture event from any replayed state and does not replay lock conflicts, so it
  accepts more capture events than the writer produces. `Agreement.CaptureRule` says exactly which ones could
  have been written, and `Agreement.VerifierIsMoreLiberal` is a reachable database with one that could not.
- The verifier trims the justification it reads, while the writer trims the one it stores. The verifier
  therefore also accepts a reopening or a skip whose journalled justification has outer white space, which no
  call can write (`Agreement.VerifierTrims`). It also does not ask whether the id of a created run is well
  formed or whether the request id of an observation is new. `Agreement.EveryEvent` lists, for every kind of
  event, exactly what the writer asks beyond the verifier.
- The service lets some requests through that its own tables refuse; such a call ends in an internal error and
  changes nothing. The service measures a trimmed lock key in bytes (internal/store/mutations.go:103-106), the
  targets table by SQL's length, which ends at the first U+0000 (internal/store/schema.sql:39). And Go reads
  JSON nested up to 10000 levels, while SQLite's `json_valid`, which guards every JSON column
  (internal/store/schema.sql:13, 21, 40, 61), accepts 1000; an event payload encloses the metadata or the detail
  of its request in one more level. `Schema.InternalErrorExactly` says for every call exactly when this happens;
  `Schema.NulKeyRefused` and `Schema.DeepDetailRefused` are such requests. A detail of exactly 10000 levels is
  refused as invalid instead, because its event payload is too deep for Go (internal/store/events.go:19-21).

## Model

| member | source | states |
|---|---|---|
| `Agreement.ReplayRefinesStorage` | internal/store/verify.go:147-275 | After any sequence of accepted and rejected calls, verification accepts the database, and replaying each run's journal from nothing ends in exactly the stored state, version, capture flag, targets (state, version, original) and in a physical-transition flag equal to the writer's journal question. |
| `Agreement.RulesAgree` | internal/store/verify.go:392-465 | In a consistent database the verifier accepts a well-formed phase change, reopening, completion, target move or skip, its justification is trimmed and its payload not too deep for the journal, if and only if some store call would append exactly that event. |
| `Agreement.RulesAgreeOnEveryRun` | internal/store/verify.go:361-477 | The same over histories: a reachable journal extended by a well-formed change event with a trimmed justification replays if and only if some call made now would write that event. |
| `Agreement.CaptureRule` | internal/store/verify.go:373-391 | An acceptable capture event could have been written if and only if the run is `new`, no key of the document is held and the tables take the document and every key; the verifier asks for none of these. |
| `Agreement.VerifierIsMoreLiberal` | internal/store/verify.go:374-376 | Some reachable database has a capture event that the verifier accepts and no call can write. |
| `Agreement.VerifierTrims` | internal/store/verify.go:479-487 | Some reachable journal can be extended by a reopening with an untrimmed reason that replays, and no call can write it. |
| `Agreement.EveryEvent` | internal/store/verify.go:301-477 | For every kind of event, in a consistent database: some call would append it if and only if the verifier accepts it as the next one and it meets what the writer asks beyond the verifier (a well-formed new id, a fresh request id, a trimmed reason, a new run with free and storable keys, a payload the journal takes). |
| `Rules.CreationRule` | internal/store/mutations.go:15-51 | A run is created if and only if its id is well formed and unused, its state open or `new`, and its metadata less than 1000 levels deep; the row and the event are spelled out. |
| `Rules.CaptureRule` | internal/store/mutations.go:129-201 | A document is captured if and only if the run is new and uncaptured, every target acceptable, no id twice, no key taken or unstorable, and at most 1000 levels deep; the same document again is accepted and writes nothing. |
| `Rules.CaptureWrites` | internal/store/mutations.go:185-222 | What a capture leaves: exactly the document's targets with trimmed keys, stopped if they were stopped, at version 1, and an event with the digest and their number. |
| `Rules.PhaseRule` | internal/store/mutations.go:225-326 | A change of phase is accepted if and only if it is in a literal table, the version was named, the detail is less than 1000 levels deep, and the phase's own conditions hold (role `admin` and a reason to reopen, an unexercised run to cancel, targets at rest to stop, every target as it was found or skipped to complete); the new record and the event are spelled out. |
| `Rules.TargetRule` | internal/store/mutations.go:376-457 | A target is moved if and only if its run is open, the version was named, the detail is less than 1000 levels deep, and either role `admin` skips it for a reason or it was running and a literal table has the move in this phase; the new record and the event are spelled out. |
| `Rules.ObservationRule` | internal/store/mutations.go:467-513 | An observation is recorded if and only if its target exists, its run is open, the version was named, it is at most 1000 levels deep and its request id is new for this target; only the journal changes. |
| `Rules.SkippingIsForbidden` | internal/store/mutations.go:406-410 | A well-formed request of any role but `admin` to skip a target answers forbidden and changes nothing. |
| `Rules.ReopeningIsForbidden` | internal/store/mutations.go:246-249 | So does one to change a failed run. |
| `Rules.JournalIsLawful` | internal/store/lifecycle.go:3-19 | In every reachable journal every change and move is in its literal table and one version up, and every skip and reopening is by role `admin` with a reason. |
| `Soundness.VerifiedMeans` | internal/store/verify.go:217-275 | In a database that verifies, each run's journal replays, and its state, version, capture flag, identity and targets equal the replay, and its targets' keys, original states and carried fields the saved document, whose digest is right. |
| `Soundness.JournalDeterminesAll` | internal/store/verify.go:147-275 | Two databases that verify with the same journal and run ids are equal. |
| `Soundness.TamperedTargetIsFound` | internal/store/verify.go:267-272 | Change any field of one target of a verified database, and it no longer verifies. |
| `Soundness.TamperedRunIsFound` | internal/store/verify.go:245-255 | Change the state, version, identity, document, digest or targets of a run, and it no longer verifies. |
| `Soundness.VerifiedLocks` | internal/store/verify.go:178-188 | In a database that verifies, two runs that are not completed and not cancelled share no lock key. |
| `Histories.StepKeepsDb` | internal/store/mutations.go:15-513 | Every call, accepted or not, keeps the whole invariant: well-formed records, journals that replay to them, numbered and correctly placed events, exclusive locks. |
| `Histories.Reachable` | internal/store/store.go:384-396 | Every database reached from the empty one has the invariant. |
| `Invariant.TransitionKeepsRun` | internal/store/mutations.go:225-326 | An accepted phase change leaves a well-formed record whose journal, with the new event, replays to it. |
| `Invariant.TargetKeepsRun` | internal/store/mutations.go:376-457 | The same for an accepted target move or skip, including which targets count as untouched. |
| `Invariant.CaptureKeepsRun` | internal/store/mutations.go:157-222 | The same for an accepted capture, although the replay of the earlier journal now has a capture to look at. |
| `Writer.ParseTarget` | internal/store/mutations.go:98-124 | A target input is taken if and only if its id, trimmed lock key, original state and carried fields are acceptable, and then with the lock key trimmed. |
| `Writer.ParseCaptureTargets` | internal/store/mutations.go:84-127 | The one-pass loop with its set of seen ids accepts a document exactly when every target is valid and all ids differ, and yields the targets in order with trimmed keys. |
| `Records.MatchVersion` | internal/store/store.go:118-128 | The loop over the listed versions decides membership, or accepts everything for `*`. |
| `StoreTables.Store.CreateMaintenance` | internal/store/mutations.go:15-51 | Answer and tables equal the decision and step of the specification; every row written meets the schema; row checks come before uniqueness; the invariant is kept. |
| `StoreTables.Store.CaptureMaintenance` | internal/store/mutations.go:129-223 | The same for a capture, with its lock search, its idempotent and conflicting resubmissions, and the internal error of a document or a key the tables refuse. |
| `StoreTables.Store.LockIsHeld` | internal/store/mutations.go:175-184 | The walk over runs and target rows finds a key exactly when some run that keeps its locks has it. |
| `StoreTables.Store.CountTransitions` | internal/store/mutations.go:273-281 | The count over the journal is zero exactly when no target of the run was ever moved to a normal state. |
| `StoreTables.Store.CountUnresolved` | internal/store/mutations.go:362-374 | The count over the target rows is zero exactly when the run is behind the stop barrier. |
| `StoreTables.Store.RecordedObservation` | internal/store/mutations.go:479-490 | The walk over the journal finds the recorded observation of a target under a request id, or none. |
| `StoreTables.Store.SaveCapture` | internal/store/mutations.go:185-210 | Capture row, target rows and guarded run update together replace one record and no other; the guarded update hits its row. |
| `StoreTables.Store.InsertTargets` | internal/store/mutations.go:189-201 | The insert loop adds exactly the captured targets in their initial states, each passing the lock trigger and the row checks when inserted. |
| `StoreTables.Store.TransitionMaintenance` | internal/store/mutations.go:225-326 | Answer and tables equal the specification for every request; checks in the service's order, event kind, versions of the run and of all its targets. |
| `StoreTables.Store.CheckTransition` | internal/store/mutations.go:242-292 | The sequence of checks finds exactly the specified objection, or none. |
| `StoreTables.Store.ValidateCompletion` | internal/store/mutations.go:328-360 | The row loop objects exactly when there is no capture, an unreconciled target, or no target at all, in that order. |
| `StoreTables.Store.SaveTransition` | internal/store/mutations.go:293-309 | Run update and version bump of all captured targets change one record only; the guarded update hits its row. |
| `StoreTables.Store.MoveTarget` | internal/store/mutations.go:376-457 | TransitionTarget: answer and tables equal the specification for every request. |
| `StoreTables.Store.SaveMove` | internal/store/mutations.go:430-444 | Both version-guarded updates hit exactly one row, so their late conflicts cannot happen. |
| `StoreTables.Store.AddObservation` | internal/store/mutations.go:467-513 | Answer and tables equal the specification: a known request id answers before anything else is looked at; a new observation changes no row but the journal. |
| `StoreTables.Store.RecordBackup` | internal/store/backup.go:283-294 | A backup event belongs to no run, fits the schema, and leaves every run unchanged. |
| `Verifier.Replayer.CheckEvent` | internal/store/verify.go:361-477 | The replayer object accepts an event exactly when the rules do, and then holds exactly the state the rules give. |
| `Verifier.Replayer.ApplyPhaseChange` | internal/store/verify.go:392-443 | The branch for phase changes, with its barrier, completion and version loops, against the rules. |
| `Verifier.Replayer.ApplyMove` | internal/store/verify.go:444-465 | The branch for target events against the rules; it sets the physical-transition flag for normal moves only. |
| `Verifier.Replayer.AllStopped` | internal/store/verify.go:415-425 | The barrier loop decides whether every target satisfies the stop barrier. |
| `Verifier.VerifyRun` | internal/store/verify.go:217-275 | The fold over the journal and the comparisons accept a run exactly when its capture loads, its journal replays, and the replay equals the stored rows. |
| `Verifier.VerifyDatabase` | internal/store/verify.go:147-188 | Verification accepts a database if and only if locks are exclusive, every run verifies and every global event is valid. |
| `Verifier.NoOverlapIsExclusive` | internal/store/verify.go:178-188 | The row question of the lock check is the same as lock exclusivity between runs. |
| `Safety.TransactionalFrame` | internal/store/store.go:384-396 | A rejected call changes nothing; an accepted one keeps the journal as a prefix, adds at most one event, changes nothing when it adds none, and leaves all other runs and their journals alone. |
| `Safety.LockExclusivity` | internal/store/mutations.go:175-184 | In no reachable database do two runs that are neither completed nor cancelled hold one lock key. |
| `Safety.LockKeptUntilClosed` | internal/store/mutations.go:175-184 | A run keeps every key it holds until it is completed or cancelled, failure included; once another run holds one of its keys, it is closed. |
| `Safety.ClosedForever` | internal/store/lifecycle.go:3-11 | A completed or cancelled run keeps its record and its journal under every later sequence of calls. |
| `Safety.CompletionSafety` | internal/store/mutations.go:287-292 | A completed run has a target; every target is healthy if it was running, stopped if it was stopped, or skipped; and the record never changes again. |
| `Safety.CancellationSafety` | internal/store/mutations.go:273-281 | The journal of a cancelled run holds no normal target transition, then or later, and each of its targets is as captured or skipped. |
| `Safety.CaptureShape` | internal/store/mutations.go:157-201 | A run's targets are exactly those of its saved capture with the captured identities; a new run has neither capture nor targets. |
| `Safety.CapturePermanence` | internal/store/mutations.go:157-171 | At any later time the captured document is accepted again without change, and any other acceptable document conflicts without change. |
| `Safety.ObservationRetry` | internal/store/mutations.go:479-490 | After an observation was accepted, the same payload under its request id succeeds without change at every later time, also on closed runs, and any other payload conflicts forever. |
| `Versions.NoAba` | internal/store/mutations.go:293-311 | At any two moments of any run of calls, one run version stands for one whole aggregate, and one target version for one target state under one phase. |
| `Versions.NoLostUpdate` | internal/store/mutations.go:242-244 | A run or target write conditioned on the one version read earlier is accepted only if what was read is still there. |
| `Versions.Conservation` | internal/store/verify.go:361-477 | In every accepted journal the revision counts the version-bearing events, which carry 1, 2, 3, ... in order, and a target's version is 1 plus the phase changes since the capture plus its own moves. |
| `Versions.StoredVersions` | internal/store/mutations.go:430-446 | The same law for the stored versions of every reachable database. |
| `Coherence.PhaseCoherence` | internal/store/mutations.go:282-286 | In a stopped run every target is stopped or skipped, those captured as degraded or unknown are skipped. In a run not reopened since its capture, or past the stop barrier since its last reopening, or last reopened for a phase its targets fitted, every phase pins the states of its targets, those of a failed run still fit the phase it failed in, and a failed target failed in the step of that phase. |
| `Coherence.PinnedJournal` | internal/store/verify.go:361-477 | The same for every journal the verifier accepts, not only those the writer wrote. |
| `Coherence.ReopeningSettles` | internal/store/verify.go:396-405 | After an accepted reopening every target fits the new phase, and every failed one failed in it, if and only if they did before; a caller can read that from the failed run. |
| `Coherence.SettledByEvents` | internal/store/verify.go:392-443 | A journal without a reopening since the capture, one past the stop barrier since its last reopening, and one that reopens a settled run for the phase it failed in are all settled. |
| `Coherence.WaitingTarget` | internal/store/mutations.go:424-429 | A target of a waiting run is behind the stop barrier if and only if it was when the run began to wait or it was skipped since. |
| `Coherence.RetryFollowsPhase` | internal/store/lifecycle.go:59-70 | A retry of a failed target always enters the step of the run's current phase. |
| `Coherence.RetryRepeatsExactlyInPhase` | internal/store/lifecycle.go:13-19 | A retry repeats the step that failed if and only if the run is at that moment in the phase of that step. |
| `Coherence.RetryStaysInPhase` | internal/store/mutations.go:424-429 | In a settled run, and so without a reopening since the capture, every retry repeats the step that failed. |
| `Coherence.RestorationSafety` | internal/store/lifecycle.go:13-19 | A healthy target was captured running and was started; every start in its journal comes after a stop, through all failures and reopenings. |
| `Reopening.ReopenedWithoutBarrier` | internal/store/mutations.go:282-286 | Some reachable run is waiting, and some is starting, while a target that was running was never asked to stop. |
| `Reopening.EnteringPhase` | internal/store/mutations.go:282-286 | An accepted change to `stopped` is always behind the stop barrier; one to `waiting` is if and only if the run comes from `stopped` or its targets meet the stop barrier; one to `starting` is behind the start barrier if and only if the run comes from a waiting phase that passed the stop barrier or its targets meet the start barrier. |
| `Reopening.RetryMayChangeStep` | internal/store/lifecycle.go:18 | In some reachable journal a failed target is retried by a step other than the one that failed. |
| `Release.LocksCanBeReleased` | internal/store/mutations.go:246-292 | From every reachable run with n targets that is not completed or cancelled, an explicit plan of at most n + 3 administrator calls, all accepted, closes it and frees every key; uncaptured runs, captures without targets and healthy targets in a reopened stop phase included. |
| `Restoration.RestorationCanFinish` | internal/store/mutations.go:376-457 | From every reachable run with n targets that is not completed or cancelled, an explicit plan of at most 4n + 5 administrator calls, all accepted, completes it: what was running and not skipped is stopped, started and healthy, what was stopped is stopped, and only what was captured as degraded or unknown is newly skipped. |
| `Schema.AcceptedCallsFitSchema` | internal/store/schema.sql:3-132 | Every write of an accepted call meets the version, length, json_valid and from/to checks, both unique indexes, the foreign keys, the lock trigger and the immutability triggers. |
| `Schema.SchemaHolds` | internal/store/schema.sql:75-80 | Every reachable database satisfies the whole schema, so there is at most one observation per run, target and request id and at most one event per run version. |
| `Schema.RowsFit` | internal/store/schema.sql:3-41 | Column by column for every reachable run and target: positive versions, SQL lengths, JSON depths. |
| `Schema.EventsFit` | internal/store/schema.sql:43-68 | Column by column for every reachable event: foreign keys, JSON depth, from and to all set one version apart or all NULL. |
| `Schema.EventsUnique` | internal/store/schema.sql:75-80 | No two events of a run share an aggregate version, and no two observations of a target a request id. |
| `Schema.InternalErrorExactly` | internal/store/schema.sql:3-68 | For every call, exactly when a row check of the tables stops what the service let through: a capture with a document deeper than 1000 levels or a key that begins with U+0000, a creation with metadata of 1000 levels or more, a change that would be written with a plain detail but carries one of 1000 to 9999 levels, an observation deeper than 1000. |
| `Schema.NulKeyRefused` | internal/store/mutations.go:103-106 | A document with such a key parses, and capturing it for any new run while the key is free answers an internal error. |
| `Schema.DeepDetailRefused` | internal/store/events.go:19-48 | Failing a new run with a detail of up to 999 levels is accepted, of 1000 to 9999 an internal error, of 10000 invalid. |
| `Text.StorableExactly` | internal/store/schema.sql:39 | Of the keys that pass the service's own test, the length check of the table refuses exactly those that begin with U+0000. |
| `Text.TrimIdempotent` | internal/store/mutations.go:459-465 | Trimming twice is trimming once, so a stored justification passes the verifier's check whenever the request passed the writer's. |
| `Text.TrimExactly` | internal/store/mutations.go:459-465 | Trimming takes away all white space at both ends and nothing else. |
| `Text.SpacesAre` | internal/store/mutations.go:459-465 | The white space of the trimming rule, by code point. |
| `Records.DepthIsLeast` | internal/store/schema.sql:16-22 | The depth of a document is the least that its members allow. |
| `IfMatch.ReadIfMatch` | internal/api/server.go:218-275 | For every list of header values: missing exactly when the trimmed text is empty, accepted exactly when it is `*` or a list in the grammar, and the resulting condition matches a version from 1 to 2^63-1 exactly when the text is `*` or holds a strong tag equal to that version's. |
| `IfMatch.Scan` | internal/api/server.go:226-275 | The offset loop ends in bounds and computes what the list parser gives: the versions of the strong canonical tags in order, or the never-matching 0, or malformed. |
| `IfMatch.ParseListSound` | internal/api/server.go:227-268 | What the parser accepts renders back to the text it came from. |
| `IfMatch.ParseListComplete` | internal/api/server.go:227-268 | Every rendered list of well-formed elements is parsed, and only to itself. |
| `IfMatch.TagVersionIsDecimal` | internal/api/server.go:252-256 | A tag names version v if and only if it is the canonical decimal of v: no sign, no leading zero. |
| `IfMatch.NeverMatching` | internal/api/server.go:252-256 | A weak tag, an empty one, and one with a sign, a leading zero or any character that is no digit equals no version's tag. |
| `IfMatch.UnderstoodExactly` | internal/api/server.go:218-275 | A text is a condition exactly when it is in the grammar, and the condition matches a version exactly by strong comparison. |
| `IfMatch.TagCharactersAre` | internal/api/server.go:241-246 | The characters that may stand in a tag are code points 33, 35 to 126, and 128 upwards. |
| `IfMatch.BlanksAre` | internal/api/server.go:228-230 | Only blanks and tabs may stand before a tag. |
| `IfMatch.LinesAreOneList` | internal/api/server.go:219 | Several If-Match lines count as one list of all their tags, in order. |
| `Conditional.ObjectionIsComparison` | internal/store/store.go:118-138 | The store's answer to a condition read from a header is none if the header strongly matches the current version, and a version conflict if it does not. |
| `Conditional.AcceptedMatchesStrongly` | internal/store/mutations.go:242-244 | A change of a run or target, or a new observation, sent with a header is accepted only if the header strongly matches the version it meets. |
| `Conditional.NoLostUpdateByTag` | internal/store/store.go:130-140 | A client that sends back the entity tag it was given for a run or a target gets a write only if what it read is still there. |
| `Paging.ListEvents` | internal/store/reads.go:196-262 | The listing refuses exactly the invalid filters and cursors; every item agrees with each of the eight fields the filter sets; the limit is 100 by default and at most 200; and the page is that of the specification. |
| `Paging.PagingIsExact` | internal/store/reads.go:237-262 | Following next_cursor over a growing table ends, and the pages together are exactly the rows that matched at the first request, each once, newest first, for every filter and limit. |
| `Paging.EventFeedIsExact` | internal/store/reads.go:196-262 | While any clients make any calls between the pages, following the cursor gives exactly the events that agreed with every set field of the filter at the first page, each once, newest first. |
| `Paging.PagingOfChangingRows` | internal/store/reads.go:168-182 | Where rows change while they are paged, for every filter and limit: strictly descending, no duplicates, and no row that matches throughout is missed. |
| `Paging.ListMaintenances` | internal/store/reads.go:121-182 | The listing of runs refuses exactly the invalid filters and cursors, every item has the state and the id the filter sets, and the page is that of the specification with the next cursor taken from the row numbers. |
| `Paging.RunListKeepsUp` | internal/store/reads.go:121-182 | While any clients make any calls between the pages, every row stays the row of the same run, runs come newest first without duplicates, and no run that matches the filter throughout is missed. |
| `Paging.RowsStayRuns` | internal/store/mutations.go:34-46 | In every reachable database each run has exactly one row, in the order of the creation events. |
| `Paging.RowsShowRuns` | internal/store/reads.go:121-182 | The rows of the list are the runs as they are: one for each, with its state, version and identity. |
| `Backup.CleanUpSafety` | internal/store/backup.go:201-254 | Clean-up leaves no temporary file and no half of a pair, removes no complete pair and adds nothing. |
| `Backup.BackupDirectory.CleanUp` | internal/store/backup.go:201-254 | The three sweeps reach that directory, and wherever they are stopped every complete pair is untouched. |
| `Backup.RotationIsExact` | internal/store/backup.go:326-364 | A pair survives rotation if and only if fewer than `keep` databases come after it by name or it is younger than the minimum age, and then untouched. |
| `Backup.BackupDirectory.Rotate` | internal/store/backup.go:326-364 | The sort-and-delete loop reaches exactly the rotated directory, and stopped anywhere it has removed expired entries only. |
| `Backup.RankIsPosition` | internal/store/backup.go:341-345 | In the descending order of names the position of a backup is the number of greater names. |
| `Backup.LessMeans` | internal/store/backup.go:341 | The order of names: at the first differing character the smaller one comes first, and a prefix before what extends it. |
| `Backup.LaterNameComesLater` | internal/store/backup.go:69-71 | A later clock gives a name that comes later. |
| `Backup.TempNamesAre` | internal/store/backup.go:206-214 | Temporary files are exactly those named `lazarus-`, anything, and one of four suffixes. |
| `Backup.DatabaseNamesAre` | internal/store/backup.go:219-222 | Databases are exactly those named `lazarus-`, anything, `.db`. |
| `Backup.ManifestNamesAre` | internal/store/backup.go:236-242 | Manifests are exactly those named `lazarus-`, anything, `.db.manifest.json`. |
| `Backup.ArtifactNamesAre` | internal/store/artifacts.go:20-27 | The names that can be looked up, by length and code point. |
| `Backup.ChangedBackupIsRefused` | internal/store/artifacts.go:38-52 | Another image, another digest or another name in the manifest, or one half missing, and the backup is refused. |
| `Backup.BackupDirectory.Publish` | internal/store/backup.go:69-153 | Stopped anywhere, also inside a write that leaves half a file and SQLite side files, only the names of the new backup differ and no new manifest stands under its final name; finished, the directory holds the new pair and no temporary file of it. |
| `Backup.PublishedIsPublished` | internal/store/artifacts.go:19-62 | The pair written by publishing is one that artifact validation accepts if and only if its name has the permitted length and characters. |
| `Backup.BackupNameIsArtifact` | internal/store/backup.go:69-71 | The name a backup gets from the clock is a database name that artifact validation looks up. |
| `Backup.ScratchIsTemp` | internal/store/backup.go:256-263 | Whatever a stopped write leaves behind, clean-up recognises as a temporary file. |
| `Backup.PublishedSurvivesCleanUp` | internal/store/artifacts.go:19-62 | Clean-up changes nothing about which backups are published. |
| `Backup.BackupDirectory.Backup` | internal/store/backup.go:30-157 | Stopped anywhere: before the new pair is complete no complete pair is lost, after that only expired ones; rotation counts complete pairs only, so an unfinished backup never displaces a complete one; `keep` pairs or all there were remain; a request whose earlier backup is still published creates nothing; a finished call leaves exactly the rotated directory, with 7 kept by default and at most 1000; the backup just made is there and whole if its name comes last; and if every pair was one that artifact validation accepts and the new name is unused, every pair is at every stopping point, so nothing incomplete is exposed. |
| `Backup.BackupDirectory.Serve` | internal/store/backup.go:30-157 | Over any sequence of calls, each stopped anywhere or nowhere, at least the smallest requested number of pairs, or as many as there were, remain; if all pairs were valid at first and no name comes twice, all pairs are valid throughout and the floor counts valid ones. |

## Left out

- SQLite itself: a transaction is one atomic step, which is what Store.write gives; write-ahead logging, pragmas, rollback mechanics, file permissions and integrity checks are not modelled.
- JSON: documents and payloads are canonical values compared by equality, with their nesting depth; decoding, canonicalisation and size limits appear as optional fields that are absent when a check fails.
- SHA-256: a digest is a collision-free function of the document.
- Base64 of cursors: a cursor arrives decoded, as absent, undecodable or a number.
- Timestamps, metadata, ticket, workflow label, kind and host: carried together as one opaque text per row, whose depth is that of the metadata; the update time and the event time are not kept.
- Sixty-four-bit overflow: versions and journal ids are unbounded; only the If-Match scanner has the 64-bit limit.
- Texts are sequences of characters; byte lengths are computed where the code measures bytes, and invalid UTF-8 is not modelled.
- ListMaintenances: the equality tests on change ticket and workflow version are one test on the carried identity text.
- HTTP routing, handlers, status mapping, bearer tokens, metrics and logging; of the roles only the administrator matters to the rules.
- Start-up, readiness, restore and shutdown, and the catalogue check of tables, triggers and indexes.
- Triggers against deletes and against updates of captures and events: no call of the model contains such a statement.
- PublishedIsPublished: that the image verifies again when it is looked up is part of calling it an image; what VACUUM INTO writes is one opaque text, and manifests carry the file name and the digest only.
- Backup errors: an operation that fails is treated as the point where the call stops; the best-effort removal of the temporary file after such a failure is not modelled, the next clean-up removes it. Durability of a rename (fsync) is assumed.
- The journal lookup of an earlier backup: the file name found is a parameter, the check that its pair is still published is modelled.
- Configuration: playbooks, charts, fixtures and scripts.
