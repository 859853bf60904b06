# LoveEngine witness: verified model

A Dafny model of the parts of the LoveEngine witness repository whose correctness is a protocol rather than a
formula, with proofs of what they promise. Each module carries the name of what it models.

- **Encodings.** `Json`, `JsonParser`, `Utf8` and `Canonical` model `canonical_json_bytes` as a real printer with a
  parser that undoes it, so that the encoding is proved injective; `JsonFile` does the same for indented files.
  `HashChain` is the one statement about hash-linked logs that live events and audit records both use.
- **Live evidence.** `LiveStore`, `LiveGateway` and `LiveEvidence` ingest, close and finalize; `LiveRetry` is about
  resending. `Observation` and `ObservationSession` are one observer against any server, `ObservationHistory` is what
  its report proves, and `ObservationProtocol` lets any number of observers, crashes and restarts interleave with the
  gateway at every store call. `EventStream` and `ObservationStream` are the text between them, `LiveSchema` the
  schemas observers check, `Aggregation` the comparison of three reports and `Revisions` what several bundles of one
  session do to it.
- **Snapshots.** `Disk` is a file system in which a script decides which operations fail and what a half-done one
  leaves behind; `SnapshotSeal`, `SnapshotStaging` and `SnapshotRestore` create, verify and restore on it,
  `SnapshotFormat` is the checksum file as it is stored, and `SnapshotRoundTrip` puts creation and restore together.
- **Guardian and lock.** `Guardian` watches and stops an owned process group on whatever a host reports;
  `LockHandoff` is the hand-off of the shared-host lock over many launches and crashes; `PreflightLease` is the
  one-shot lease that goes with it, and `LeaseFormat` its JSON.
- **Agent.** `AgentJournal` has both forms of the task journal, `ReceiptText` the stored text of a receipt and
  `AgentSession` the session against any relay, over reconnects and crashes.
- **Sealed trees and logs.** `AuditLog`, `SourceText` and `Package`.

Objects whose methods update them are classes; loops over shared state are methods proved against pure functions or
against the property itself; protocols with several processes are state machines over their steps.

Nothing is assumed about SHA-256 and Keccak but, where a pattern asks for it, that they give 32 bytes. Where a
property rests on collision resistance, the lemma says instead that it holds or that the inputs at hand contain a
collision. Whatever lies outside the modelled modules comes in as data: the clock, randomness, the relay, the
servers, which file operation fails, what `/proc` shows.

What turned out false of the code is stated as such, with the exact condition:

- The event stream delivers its events exactly when there is no U+0085, U+2028 or U+2029 in their JSON
  texts (`EventStream.StreamRoundTrip`), and one such event stops every observer that comes to it
  (`ObservationProtocol.UnreadableStops`). The gateway does not look at schemas, and observers do
  (`ObservationProtocol.ReturnMeansReadable`).
- The row of an agent belongs to a session, not to a task: a later task for the session is refused exactly when it
  starts beyond the row (`ObservationProtocol.RollbackExact`), as happens to an agent that stopped between two events
  (`ObservationProtocol.LaterTaskRefused`, `ObservationProtocol.StoppedBetweenEvents`).
- Observers of one run agree on the bundle hash exactly when the newest revision was the same at their fetches; a run
  in which it was not is `Revisions.SplitRunReports`.
- Resending an event is a duplicate exactly when its source type and time were spelled out or it fixes its own place
  (`LiveRetry.ResendHarmlessIff`).
- A receipt loaded from the journal has its keys sorted, and `send_json` does not sort them, so a resent receipt is the
  same value but not the same bytes; so it is for every receipt the signer builds (`ReceiptText.ResentFrame`,
  `ReceiptText.UnsortedFrame`).
- `rejected` misses exactly what the connections before the last had recorded (`AgentSession.Agent.RunAgent`,
  `AgentSession.LostRejection`).
- Details of an audit record that use the names `previous_record_hash` or `record_hash` break the log
  (`AuditLog.AuditFile.Write`, `AuditLog.HashNameBreaks`); the other reserved names only replace a value.
- An artifact called `checksums.json` makes every snapshot fail its own verification (`SnapshotSeal.CreatedVerifies`).
- Paths are read back from a checksum file when their parts are file names (`SnapshotFormat.SumsReadBack`); two lists
  of parts of which one holds a slash can look alike once joined (`SnapshotFormat.JoinedNamesLookAlike`).
- Mixed line endings normalise to the LF checkout exactly when no CR stands directly before the LF of an empty line
  (`SourceText.CheckoutNormalizesIff`); `SourceText.MixedEndingsMerge` is a text in which one does.
- A restore onto the snapshot itself passes the checks and destroys it, and no other target does
  (`SnapshotRestore.SnapshotKeptIff`, `SnapshotRoundTrip.RestoreOntoItself`).
- An entry below `.venv` or a cache directory passes archive verification and can never be installed
  (`Package.InstallPackage`, `Package.HiddenEntryRefused`, `Package.HiddenEntryExists`).
- A lease over 64 KiB leaves the pipe's descriptor open (`PreflightLease.CreateLease`,
  `LeaseFormat.OversizedLeaseLeaks`).
- The guardian watches until its deadline unless a look finds the leader gone and can scan its group
  (`Guardian.WatchOwnedGroup`). Such a look ends it with a safe status when the group is empty, and otherwise as the
  stop finds it, which may be an identity mismatch with the group alive (`Guardian.EarlyUnsafeEnd`).

## Model

| member | source | states |
|---|---|---|
| `JsonParser.LoadsUndoesPrint` | src/loveengine_witness/canonical.py:9-17 | reading printed JSON gives back the very value, member order included, for both separator styles |
| `JsonParser.ValueUndone` | src/loveengine_witness/canonical.py:9-17 | a printed value in front of any text that cannot extend it is read back, and exactly the rest is left |
| `JsonFile.ReadUndoesWrite` | src/loveengine_witness/jsonio.py:12-26 | what write_json stores, indented by two spaces, read_json gives back, member order included |
| `Utf8.RoundTrip` | src/loveengine_witness/canonical.py:9-17 | every Unicode text survives UTF-8 encoding and decoding |
| `Canonical.ReadBack` | src/loveengine_witness/canonical.py:9-17 | canonical bytes decode and parse back to the value with its keys sorted |
| `Canonical.CanonicalDecidesEquality` | src/loveengine_witness/canonical.py:9-17 | canonical bytes are equal exactly when the values are equal as Python values: injective, and independent of key insertion order |
| `Canonical.RecordInjective` | src/loveengine_witness/canonical.py:9-17 | two records with the same keys and the same canonical form agree in every member |
| `HashChain.HeadCommitsHistory` | src/loveengine_witness/live_protocol.py:35-83 | for any hash-linked log: equal heads mean equal logs, record for record and in length, or an explicit collision inside the two logs |
| `LiveProtocol.HashedBytesInjective` | src/loveengine_witness/live_protocol.py:35-38 | the bytes that are hashed for an event determine every field of the event but its own hash |
| `LiveProtocol.EventBytesDecideEquality` | src/loveengine_witness/live_protocol.py:35-38 | two events have the same hashed bytes exactly when they agree on every hashed field |
| `LiveProtocol.BundleBytesInjective` | src/loveengine_witness/live_evidence.py:14-17 | the hashed bytes of an evidence bundle determine every field but the hash |
| `LiveProtocol.BuildLiveEvent` | src/loveengine_witness/live_protocol.py:41-76 | an event that is built verifies |
| `LiveProtocol.VerifiedHashCommits` | src/loveengine_witness/live_protocol.py:79-83 | two verified events with one event hash agree on every hashed field, or their bytes collide under Keccak |
| `LiveStore.LocalArtifactStore.Put` | src/loveengine_witness/live_store.py:32-40 | nothing stored is lost or replaced, what is put lies under its own SHA-256 or nothing is stored, and files that all lie under their digests go on doing so |
| `LiveStore.LocalArtifactStore.Get` | src/loveengine_witness/live_store.py:42-49 | what is given out has the digest it was asked for, and among files under their digests nothing that is there is refused |
| `LiveStore.LiveMetadataStore.Create` | src/loveengine_witness/live_store.py:115-129 | an existing session never changes, and success means that the session is there just as given |
| `LiveStore.LiveMetadataStore.Append` | src/loveengine_witness/live_store.py:147-189 | at most one event is added, at the end, to an open session at its very place and head, and only that session moves on; a duplicate is an event stored already field for field; every other outcome changes nothing |
| `LiveStore.LiveMetadataStore.Close` | src/loveengine_witness/live_store.py:212-223 | closing is final: the first closing time stays, everything else of the session and all other sessions are untouched |
| `LiveStore.LiveMetadataStore.Save` | src/loveengine_witness/live_store.py:225-248 | a revision once stored never changes, and success means that the stored one has the hash of this one |
| `LiveGateway.AppendEvents` | src/loveengine_witness/live_gateway.py:192-247 | the batch loop computes the specified state, the accepted and duplicate counts and the first error, and stops there |
| `LiveGateway.GatewayRunsKeepInv` | src/loveengine_witness/live_gateway.py:192-258 | every state reached by create, append, close and finalize keeps chains numbered and linked, artifacts stored, event ids unique and bundles true |
| `LiveGateway.StepGrows` | src/loveengine_witness/live_gateway.py:192-258 | no step loses a row or an artifact, and a closed session never changes |
| `LiveGateway.ClosedEventsFrozen` | src/loveengine_witness/live_store.py:147-223 | after close no step adds, drops or changes an event of the session |
| `LiveGateway.FinalizeFailsOnlyOnConflict` | src/loveengine_witness/live_evidence.py:20-77 | in every reachable state, finalizing a closed session can fail only with a revision conflict |
| `LiveEvidence.FinalizeEvidenceBundle` | src/loveengine_witness/live_evidence.py:20-77 | the finalization loop computes the specified bundle or the first fault, and stores it |
| `LiveEvidence.ClosedSessionFinalizes` | src/loveengine_witness/live_evidence.py:20-77 | a closed session finalizes to exactly the bundle of its events |
| `LiveEvidence.BundleDescribesChain` | src/loveengine_witness/live_evidence.py:42-77 | a stored bundle lists events 1 to n in order, its head is the session's, its category counts sum to n and its hash verifies |
| `LiveEvidence.FinalizeIdempotent` | src/loveengine_witness/live_store.py:225-248 | finalizing again with the same revision and time returns the stored bundle and changes nothing |
| `LiveRetry.RetryConverges` | src/loveengine_witness/live_gateway.py:195-243 | for events that name source type and time, positions explicit or not: losing the connection after any prefix of a batch and resending all of it ends in the state of one uninterrupted send, error or not |
| `LiveRetry.ResendLater` | src/loveengine_witness/live_gateway.py:215-222 | resending a committed batch in any later gateway state changes nothing and reports only duplicates |
| `LiveRetry.ResendHarmlessIff` | src/loveengine_witness/live_gateway.py:215-238 | resending any accepted event is a harmless duplicate if and only if it spelled out its source type and gave its time as text, or fixed its own place in the chain; otherwise it is a conflict, and nothing changes either way |
| `Observation.ObservationCursorStore.Save` | src/loveengine_witness/observation.py:126-155 | a cursor row never moves back, and a row that stays in place keeps its head |
| `Observation.ReadLimited` | src/loveengine_witness/observation.py:64-84 | for every way the body arrives in pieces, it is returned whole when it fits and refused otherwise, after at most limit + 1 bytes |
| `Observation.ReplayEvents` | src/loveengine_witness/observation.py:219-278 | the event loop computes the specified cursor, row and first fault; in every outcome the events taken number at most 10,000 in all, each artifact is at most 8 MiB and all together at most 64 MiB; other rows stay |
| `Observation.TakenFits` | src/loveengine_witness/observation.py:219-278 | however a response ends, the events taken before its first fault are within the number, the size of each artifact and the size of all of them |
| `ObservationSession.Conclude` | src/loveengine_witness/observation.py:293-347 | a round ends the observation only at the terminal sequence and with a bundle whose hash, head and count fit |
| `ObservationSession.ObserveLiveSession` | src/loveengine_witness/observation.py:167-350 | against any server, and any artifact server for each round: the stored row always stands for events checked one by one, a report vouches for all of them and a fitting bundle, and in every outcome, errors included, at most 10,000 events and 64 MiB of artifacts are taken, each at most 8 MiB |
| `ObservationSession.ObserveAgain` | src/loveengine_witness/observation.py:167-350 | any number of observations on one cursor store, each against its own servers and stopped anywhere, extend one checked history |
| `ObservationSession.ResponseOnTrack` | src/loveengine_witness/observation.py:219-278 | however far into a response the checks get, the row left behind stands for exactly the events checked |
| `ObservationHistory.HeadCommitsObservations` | src/loveengine_witness/observation.py:219-278 | two observers that report one head checked the same events field for field, even against dishonest servers, unless those events break Keccak |
| `ObservationProtocol.RunsKeepInvariant` | src/loveengine_witness/observation.py:167-347 | for every interleaving of gateway steps, observers, crashes, restarts and new tasks on the same row, each observer stands on a committed prefix |
| `ObservationProtocol.NoFalseRejection` | src/loveengine_witness/observation.py:158-304 | against a store that only the gateway writes, an observer can stop only with a limit or a timeout, because a committed event cannot pass the stream, because a record does not match its schema, or because its agent's row lies before the task it was given; never with a gap, chain, conflict or bundle error |
| `ObservationProtocol.RollbackExact` | src/loveengine_witness/observation.py:182-186 | a committed task is refused with cursor_rollback if and only if the agent's row for the session lies before its start; otherwise the observation begins |
| `ObservationProtocol.LaterTaskRefused` | src/loveengine_witness/agent_session.py:578-586 | it happens: in every run in which the chain goes on beyond an agent's row, a later committed task that starts there is refused |
| `ObservationProtocol.StoppedBetweenEvents` | src/loveengine_witness/observation.py:181-278 | an agent that stops between two events of a response has such a row |
| `ObservationProtocol.UnreadableStops` | src/loveengine_witness/observation.py:158-218 | the other way round: an observer that lists an event the stream cannot carry stops there and then |
| `ObservationProtocol.ReturnMeansReadable` | src/loveengine_witness/observation.py:219-347 | an observer returns only when every event passes the stream and its schema from the start of the task its row was begun under, and the session and the reported bundle match theirs |
| `ObservationStream.SentIsRead` | src/loveengine_witness/live_gateway.py:299-314 | the text a gateway sends is read back event for event, or refused as a whole when one event holds a character the line splitting breaks on |
| `ObservationStream.LiveObserversStopOnlyFor` | src/loveengine_witness/observation.py:158-304 | with the real hashes, framing, printer, line splitting and parser in between, observers stop only for those reasons |
| `ObservationProtocol.CursorIsCommittedPrefix` | src/loveengine_witness/observation.py:219-304 | the cursor and head of a running observer, and of its saved row, are a committed prefix of the chain |
| `ObservationProtocol.ClosedKeepaliveMeansTerminal` | src/loveengine_witness/live_gateway.py:286-306 | a keepalive sent because the session is closed means the cursor is at the terminal sequence |
| `ObservationProtocol.ObserversAgree` | src/loveengine_witness/observation.py:293-347 | whenever two observers return in a run, or one of them twice, they report the same session, sequence, count and head, and the same bundle hash when one revision was finalized |
| `EventStream.StreamRoundTrip` | src/loveengine_witness/observation.py:158-164 | parsing the server's body returns exactly the events sent if and only if no JSON text contains U+0085, U+2028 or U+2029; otherwise the response is refused |
| `EventStream.CutTextRefused` | src/loveengine_witness/observation.py:158-164 | JSON text cut before a raw non-ASCII character is never read as some other value |
| `Aggregation.AggregateObservations` | src/loveengine_witness/observation.py:359-417 | the loop accepts exactly three distinct expected observers with one result, and otherwise reports the first fault |
| `Aggregation.AgreeingObserversAggregate` | src/loveengine_witness/observation.py:401-404 | receipts of three observers of one run with one revision never mismatch, whenever each of them returned |
| `Revisions.AgreementExact` | src/loveengine_witness/observation.py:305-347 | two observers that return agree if and only if the bundles served at their two fetches have one hash: nothing else in a run can make their results differ |
| `Revisions.AgreementByRevision` | src/loveengine_witness/observation.py:305-347 | with the real hashes: they agree exactly when the newest revision was the same at the two fetches, or two stored bundles collide under Keccak |
| `Revisions.SplitRunReports` | src/loveengine_witness/observation.py:305-347 | a run in full, with create, close, two revisions and two observers that fetch before and after the second: both return, one with each bundle |
| `Revisions.LiveObserversSplit` | src/loveengine_witness/observation.py:305-347 | that run with the real stream, for every 32-byte hash, session and pair of revisions: the two results differ, or the bundles collide |
| `Revisions.LateObserverResult` | src/loveengine_witness/live_evidence.py:20-77 | a higher revision finalized just before a fetch is the one that observer reports, or its schema stops it |
| `SnapshotSeal.VerifySystemSnapshot` | src/loveengine_witness/pilot_snapshot.py:206-276 | a snapshot is accepted exactly when its checksum file lists every other file with its digest, nothing else, the required contents pass and data/artifacts is a directory |
| `SnapshotSeal.CreatedVerifies` | src/loveengine_witness/pilot_snapshot.py:124-194 | a snapshot just created verifies if and only if its inputs pass, its artifact paths are safe and no artifact at any depth is called checksums.json |
| `SnapshotSeal.CreateSystemSnapshot` | src/loveengine_witness/pilot_snapshot.py:132-203 | creation yields a sealed snapshot of exactly the captured files, or nothing, and says exactly when |
| `SnapshotSeal.SealDetermines` | src/loveengine_witness/pilot_snapshot.py:206-248 | one checksum file fits one set of files, or two files collide under SHA-256 |
| `SnapshotFormat.RepositoryLawful` | src/loveengine_witness/pilot_snapshot.py:40-55 | the checksum file of the repository, with slash-joined paths in indented JSON, its path rules and its digests satisfy the laws that creation and verification rely on |
| `SnapshotFormat.SumsReadBack` | src/loveengine_witness/pilot_snapshot.py:124-129 | a checksum file written for paths of file names is read back entry for entry |
| `SnapshotSeal.RestoreReproduces` | src/loveengine_witness/pilot_snapshot.py:279-390 | create, then restore: databases, audit log and chain state come back byte for byte and the artifact directory holds exactly the captured artifacts |
| `SnapshotRoundTrip.BackUpAndRestore` | src/loveengine_witness/pilot_snapshot.py:132-390 | create and restore on one volume: a restore that reports success has brought back databases, log, state and exactly the captured artifacts, and without failures and with clear targets it succeeds whenever the inputs could be sealed |
| `SnapshotStaging.CheckTargets` | src/loveengine_witness/pilot_snapshot.py:307-323 | the three target checks, in order, reject exactly unsafe targets, wrong types and nested or equal targets |
| `SnapshotStaging.Stage` | src/loveengine_witness/pilot_snapshot.py:325-355 | staging changes nothing but new containers and new directories above targets, and when it succeeds every container holds the source and the old target |
| `SnapshotStaging.ItemsSeparate` | src/loveengine_witness/pilot_snapshot.py:318-333 | the nesting check makes every target and every staging container unrelated to all the others |
| `SnapshotRestore.ApplyItem` | src/loveengine_witness/pilot_snapshot.py:83-94 | a target becomes the staged tree; when it fails only the plain file is sure to be untouched |
| `SnapshotRestore.RollbackItem` | src/loveengine_witness/pilot_snapshot.py:97-109 | a target becomes its backup again, or is gone when there was none, and nothing else changes |
| `SnapshotRestore.Commit` | src/loveengine_witness/pilot_snapshot.py:365-373 | the items to roll back are those applied plus a failing one whose replacement is not atomic; all later targets and all backups are intact |
| `SnapshotRestore.Rollback` | src/loveengine_witness/pilot_snapshot.py:374-385 | the loop undoes the committed items in reverse and goes on after an error |
| `SnapshotRestore.RemoveContainers` | src/loveengine_witness/pilot_snapshot.py:386-389 | the containers are removed, up to the first that cannot be, and nothing outside them changes |
| `SnapshotRestore.Restore` | src/loveengine_witness/pilot_snapshot.py:279-390 | all or nothing for every pattern of failures, half-done copies and removals included: unless a rollback step fails, all targets are restored or all exactly as before; outside them only new parent directories remain; without failures it succeeds |
| `SnapshotRestore.SnapshotKept` | src/loveengine_witness/pilot_snapshot.py:307-314 | a restore leaves the snapshot as it was unless a target is the snapshot itself |
| `SnapshotRestore.SnapshotKeptIff` | src/loveengine_witness/pilot_snapshot.py:307-314 | a successful restore, cleaned up after, keeps its snapshot if and only if no target is the snapshot itself, for volumes of any bounded depth |
| `SnapshotRestore.RestoreOntoSnapshot` | src/loveengine_witness/pilot_snapshot.py:311-312 | what a target that equals the snapshot is left with: the snapshot's own artifacts, so its data directory is gone unless they hold one |
| `SnapshotRoundTrip.RestoreOntoItself` | src/loveengine_witness/pilot_snapshot.py:311-390 | it happens: every sealable snapshot without artifacts, restored with the artifacts directed at the snapshot, passes the checks, reports success and is gone |
| `Guardian.StopOwnedGroup` | tools/start_shared_quickstart.py:335-426 | SIGTERM, then SIGKILL, each only on evidence; a safe status means the group is empty, and is given exactly when the trace ends safely; at most 62 steps |
| `Guardian.WatchOwnedGroup` | tools/start_shared_quickstart.py:429-468 | for every behaviour of the host: it ends, no signal follows an identity mismatch, every signal follows directly on an accepted state check and a live scan; it leaves the watch before the deadline if and only if a look found the leader gone with an available membership scan; the status is safe exactly when the trace ends safely |
| `Guardian.EarlyUnsafeEnd` | tools/start_shared_quickstart.py:434-468 | a concrete host on which the guardian ends at once with an identity mismatch, the group alive and the whole deadline ahead |
| `Guardian.StopFailedStart` | tools/start_shared_quickstart.py:203-246 | every signal follows directly on a check that found the very process that was started |
| `LockHandoff.RunsKeepInv` | tools/start_shared_core.py:233-308 | over all interleavings of launches, crashes and hand-offs, who has the lock open follows from where each process is, and at most one launch holds it |
| `LockHandoff.LockExclusive` | tools/start_shared_quickstart.py:795-877 | while a launch has live work and its guardian has not failed, the guardian holds the lock and no other launch can acquire it |
| `LockHandoff.OneWorkload` | tools/remote_host_preflight.py:118-161 | two launches never have live work at once unless a guardian failed |
| `LockHandoff.WorkNeedsGuard` | tools/start_shared_quickstart.py:799-826 | no work starts before a guardian was started with the lock in its hands |
| `LockHandoff.AcquiredMeansOver` | tools/remote_host_preflight.py:152-158 | once the lock is acquired, every earlier launch is over: in no continuation does it have live work again, unless its guardian had failed |
| `LockHandoff.CrashedGuardianLosesTheLock` | tools/start_shared_quickstart.py:427-468 | the condition is needed: a concrete run in which a crashed guardian leaves an orphaned workload beside a new launch |
| `PreflightLease.WriteLeaseBytes` | tools/remote_host_preflight.py:242-253 | for every way writes move data, what arrives is the value or a part of it from the start |
| `PreflightLease.ReadLeaseBytes` | tools/remote_host_preflight.py:221-239 | for every way reads return data, the result is all that was sent, and more than 64 KiB is refused after at most one chunk more |
| `PreflightLease.CreateLease` | tools/remote_host_preflight.py:256-296 | only a passing preflight is leased, and the descriptor stays open exactly when the lease is over the size limit |
| `PreflightLease.ConsumeLease` | tools/remote_host_preflight.py:299-354 | a lease is accepted exactly when it decodes, carries an identifier, fits workspace, thresholds and launcher, is within its time and its report passes |
| `PreflightLease.HandOver` | tools/remote_host_preflight.py:256-354 | a created lease is accepted by exactly its workspace, thresholds and launcher until fifteen seconds have passed, whatever the pieces |
| `LeaseFormat.LeaseCodecLawful` | tools/remote_host_preflight.py:272-345 | the lease's JSON is read back with the report's keys sorted, and sorting keys does not change whether a report passes |
| `LeaseFormat.OversizedLeaseLeaks` | tools/remote_host_preflight.py:242-296 | for every workspace path as long as the limit, a passing preflight is refused as a lease and the descriptor stays open |
| `AgentJournal.JournalKeeps` | src/loveengine_witness/agent_session.py:103-172 | over all calls a task id's content never changes and (issuer, nonce) to task id stays one-to-one |
| `AgentJournal.ReplayRefused` | src/loveengine_witness/agent_session.py:103-156 | once a task was accepted, no task with its id and other content, and none with its issuer and nonce and another id, is ever accepted |
| `AgentJournal.MemoryJournal.ClaimTask` | src/loveengine_witness/agent_session.py:107-124 | the dictionaries answer and change as the map they refine |
| `AgentJournal.SqliteJournal.ClaimTask` | src/loveengine_witness/agent_session.py:125-156 | the table answers and changes as the map it refines |
| `AgentJournal.SqliteJournal.SaveReceipt` | src/loveengine_witness/agent_session.py:158-172 | exactly the task's receipt changes, or the save fails for an unknown task |
| `AgentJournal.SqliteJournal.ConfirmStoredReceipt` | src/loveengine_witness/agent_session.py:183-221 | a receipt is confirmed exactly when its text is the stored one |
| `AgentJournal.InLockstep` | src/loveengine_witness/agent_session.py:66-221 | both journals give the same answers on every sequence of calls, those of the map they refine |
| `ReceiptText.TextDecides` | src/loveengine_witness/agent_session.py:90-97 | the stored text decides a receipt's task id and status, and a receipt read back has the same text |
| `ReceiptText.ResentFrame` | src/loveengine_witness/agent_session.py:560-561 | a resent receipt is the same value, but its frame is byte-identical to the first if and only if its keys were sorted from the start |
| `ReceiptText.BuiltFields` | src/loveengine_witness/m4_network.py:249-272 | every receipt of the signer carries the task id and the status it was given |
| `ReceiptText.UnsortedFrame` | src/loveengine_witness/m4_network.py:260-272 | every receipt of the signer, whatever its fields hold, has its keys out of order: loaded from the journal and resent it is the same value in another frame |
| `AgentSession.RecordReceipt` | src/loveengine_witness/agent_session.py:391-407 | a receipt for a new task is added and counted, the same one again is ignored, a different one for the same task is a conflict |
| `AgentSession.Agent.MakeReceipt` | src/loveengine_witness/agent_session.py:560-619 | a stored receipt is resent as stored, without running the operation; otherwise the operation runs and its receipt is for that task |
| `AgentSession.Agent.SaveAndSend` | src/loveengine_witness/agent_session.py:620-621 | the receipt is stored before it is sent; a process that dies in between sends nothing, and a connection that breaks under the send leads to a reconnect with the receipt stored |
| `AgentSession.Agent.TakeTask` | src/loveengine_witness/agent_session.py:546-663 | a task that is refused, unavailable or replayed ends the session and leaves no trace; when the session goes on, the task's receipt was sent and recorded |
| `AgentSession.Agent.Session` | src/loveengine_witness/agent_session.py:442-664 | against any relay and any crash: trace and journal stay faithful, the receipts are for distinct tasks and stored, and the count of rejections is exact for the session |
| `AgentSession.Agent.RunAgent` | src/loveengine_witness/agent_session.py:697-742 | at most reconnects + 1 connections; on return enough receipts, pairwise for different tasks and all stored; the reported number is that of the rejections since the last connection began, and right if and only if no earlier connection had recorded one |
| `AgentSession.LostRejection` | src/loveengine_witness/agent_session.py:697-742 | it goes wrong: a relay that states one stored rejection, breaks off and then states none gets a report of no rejection beside that very receipt |
| `AgentSession.Agent.Lives` | src/loveengine_witness/agent_session.py:667-742 | over any number of process lives on one journal, no operation runs again once its receipt is stored, nothing is sent that was not stored first, and all receipts sent for a task are one text, the one in the journal |
| `AgentSession.JsonCodecLawful` | src/loveengine_witness/agent_session.py:90-97 | the JSON codec satisfies the laws the session relies on |
| `AgentSession.SignerCodecLawful` | src/loveengine_witness/agent_session.py:374-388 | so it does with the signer's receipts, as soon as the task id and the status of the review go into them |
| `AuditLog.VerifyAuditLog` | src/loveengine_witness/pilot_audit.py:49-71 | a log is accepted exactly when every line names the head before it and carries its own hash; the head and count are returned, an error names the first bad line |
| `AuditLog.HeadDeterminesRecords` | src/loveengine_witness/pilot_audit.py:49-71 | the head returned determines every record and how many there are, or the two files exhibit a SHA-256 collision |
| `AuditLog.WrittenLineOk` | src/loveengine_witness/pilot_audit.py:26-45 | a written line follows the head exactly when the details do not replace the link |
| `AuditLog.HashNameBreaks` | src/loveengine_witness/pilot_audit.py:37-45 | a detail called record_hash makes a line that can be accepted only if two different texts collide under SHA-256 |
| `AuditLog.AuditFile.Write` | src/loveengine_witness/pilot_audit.py:26-45 | one line is appended, and the file goes on verifying if and only if the details leave the link alone or repeat it |
| `AuditLog.RunLog` | src/loveengine_witness/pilot_audit.py:16-46 | every run of writes with reopenings verifies, line i records entry i linked to the head of the lines before it, and the head returned is that of the file |
| `SourceText.NormalizeIdempotent` | src/loveengine_witness/hashes.py:31-44 | normalising is idempotent and changes nothing exactly when there is no CR |
| `SourceText.CheckoutsAgree` | src/loveengine_witness/hashes.py:31-44 | LF, CRLF and CR checkouts of one text normalise to the same bytes |
| `SourceText.CheckoutNormalizes` | src/loveengine_witness/package.py:424-427 | mixed endings normalise to the LF checkout as long as no CR is directly followed by the LF of an empty line |
| `SourceText.CheckoutNormalizesIff` | src/loveengine_witness/package.py:424-427 | mixed endings normalise to the LF checkout if and only if no CR is directly followed by the LF of an empty line |
| `Package.ValidateChecksumMap` | src/loveengine_witness/package.py:393-421 | a well-formed checksum map is accepted exactly when its keys are all files but itself |
| `Package.ReadVerifiedArchive` | src/loveengine_witness/package.py:534-622 | an archive is accepted exactly when its entries are plain and distinct, its files sealed and its bytes the one encoding of them |
| `Package.SeenIff` | src/loveengine_witness/package.py:785-825 | the walk sees a file exactly when no directory above it is ignored |
| `Package.SealedSkips` | src/loveengine_witness/package.py:785-835 | of a sealed set, the files the walk sees are sealed if and only if it sees them all |
| `Package.SelfCheck` | src/loveengine_witness/package.py:763-866 | an installed tree is accepted exactly when the files seen are sealed and hash to what is trusted |
| `Package.InstallPackage` | src/loveengine_witness/package.py:708-760 | installation succeeds if and only if the archive is genuine and trusted, the target free, no entry a directory of another and none where the self-check does not look; then the tree is the archive's under the same hash, otherwise the target is as before |
| `Package.ValidateTrustRequest` | src/loveengine_witness/package.py:647-664 | a request is accepted exactly when it names a hash in its format or waives trust, not both; each of the two other cases has its own error |
| `Package.VerifyPackage` | src/loveengine_witness/package.py:667-699 | verification succeeds if and only if the request is one, the archive is genuine and its hash is the one trusted |
| `Package.HiddenEntryRefused` | src/loveengine_witness/package.py:708-825 | every genuine archive with a file the self-check does not see verifies, and its installation is refused and leaves nothing |
| `Package.HiddenEntryExists` | src/loveengine_witness/package.py:393-421 | such archives exist for any rules: any sealed files with one more safe name below .venv that checksums.json lists, if it still parses and the metadata and limits hold |
| `Package.InstallThenCheck` | src/loveengine_witness/package.py:708-866 | install, then check: the self-check of the installed tree, with whatever caches have appeared under ignored names, accepts it again under the hash of the archive |
| `Package.ChecksumsDetermineFiles` | src/loveengine_witness/package.py:828-835 | one checksums.json fits one set of files, or two files collide under SHA-256 |

## Left out

- ObservationProtocol.ReturnMeansReadable: schemas are checked on records, so only what a record can get wrong is
  modelled; the schema of the observation result itself, which is built from checked values, is left out.
- ObservationProtocol.NoFalseRejection: the limit on the session and evidence responses, `session_response_too_large`
  and `evidence_response_too_large` (MAX_JSON_RESPONSE_BYTES), is not modelled; these are limits like the others.
- ObservationProtocol.ObserversAgree: the stream is not paged, so a backlog over 1 MiB always ends in the size limit;
  the theorem is about observers that return.
- EventStream.StreamRoundTrip: JSON numbers with a fraction or exponent and escaped surrogate pairs are not part of
  the parser, because the gateway never prints them; `lower()` and whitespace are ASCII only.
- LiveStore.LiveMetadataStore.Create: compares sessions as records, where the code compares their JSON text; sequence
  numbers and revisions are numbers, so spellings such as "01" and revisions that are not numerals are not modelled.
- Aggregation.AggregateObservations: signatures are an oracle, and the sorted receipts and the hash of the observation
  set are not modelled.
- SnapshotRestore.Restore: takes the snapshot as verified by `VerifySystemSnapshot`, and assumes that `mkdtemp` picks
  no name on the way to a target or the snapshot, that no other process writes meanwhile, and that there are no
  symbolic links. When removing a container fails, the caller of the code sees that error instead of the outcome.
- SnapshotSeal.CreateSystemSnapshot: an SQLite backup is taken as a copy of the database's content; symbolic links and
  empty directories among the artifacts are not modelled.
- SnapshotFormat.SumsReadBack: the order in which the entries are written is left open, where the code sorts them.
- SnapshotRoundTrip.BackUpAndRestore: the files of a snapshot appear on the volume in one step; what a failing
  creation leaves there is left out.
- Guardian.WatchOwnedGroup: a scan of `/proc` is one atomic look, an empty group stays empty, and no member leaves its
  session.
- LockHandoff.LockExclusive: is about the workload of a launch. A supervisor whose guardian was stopped on the
  failed-start path may still be alive for a moment after the lock is free; it starts nothing any more. The lock file
  is assumed to stay in place, and children of the supervisor not to inherit the descriptor.
- AgentSession.Agent.Lives: one session at a time on a durable journal. A crash between claim and save may run an
  operation twice, which the model allows; a task message without a task, and other shapes that raise a Python error,
  end the process.
- ReceiptText.ResentFrame: compares printed values; escaping of non-ASCII characters in frames is not modelled.
- AuditLog.VerifyAuditLog: works on the lines of the file; a line torn by a crash in the middle of a write is an
  invalid line.
- AuditLog.RunLog: requires details without the names `record_hash` and `previous_record_hash`;
  `AuditLog.AuditFile.Write` and `AuditLog.HashNameBreaks` say what happens with them.
- Package.InstallPackage: file operations do not fail on their own; ZIP compression is one encoding function of the
  set of files, and the size limits, manifest and release checks are functions of it.
- PreflightLease.ConsumeLease: the JSON shape checks of the lease are part of decoding. In `LeaseFormat` the one
  floating-point threshold is carried as its text, and of a repeated key the first value counts, where Python keeps
  the last; the program itself writes no key twice.
- AgentSession.Agent.SaveAndSend: a receipt whose send is cut off counts as sent, since the relay may have it; the
  confirmations an agent sends in return are not modelled.
- Signatures, EIP-712, address checksums, JSON schemas other than those of live records, and the rejection of secret
  fields: outside the modelled modules, taken as oracles or as passing.
- The relay: any relay is allowed, so only safety is proved and nothing about progress of the handshake.
- Several processes on one live store: handlers are atomic because of the single event loop; `close_session` reads and
  writes in two connections.
- Disputes, reviews, transcripts, network and participant protocols: field comparisons over oracles.
- Command line, dashboards, localisation, configuration, contracts, remote-lab orchestration and release building:
  input, output and plumbing.
- Pruning of old snapshots: a filter by age in front of the verification that is modelled.
