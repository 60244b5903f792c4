# Finance research agent: verified model

This project models how the finance research agent prepares, ends, stores and replays one
premarket research run, and proves what that life cycle keeps under crashes, I/O errors,
retries and concurrent callers. It also models the release-evidence protocol, the packet
builder and several smaller algorithms of the same program.

`dafny verify dfyconfig.toml` verifies everything.

## The run life cycle

| module | models |
|---|---|
| `RunTypes` | contexts, checkpoints, packets, drafts, reports, bundles; canonical bytes are the values they decode to, SHA-256 is an injective constructor over them |
| `RunStore` | the repository of one market date as functions on its stored files, with a fault after any atomic write |
| `RunRepository` | the same repository as an object whose methods change those files step by step |
| `RunHistory` | every history of repository calls by any callers |
| `Publication` | what the validation service and the three publishers read, check and decide |
| `PublicationMachine` | any number of service calls whose loads, readings and writes interleave, fail or never happen |
| `FinalBundle`, `ClosedRuns`, `SettledRuns` | the one bundle a final checkpoint determines, and the invariant that makes it the only one |
| `PublicationService` | the services as methods over the repository object, and their place in the machine |
| `Replay` | read-only replay |
| `Preparation`, `PreparationService`, `PreparedEvidence` | the resumable preparation, as specification, as methods, and what all sequences of calls keep |
| `Undisturbed` | the happy path: every checkpoint of an undisturbed run is admitted, up to its publication |
| `Starting` | starting, allocating and creating a run that is already there |
| `Endings` | the ending all publishers share, from any directory whose final checkpoint is admitted |
| `Repairs` | validation with repair, and the synthesized and reduced endings after any recorded drafts |
| `Failures` | giving up: every cause, its code, and the operational ending |
| `Retries`, `RepeatedCalls`, `Interruptions` | a publisher's call stopped anywhere and made again |
| `Progress`, `Stops`, `Resumptions` | preparation taken up again: on its way, wherever it was stopped, and while giving up |
| `Boundaries` | where the guarantees end, as exact conditions and at reached inputs |

A fault is chosen by the environment for each call: a crash or an I/O error right after any of
its atomic writes. A service loads its run, and decides from a reading of the store that may be
later than that load; its writes then interleave with those of every other call.

Three results carry the rest. `RunHistory.OneReceiptPerRun` needs no assumption about callers:
the index alone makes a published identity immutable. `SettledRuns.OneBundlePerRun` follows the
services and shows that a run's final checkpoint fixes, through the digests it names, the only
bundle that can ever be published, finished by a retry, or kept in quarantine; a packet of FAIL
quality is excluded, and `Boundaries.EndingIsAmbiguousOnlyOnFail` shows that this is exactly
where the statement stops being true. `PreparedEvidence.EveryPublicationReplays` starts from an
empty date and ends with replays of whatever became visible.

That things do happen is said beside it. `Undisturbed.StartedRunIsPublished`,
`Repairs.RepairedRunEnds` and `Failures.EveryCauseIsReported` take a started run to each kind of
report, with the code or the reason it deserves. `RepeatedCalls.HoweverOftenStopped` and
`Stops.StoppedPreparationGoesOn` do so through stops at any write: what was begun is finished as
it would have been, except between the two writes of the freeze and between the rename and the
index of a publication, and those two places are stated.

## Where the code and its descriptions differ

* A freeze is not all-or-nothing: the cutoff file stays when its marker is refused, and the run
  can then never be frozen (`Boundaries.FreezeIsNotAllOrNothing`, `RefusedFreezeHappens`).
* A run stopped between the cutoff file and its marker cannot be prepared any further
  (`Stops.UnmarkedIsStuck`); it is the only such place (`Stops.WherePreparationStops`).
* A PUBLISHED checkpoint written at the cutoff instant can still be followed by a freeze marker
  of that instant (`RunHistory.AfterPublished`, `Boundaries.MarkerAfterPublishedHappens`).
* A quarantined id is handed out again, exactly when it is the one an invocation takes by what
  is staged and published (`Boundaries.QuarantinedIdIsReused`, `IdIsHandedOutTwice`), so
  statements about one run directory exclude its replacement, while statements about one run id
  do not.
* The last trimming stage replaces labels no longer than their identifiers too, and then
  discloses nothing when no byte was saved; `PacketBuilder.SilentChange` says exactly when, and
  `SilentChangeHappens` that it does.
* A partial batch stored for a workflow attempt keeps that source pending when the same attempt
  is later complete (`ReleaseEvidence.UndisturbedSessionIsRead`, `LateCompletionIsNotRead`).

## Other modules

| module | models |
|---|---|
| `ReleaseEvidence`, `ReleaseCollector` | marker, watermark and write-once batch, with every stop inside a rewrite |
| `PacketSize`, `PacketBuilder` | the self-describing byte count and the trimming stages |
| `DollarVolume` | exact decimal precision of the median dollar volume |
| `SkillBundle` | the length-framed stream behind a skill version, and its decoder |
| `HttpRetry` | the request loop: retries, redirects, deadline, `Retry-After` of section 10.2.3 of RFC 9110 |
| `DailyBars`, `EventMerge` | order-insensitive normalisation and merging |
| `PriorPlan` | the single-pass observation of a prior plan |
| `Watchlist` | compare-and-swap updates |
| `ClaimGraph` | the two walks over a brief's claims |
| `Ordering` | sorting by a text key, shared by the packet builder, the skill bundle, the median and the event merge |

## Model

| member | source | states |
|---|---|---|
| RunRepository.FileSystemRunRepository.CreateRun | src/finance_research_agent/adapters/filesystem.py:463-474 | creating a run makes or completes its staging directory, returns an identical existing one, and refuses another context or a published id, for every write at which it may stop |
| RunRepository.FileSystemRunRepository.AllocateRevision | src/finance_research_agent/adapters/filesystem.py:320-423 | a scheduled call resumes revision 1, a manual one resumes or takes exactly the next revision; what is staged and final decides, orphans do not |
| RunRepository.FileSystemRunRepository.Stage | src/finance_research_agent/adapters/filesystem.py:429-449 | staging is write-once: the same bytes are accepted again, other bytes refused, and the digest returned is that of the staged bytes |
| RunRepository.FileSystemRunRepository.AppendUnlocked | src/finance_research_agent/adapters/filesystem.py:630-886 | a checkpoint is appended exactly when the admission rule holds of the stored run, and otherwise nothing changes |
| RunRepository.FileSystemRunRepository.AppendIfCurrentCount | src/finance_research_agent/adapters/filesystem.py:617-628 | as appending, but only against the number of checkpoints the caller saw |
| RunRepository.FileSystemRunRepository.FreezeEvidence | src/finance_research_agent/adapters/filesystem.py:888-928 | the cutoff file is written before its marker checkpoint is admitted, and the outcome is that of the marker |
| RunRepository.FileSystemRunRepository.QuarantineOrphan | src/finance_research_agent/adapters/filesystem.py:991-998 | a final directory moves to diagnostics unless one is already there |
| RunRepository.FileSystemRunRepository.PublishAtomically | src/finance_research_agent/adapters/filesystem.py:1104-1237 | the five writes of a publication in order, with the quarantine of an error after the rename, for every crash and every I/O error |
| RunRepository.FileSystemRunRepository.RecoverInterruptedPublication | src/finance_research_agent/adapters/filesystem.py:1026-1102 | an orphan whose frozen pair, identity, final checkpoint and artifacts agree is restaged and published again; an existing receipt is returned |
| RunHistory.IdentityIsImmutable | src/finance_research_agent/adapters/filesystem.py:991-1237 | over every history of repository calls by any callers with any failures, staging and final never coexist, index entries are append-only and the latest pointer never decreases |
| RunHistory.OneReceiptPerRun | src/finance_research_agent/adapters/filesystem.py:1022-1264 | any two receipts ever returned or readable for one run id have the same digests and publication time, through quarantine, recovery and reuse of the id |
| RunHistory.PublishedContentIsImmutable | src/finance_research_agent/adapters/filesystem.py:1000-1020 | whatever a reader is given for one run id at any two times is the same report and bundle |
| RunHistory.FrozenChain | src/finance_research_agent/adapters/filesystem.py:630-886 | from the freeze on, every appended checkpoint carries the one cutoff, is not before its predecessor and names digests of bytes that stay staged; one packet digest is ever named; at most three draft/report pairs are recorded; a final checkpoint keeps its predecessor's business artifacts and adds only what its own path adds, and written after the cutoff is the last |
| RunHistory.HistoryIsLater | src/finance_research_agent/adapters/filesystem.py:630-928 | along every history a run directory only grows: context, cutoff, staged bytes and recorded checkpoints are never rewritten |
| RunHistory.AdmittedPublication | src/finance_research_agent/adapters/filesystem.py:529-602 | an admitted PUBLISHED checkpoint keeps a validated attempt unchanged, or adds the reduced reason to a synthesis stage that holds the fallback, or adds the operational reason to a FAIL stage before synthesis; without FAIL quality it is one of the first two, before the freeze only the last |
| RunHistory.AdmittedFollows | src/finance_research_agent/adapters/filesystem.py:675-886 | a checkpoint admitted after the freeze follows its predecessor as the course of a run allows: which stage after which, with which execution status and names, delivery unchanged, quality changed only where it is evaluated or preparation gives up |
| RunHistory.PacketEndsOnlyMissed | src/finance_research_agent/adapters/filesystem.py:547-602 | once a packet is frozen or staged, giving up is admitted for a missed window only, and only of that packet |
| RunHistory.AfterPublished | src/finance_research_agent/adapters/filesystem.py:662-673 | after a PUBLISHED checkpoint exactly the freeze markers of the cutoff instant are admitted, and only if that checkpoint is not later than the cutoff |
| RunHistory.LatestNeverGoesBack | src/finance_research_agent/adapters/filesystem.py:1266-1294 | the latest run a reader is given is visible with a receipt, and along every history never an earlier one |
| RunHistory.PublishedIsLatest | src/finance_research_agent/adapters/filesystem.py:1104-1237 | a publication that returns makes its run visible, and the latest run is then the greatest indexed one, or none while that one is not visible |
| RunHistory.AtMostThreePairs | src/finance_research_agent/adapters/filesystem.py:848-857 | no stretch of admitted checkpoints holds more than three draft/report pairs |
| Boundaries.FreezeIsNotAllOrNothing | src/finance_research_agent/adapters/filesystem.py:893-928 | the cutoff is recorded whether or not its marker is admitted; the call succeeds exactly when no checkpoint is later than the cutoff, and no later freeze succeeds |
| Boundaries.RefusedFreezeHappens | src/finance_research_agent/adapters/filesystem.py:893-928 | a reachable run, for every seed, whose freeze at its invocation is recorded but refused |
| Boundaries.MarkerAfterPublishedHappens | src/finance_research_agent/adapters/filesystem.py:662-673 | a reachable run, for every seed, that ended before its freeze and is then frozen: PUBLISHED is not its last checkpoint |
| Boundaries.RecoveryCompletes | src/finance_research_agent/adapters/filesystem.py:1026-1102 | recovery after an I/O error at any write past the rename ends in exactly the store and receipt of a publication that had not failed |
| Boundaries.RecoveryAnswers | src/finance_research_agent/adapters/filesystem.py:1026-1102 | undisturbed recovery succeeds exactly if the publication is visible already, or its orphan is intact and nothing else is indexed under its id; a visible one is returned with nothing written, an unrecoverable one left alone |
| Boundaries.QuarantinedIdIsReused | src/finance_research_agent/adapters/filesystem.py:320-423 | a quarantined id is handed out again, to a run that starts from nothing, if and only if it is the one the invocation takes by what is staged and published: 1 for a scheduled call, one above everything for a fresh manual call, and that very id for a requested one |
| Boundaries.FailedPublicationFreesItsId | src/finance_research_agent/adapters/filesystem.py:991-998 | after a publication that failed past its rename the id is handed out again if and only if it was the greatest id of the date with its predecessor present, or the scheduled id 1 |
| Boundaries.IdIsHandedOutTwice | src/finance_research_agent/adapters/filesystem.py:336-423 | a scheduled run that is started, prepared and fails to be published past its rename leaves its id to the next scheduled call, which starts another run under it |
| Boundaries.ReusedIdKeepsItsContent | src/finance_research_agent/adapters/filesystem.py:1160-1237 | a run under a reused id can be published only with the digests already indexed |
| Boundaries.EndingIsAmbiguousOnlyOnFail | src/finance_research_agent/application/publication_service.py:255-349 | there is a run reachable by repository calls whose operational final checkpoint the validated publisher would finish as synthesized if and only if the packet's quality is FAIL |
| PublicationService.BindTelemetry | src/finance_research_agent/application/performance_telemetry.py:143-164 | telemetry is staged under its own digest and replaces any snapshot the checkpoint named |
| PublicationService.ValidateStagedBrief | src/finance_research_agent/application/publication_service.py:167-252 | the call records one attempt, repeats the recorded answer for the same draft, or refuses, and its writes are those of that decision in order; `LateServiceIsPlayed` says what holds when other calls go on between its two loads |
| PublicationService.RecordStep | src/finance_research_agent/application/publication_service.py:218-250 | draft, report and telemetry are staged before the checkpoint that names them |
| PublicationService.PublishValidatedBrief | src/finance_research_agent/application/publication_service.py:255-349 | only the latest recorded attempt is published, if it is valid, by a new or an existing final checkpoint |
| PublicationService.PublishReducedReport | src/finance_research_agent/application/publication_service.py:352-486 | only the frozen fallback is published, with a reason that fits the recorded attempts |
| PublicationService.CollectReports | src/finance_research_agent/application/publication_service.py:402-412 | the reports are those of the recorded attempts in order, or none when one is not what its draft deserves |
| PublicationService.PublishOperationalReport | src/finance_research_agent/application/publication_service.py:489-627 | a closed failure code ends a FAIL run before synthesis, or one that missed its window |
| PublicationService.CloseRun | src/finance_research_agent/application/publication_service.py:420-486 | the shared ending appends the final checkpoint, or reuses the one an interrupted call left, and then publishes |
| PublicationService.ServiceIsPlayed | src/finance_research_agent/application/publication_service.py:167-627 | a service call with any failures of its repository calls is one play of the interleaving machine and reports success only when that play does |
| PublicationService.LateServiceIsPlayed | src/finance_research_agent/application/publication_service.py:116-139 | the same when other calls, failures and recoveries go on between the load of the run and the readings that follow it |
| PublicationService.ServicesEndOnce | src/finance_research_agent/application/publication_service.py:255-627 | over every sequence of service calls with any failures one run is reported ended in at most one way |
| PublicationMachine.OneKindSucceeds | src/finance_research_agent/application/publication_service.py:255-627 | over every interleaving, retry, crash and recovery from any store, all successes of one run have one kind and one receipt |
| FinalBundle.ReportsFrozen | src/finance_research_agent/application/publication_service.py:402-412 | the reports a reduced publication reads are the ones its checkpoints froze by digest |
| ClosedRuns.SynthesizedPlanCloses | src/finance_research_agent/application/publication_service.py:303-346 | a validated publication that appends a final checkpoint publishes the bundle that checkpoint determines |
| ClosedRuns.SynthesizedPlanFinishes | src/finance_research_agent/application/publication_service.py:323-346 | a validated publication that finds its final checkpoint publishes the bundle it determines |
| ClosedRuns.ReducedPlanCloses | src/finance_research_agent/application/publication_service.py:436-486 | a reduced publication that appends a final checkpoint publishes the bundle that checkpoint determines |
| ClosedRuns.ReducedPlanFinishes | src/finance_research_agent/application/publication_service.py:420-435 | a reduced publication that finds its final checkpoint publishes the bundle it determines |
| ClosedRuns.OperationalPlanCloses | src/finance_research_agent/application/publication_service.py:585-627 | an operational publication that appends a final checkpoint publishes the bundle that checkpoint determines |
| ClosedRuns.OperationalPlanFinishes | src/finance_research_agent/application/publication_service.py:568-584 | an operational publication that finds its final checkpoint publishes the bundle it determines |
| SettledRuns.NothingFollowsTheEnd | src/finance_research_agent/adapters/filesystem.py:630-886 | no pending call of a run that ended can still append its checkpoint |
| SettledRuns.MoveKeepsSound | src/finance_research_agent/application/publication_service.py:167-627 | every single step of any call, however old its load, and every failure or recovery keeps each run closed in at most one way with one bundle |
| SettledRuns.LateKeepsSound | src/finance_research_agent/application/publication_service.py:116-139 | beginning a call whose load of the run is older than its readings keeps the invariant of all runs and pending calls |
| SettledRuns.EarlierLoadIsOlder | src/finance_research_agent/adapters/filesystem.py:604-610 | along every play the checkpoints a call loaded stay a prefix of the run's, and all of them once the run ended |
| SettledRuns.TheEndIsFinal | src/finance_research_agent/application/publication_service.py:255-627 | once a run whose packet is not FAIL has its final checkpoint, its checkpoints and the bundle they determine never change |
| SettledRuns.OneBundlePerRun | src/finance_research_agent/application/publication_service.py:305-349 | every bundle about to be published, published or quarantined for a run is the one its final checkpoint determines, and a retry, however old its load, decides on the very same bundle |
| SettledRuns.EndingIsEarned | src/finance_research_agent/application/publication_service.py:397-418 | a synthesized ending has a valid latest attempt, a reduced one never follows a valid attempt and is exhausted exactly after three failures, an operational one ends a FAIL run |
| Replay.ClosedReplays | src/finance_research_agent/application/replay_service.py:105-176 | the bundle of every closed run reconstructs to exactly its own markdown, with intact telemetry |
| Replay.PublishedRunsReplay | src/finance_research_agent/application/replay_service.py:198-253 | in every world the services reach, replaying a visible publication returns the stored report, names exactly the drifted components and skips reconstruction only on drift |
| Replay.DriftNames | src/finance_research_agent/application/replay_service.py:77-98 | the named components are exactly those whose versions differ |
| Replay.AcceptedReplayIsFaithful | src/finance_research_agent/application/replay_service.py:198-253 | in any store an accepted replay without drift shows the rendering of the frozen inputs under the indexed digests |
| Replay.ChangedFilesAreNotReplayed | src/finance_research_agent/application/replay_service.py:204-220 | replacing the published files by anything else makes the run unfindable; it never changes what is replayed |
| Replay.ReplayIsStable | src/finance_research_agent/application/replay_service.py:198-253 | over every later history a replay that still finds the run answers the same |
| PreparationService.FreezePriorResearch | src/finance_research_agent/application/prior_research.py:82-169 | prior research is selected once before collection, or restored from its bound bytes |
| PreparationService.CollectAndFreezeMarketData | src/finance_research_agent/application/collection_service.py:165-273 | the bound, else the staged, else the provided collection is checkpointed and then frozen at its completion |
| PreparationService.CheckpointMarketDataQuality | src/finance_research_agent/application/quality_pipeline.py:67-123 | the staged, else a new quality result is bound beside the frozen collection, or the existing checkpoint must record exactly it |
| PreparationService.StageResearchPacket | src/finance_research_agent/application/preparation_service.py:29-133 | packet and fallback are staged before their checkpoint, and an existing checkpoint must name both |
| PreparationService.RecordFailure | src/finance_research_agent/application/premarket_preparation.py:292-312 | giving up on a run that is not FAIL stages the reason and appends a failure checkpoint |
| PreparationService.EndOperationally | src/finance_research_agent/application/premarket_preparation.py:283-323 | the failure checkpoint, if needed, is followed by the operational publication |
| PreparationService.PrepareResearchPacket | src/finance_research_agent/application/premarket_preparation.py:374-680 | one call resumes from any prefix of the phases, with its own answers and failures; from a sound date it keeps every invariant and hands off only the staged packet |
| PreparedEvidence.CollectStaysOpen | src/finance_research_agent/application/collection_service.py:192-273 | collection never loses staged bytes, and freezes only at the completion time of the staged collection |
| PreparedEvidence.QualityStaysOpen | src/finance_research_agent/application/quality_checkpoint.py:39-151 | the quality phase never loses staged bytes and leaves the cutoff as it is |
| PreparedEvidence.QualityLeavesStatus | src/finance_research_agent/application/quality_checkpoint.py:95-151 | a quality phase that returns leaves its status on the newest checkpoint |
| PreparedEvidence.StagedPacketIsCoherent | src/finance_research_agent/application/premarket_preparation.py:227-249 | a staged packet passes every check of the hand-off and is the staged one |
| PreparedEvidence.PrepareOutcome | src/finance_research_agent/application/premarket_preparation.py:340-680 | one call with any answers and failures keeps every invariant of runs and evidence and hands off only the staged packet, coherently |
| PreparedEvidence.EvidenceIsFixed | src/finance_research_agent/application/premarket_preparation.py:448-463 | over every sequence of calls every staged artifact, collection, quality and packet included, keeps its first bytes, and the cutoff is the stored collection's completion time |
| PreparedEvidence.HandoffsAgree | src/finance_research_agent/application/premarket_preparation.py:178-249 | any two hand-offs of a run carry the same packet and pass the hand-off's own checks |
| PreparedEvidence.StagedEvidenceIgnoresProviders | src/finance_research_agent/application/collection_service.py:192-228 | once its artifact is staged a phase no longer depends on what the providers answer |
| PreparedEvidence.PublishedRunIsReturned | src/finance_research_agent/application/premarket_preparation.py:252-280 | a published run is handed back with its verified receipt and nothing is written |
| PreparedEvidence.EveryPublicationReplays | src/finance_research_agent/application/replay_service.py:198-253 | from an empty date, or runs just started, through every sequence of starting, preparation, validation, publication and recovery, every visible publication replays to exactly the stored report |
| PreparedEvidence.StartingKeepsFresh | src/finance_research_agent/application/run_service.py:86-183 | starting a run by any invocation adds at most one run, just started wherever it stops, and undisturbed with a free id exactly its first checkpoint |
| PreparedEvidence.StartPersists | src/finance_research_agent/application/run_service.py:140-183 | starting a run beside any others keeps every invariant and changes nothing of the other runs |
| Undisturbed.PreparationHandsOff | src/finance_research_agent/application/premarket_preparation.py:520-665 | an undisturbed call on a started run stages exactly what it was given, has every checkpoint admitted and hands off that packet |
| Undisturbed.FallbackIsPublished | src/finance_research_agent/application/publication_service.py:352-486 | after it the fallback is published, with the receipt and the report readers are then given |
| Undisturbed.StartedRunIsPublished | src/finance_research_agent/application/publication_service.py:352-486 | a start, a preparation and one publication give readers exactly the fallback report of the prepared packet |
| Repairs.DraftIsPublished | src/finance_research_agent/application/publication_service.py:167-349 | after an undisturbed preparation a draft that is valid at once is recorded, and its report is published as synthesized and given to readers |
| Repairs.NextDraftIsRecorded | src/finance_research_agent/application/publication_service.py:203-250 | after n < 3 drafts of which the last is invalid, a draft other than the last is recorded with the report the engine gives it for attempt n + 1 |
| Repairs.SameDraftIsAnswered | src/finance_research_agent/application/publication_service.py:206-207 | submitting the last recorded draft again returns its recorded report and writes nothing, at any time past the cutoff and whatever fails |
| Repairs.NoFurtherDraft | src/finance_research_agent/application/publication_service.py:208-217 | once the last draft is valid or was the third, another one is refused and nothing is written |
| Repairs.ValidDraftIsPublished | src/finance_research_agent/application/publication_service.py:305-349 | the brief of a valid last draft, whichever attempt it was, is what readers get |
| Repairs.FallbackIsDelivered | src/finance_research_agent/application/publication_service.py:397-486 | the fallback is published with every recorded report, exactly for the reason that fits: exhausted after three invalid drafts, unavailable or out of time after fewer, none after a valid one; refused otherwise with nothing written |
| Repairs.RepairedRunEnds | src/finance_research_agent/application/publication_service.py:167-486 | from an undisturbed hand-off, after any drafts submitted in order, what the validator answers to one more draft and what each publisher gives, case by case and exactly |
| Repairs.ThreeFailuresExhaust | src/finance_research_agent/application/publication_service.py:203-250 | after three invalid drafts a further different one is refused, and the fallback is published as exhausted with its three reports |
| Failures.FailureIsPublished | src/finance_research_agent/application/premarket_preparation.py:283-323 | an undisturbed preparation that finds FAIL quality publishes the operational report of its first reason and hands it off with that quality |
| Failures.EveryCauseIsReported | src/finance_research_agent/application/premarket_preparation.py:520-680 | from a started run, undisturbed, whatever phase gives up and however - a deadline, a provider out of time, a raised code - the operational report readers get and the hand-off carry exactly that code; any other failure is returned and the run stays as it was |
| Failures.WindowIsReported | src/finance_research_agent/application/premarket_preparation.py:378-452 | a run whose calendar is down, whose window asks for a missed report, or which missed it at its start ends with the code that says so, before anything is prepared and with a packet only for a missed window |
| Failures.CourseWindowIsReported | src/finance_research_agent/application/premarket_preparation.py:378-446 | in particular a just started run, and one interrupted after any phase, ends so with its own code and hand-off |
| Failures.RecordedMissIsNotRun | src/finance_research_agent/application/premarket_preparation.py:399-412 | past the close the missed window is recorded elsewhere and the run stays as it is |
| Failures.GivesUp | src/finance_research_agent/adapters/filesystem.py:529-602 | the failure checkpoint is admitted for every run that may fail with this code, and the operational report follows it with its receipt |
| RepeatedCalls.SameCallAgain | src/finance_research_agent/application/publication_service.py:303-349 | a publisher stopped anywhere and made again returns exactly if the run is still staged or its publication visible; readers then get the very markdown and bundle of the undisturbed call. Once the final checkpoint is in place this holds at any later time and with any telemetry |
| RepeatedCalls.HoweverOftenStopped | src/finance_research_agent/application/publication_service.py:420-486 | the same after any number of stops, for each of the three publishers |
| RepeatedCalls.PublishedIsAnswered | src/finance_research_agent/application/publication_service.py:266-302 | once a publisher returned, every repetition returns the same receipt and writes nothing, at any time, with any telemetry and whatever fails |
| Retries.DecisionFinishes | src/finance_research_agent/application/publication_service.py:568-627 | a repetition that finds the final checkpoint of the first call finishes with the bundle that call had decided on |
| Retries.DecisionStays | src/finance_research_agent/application/publication_service.py:420-486 | a repetition decides as the first call did while nothing that call reads has changed |
| Interruptions.EndingsDespiteStops | src/finance_research_agent/application/publication_service.py:255-486 | from an undisturbed hand-off and any drafts, however often a publisher is stopped, the brief of a valid last draft, or the fallback for the fitting reason, is what its next undisturbed call gives readers |
| Interruptions.ReportDespiteStops | src/finance_research_agent/application/publication_service.py:489-627 | the same for the operational report of a run that is FAIL before synthesis |
| Resumptions.GivingUpIsResumed | src/finance_research_agent/application/premarket_preparation.py:464-497 | a preparation stopped anywhere while giving up, after it staged its reason, is ended by the next call within the window with the report of that code, and with the staged quality exactly if that explains it |
| Resumptions.StoppedCauseIsReported | src/finance_research_agent/application/premarket_preparation.py:464-680 | the two calls of a started run: the first gives up in some phase and stops, the second publishes the report of that code |
| Resumptions.StoppedFailureIsReported | src/finance_research_agent/application/premarket_preparation.py:464-497 | the same of FAIL quality: its first reason is reported and handed off with that quality |
| Progress.PreparationResumes | src/finance_research_agent/application/premarket_preparation.py:453-665 | from every directory on the way to the packet an undisturbed call hands off the packet built from what was staged and, for the rest, from what the providers answer now |
| Progress.PackingResumes | src/finance_research_agent/application/premarket_preparation.py:448-463 | a call stopped while it staged its packet is completed by the next one, with that packet and no other |
| Progress.HandedOffIsReturned | src/finance_research_agent/application/premarket_preparation.py:448-463 | a packet that was handed off is handed off again, and nothing is written |
| Progress.PriorIsRestored | src/finance_research_agent/application/prior_research.py:82-169 | a bound selection is restored, whatever is chosen now, and nothing is written |
| Progress.CollectionIsFrozen | src/finance_research_agent/application/collection_service.py:165-273 | a staged or bound collection is frozen as it is; a fresh one is staged first |
| Progress.FrozenIsGivenBack | src/finance_research_agent/application/collection_service.py:140-162 | a frozen collection is given back whatever the provider would answer, and nothing is written |
| Progress.QualityIsJudged | src/finance_research_agent/application/quality_pipeline.py:67-123 | staged quality is checkpointed as it is, a new one is staged first; every such checkpoint is admitted |
| Progress.JudgedIsGivenBack | src/finance_research_agent/application/quality_checkpoint.py:95-116 | recorded quality is given back whatever evaluating again would answer, and nothing is written |
| Stops.WherePreparationStops | src/finance_research_agent/application/premarket_preparation.py:520-665 | wherever a call stops, at any write and in any way, it leaves the run on the way to the same packet, or packing it, or handed over, or between the two writes of the freeze |
| Stops.StoppedPreparationGoesOn | src/finance_research_agent/application/premarket_preparation.py:374-665 | a call that stopped anywhere but there is followed by one that hands off the very packet the first was preparing |
| Stops.UnmarkedIsStuck | src/finance_research_agent/application/quality_checkpoint.py:117-118 | a run stopped between the two writes of its freeze is refused by every later call that is in time |
| Starting.LoadedRun | src/finance_research_agent/adapters/filesystem.py:476-505 | what is loaded of a readable run is its context with the frozen cutoff, its checkpoints, and whether it is published |
| Starting.ScheduledCallReturnsRun | src/finance_research_agent/application/run_service.py:98-130 | a scheduled start or allocation returns the first run of its date, staged or published, and writes nothing |
| Starting.RequestReturnsUnpublished | src/finance_research_agent/adapters/filesystem.py:360-389 | a manual request for a run returns it exactly when it is not published, and writes nothing either way |
| Starting.UnreadableIsRefused | src/finance_research_agent/adapters/filesystem.py:376-389 | an id whose directory has no readable context is refused by every call that names it |
| Starting.CreatedOnce | src/finance_research_agent/adapters/filesystem.py:463-474 | creating a run again accepts the same context, refuses another or a published id, and completes a directory that has no context |
| ReleaseEvidence.StaleBatchIsNeverRead | src/finance_research_agent/adapters/shadow_evidence.py:138-182 | once a collection made its marker or PENDING watermark durable, a reader is given nothing or the batch of that or a later collection of the same source, for every stop at any file effect |
| ReleaseEvidence.OthersUnchanged | src/finance_research_agent/adapters/shadow_evidence.py:350-373 | a collection leaves the watermarks, batches and markers of other sources unchanged |
| ReleaseEvidence.TornLockReadsNothing | src/finance_research_agent/adapters/shadow_evidence.py:318-332 | after a torn rewrite of the lock file no batch is read again |
| ReleaseEvidence.UndisturbedSessionIsRead | scripts/collect_release_evidence.py:704-763 | an undisturbed collection is what a reader is then given if and only if it has a result and no other batch is stored under its key; otherwise nothing is, and the source stays pending exactly when another batch is |
| ReleaseEvidence.WatermarkSays | scripts/collect_release_evidence.py:704-763 | the watermark an undisturbed collection leaves is FAIL exactly for a failed check, PASS exactly for a complete run without one, PENDING otherwise, and while another batch blocks it |
| ReleaseEvidence.ConflictingBatchStaysPending | scripts/collect_release_evidence.py:570-608 | a different batch under the same run leaves the source pending and the stored batch as it was, whatever fails once the marker is durable |
| ReleaseEvidence.LateCompletionIsNotRead | scripts/collect_release_evidence.py:570-608 | a history without failures in which an attempt is collected while partial and again when complete, and the complete collection is not read |
| ReleaseCollector.EvidenceDirectory.UpdatePendingSource | src/finance_research_agent/adapters/shadow_evidence.py:350-373 | the lock file is truncated before it is rewritten, and an unreadable one is never rewritten |
| ReleaseCollector.EvidenceDirectory.StoreWatermark | scripts/collect_release_evidence.py:638-691 | the watermark is removed, then replaced; a PENDING one that cannot be removed is rewritten in place |
| ReleaseCollector.EvidenceDirectory.RewriteWatermark | scripts/collect_release_evidence.py:611-635 | an existing watermark is truncated and rewritten, and may stay torn |
| ReleaseCollector.EvidenceDirectory.StoreReceipts | scripts/collect_release_evidence.py:570-608 | a batch is written once, and an identical one is accepted |
| ReleaseCollector.EvidenceDirectory.CollectEvidence | scripts/collect_release_evidence.py:704-763 | the whole collection under the lock, step by step, for every stop |
| PacketSize.Resize | src/finance_research_agent/application/packet_service.py:92-107 | the loop ends after at most three re-sizings at the least count that equals the length of the text containing it |
| PacketSize.ThreeResizingsSuffice | src/finance_research_agent/application/packet_service.py:92-107 | three re-sizings suffice for every content |
| PacketSize.CountIsNotUnique | src/finance_research_agent/application/packet_service.py:92-107 | some contents have two counts that count themselves, so the least is a real choice |
| PacketBuilder.RemoveDuplicateExcerpts | src/finance_research_agent/application/packet_service.py:171-182 | exactly the discovery excerpts an earlier item carries are dropped, and their bytes are counted |
| PacketBuilder.RemoveDiscoveryExcerpts | src/finance_research_agent/application/packet_service.py:203-212 | exactly the remaining discovery excerpts are dropped, and their bytes are counted |
| PacketBuilder.ReplaceLabels | src/finance_research_agent/application/packet_service.py:232-241 | every label becomes its identifier, and the bytes saved are counted |
| PacketBuilder.BuildResearchPacket | src/finance_research_agent/application/packet_service.py:115-260 | the packet is the first stage of trimming that fits, or the budget is exceeded |
| PacketBuilder.BuiltPacketIsAccepted | src/finance_research_agent/domain/packets.py:102-139 | a built packet meets the identity, byte-count and budget equations, changes only discovery excerpts and labels, and is the first stage of trimming that fits; the budget is exceeded exactly when none fits |
| PacketBuilder.SilentChange | src/finance_research_agent/application/packet_service.py:232-241 | a packet is changed with nothing disclosed if and only if nothing can be dropped, no label is longer than its identifier, some label differs from it, and replacing the labels is what makes the text fit |
| PacketBuilder.SilentChangeHappens | src/finance_research_agent/application/packet_service.py:232-241 | an item and a limit for which that happens: a label whose ASCII escape is longer than its UTF-8 bytes |
| PacketBuilder.ExcerptsAreAccountedFor | src/finance_research_agent/application/packet_service.py:171-212 | excerpt bytes are conserved: the evidence given is what is retained plus the two disclosed counts |
| PacketBuilder.EveryTextSurvivesDuplicates | src/finance_research_agent/application/packet_service.py:171-182 | the duplicate stage keeps an earlier whole item with every excerpt text |
| PacketBuilder.EvidenceOrderDoesNotMatter | src/finance_research_agent/application/packet_service.py:136-138 | the result does not depend on the order of the evidence argument |
| DollarVolume.ProductsAreExact | src/finance_research_agent/domain/eligibility.py:32-41 | the multiplication precision holds every product without rounding |
| DollarVolume.AverageIsExact | src/finance_research_agent/domain/eligibility.py:45-56 | the average precision holds the sum of the two middle values and its half without rounding |
| DollarVolume.MedianDollarVolume | src/finance_research_agent/domain/eligibility.py:28-56 | the result is the exact median of the exact dollar volumes, for every history length, below the cap on precision |
| SkillBundle.DecodeStream | src/finance_research_agent/application/skill_bundle.py:51-58 | decoding the framed stream gives back the files in order |
| SkillBundle.VersionNamesTheBundle | src/finance_research_agent/application/skill_bundle.py:36-59 | two valid bundles have the same version exactly when they hold the same files, in any order |
| SkillBundle.ComputeSkillVersion | src/finance_research_agent/application/skill_bundle.py:36-59 | a version is returned exactly for unique safe paths that include the skill and have lengths under 2^64 |
| HttpRetry.Request | src/finance_research_agent/adapters/http_client.py:628-704 | the loop does what its specification says for every sequence of answers, clock readings and jitters |
| HttpRetry.RequestTells | src/finance_research_agent/adapters/http_client.py:628-704 | what the caller is told, from the answers alone: a response exactly for an accepted final status in time, the transport error exactly after one on the last attempt, a rejection exactly for a sixth or disallowed redirect or an unaccepted answer; every earlier answer is an allowed redirect, a retryable status or a transport error, and each sleep is the one its answer asks for |
| HttpRetry.RequestIsBounded | src/finance_research_agent/adapters/http_client.py:628-704 | at most max attempts + 5 sends, no sleep that ends at or after the deadline, no delay above a minute plus jitter, and the attempts reported are the sends less the redirects |
| HttpRetry.HeaderIsBounded | src/finance_research_agent/adapters/http_client.py:721-736 | a Retry-After delay is between zero and a minute, without jitter |
| DailyBars.NormaliseSymbol | src/finance_research_agent/adapters/alpaca.py:341-471 | the outcome of a symbol is the one its set of observations deserves |
| DailyBars.NormaliseAll | src/finance_research_agent/adapters/alpaca.py:320-473 | exactly one outcome per requested symbol comes back, in request order, and unrequested symbols are refused |
| DailyBars.RecordOrderDoesNotMatter | src/finance_research_agent/adapters/alpaca.py:371-402 | permuting the records of a symbol never changes its outcome |
| DailyBars.ReasonsAreEarned | src/finance_research_agent/adapters/alpaca.py:341-471 | the reason of an outcome is the one its records earn, told without their order: no data, a malformed record, a conflict, or what clean records show of the expected sessions |
| DailyBars.SuccessIsComplete | src/finance_research_agent/adapters/alpaca.py:404-460 | success holds only when the deduplicated sessions are the expected ones in increasing order |
| EventMerge.GroupByKey | src/finance_research_agent/adapters/events.py:74-85 | the groups are the records of each type, subject and time |
| EventMerge.MergeRecords | src/finance_research_agent/adapters/events.py:89-129 | one group becomes the event with its least identifier, its highest materiality and all its evidence |
| EventMerge.MergeEvents | src/finance_research_agent/adapters/events.py:72-129 | one event for each type, subject and time comes back |
| EventMerge.ProviderOrderDoesNotMatter | src/finance_research_agent/adapters/events.py:43-129 | permuting the providers does not change the set of merged events |
| EventMerge.NothingIsLost | src/finance_research_agent/adapters/events.py:94-113 | the supporting identifiers of the merged events are exactly those of the records, and conflicts only grow by supporting ones |
| PriorPlan.ScanBars | src/finance_research_agent/domain/observations.py:125-144 | the single pass finds the first overlapping bar, the extreme clamped and rounded excursions from it on, the first orderable stop and target, and ambiguity exactly when a bar is unorderable |
| PriorPlan.ScanRounds | src/finance_research_agent/domain/observations.py:124-135 | the rounded scan is the exact scan with its two excursions rounded once, for every monotone rounding |
| PriorPlan.ScanIsUnique | src/finance_research_agent/domain/observations.py:125-144 | what a scan means leaves exactly one result |
| PriorPlan.SelectBars | src/finance_research_agent/domain/observations.py:102-112 | the bars are those of every eligible session in order, or none when one is missing or unreliable |
| PriorPlan.ObservePriorPlan | src/finance_research_agent/domain/observations.py:64-170 | an observation is refused exactly without coverage and otherwise says what the bars of every eligible session show |
| PriorPlan.OutcomesSay | src/finance_research_agent/domain/observations.py:145-170 | each outcome is listed exactly when the bars of the eligible sessions show it, and the evidence is theirs in order |
| PriorPlan.ObservationsAreCoherent | src/finance_research_agent/domain/observations.py:50-61 | the model's own coherence check never refuses an observation |
| Watchlist.ReplacementMeans | src/finance_research_agent/application/watchlist_service.py:46-49 | an update leaves its item and every item of another symbol, is one version later, and is refused only above thirty names |
| Watchlist.WatchlistRepository.ReplaceIfVersion | src/finance_research_agent/adapters/yaml_config.py:83-95 | the file is replaced exactly when it holds the expected version and the replacement is the next one |
| Watchlist.WatchlistRepository.Update | src/finance_research_agent/application/watchlist_service.py:40-75 | an undisturbed update changes the file exactly when the version is current and the result is valid |
| Watchlist.UpdatesAreLinearizable | src/finance_research_agent/application/watchlist_service.py:40-75 | over every interleaving the watchlist is the fold of the successful updates in version order, each one version later, none lost |
| Watchlist.VersionDeterminesContent | src/finance_research_agent/adapters/yaml_config.py:83-95 | along every history a version determines the content |
| ClaimGraph.ScopeOf | src/finance_research_agent/application/feedback_service.py:240-259 | the walk ends on every graph, refuses exactly when something reachable is missing, and gathers exactly the evidence of the reachable claims |
| ClaimGraph.FullReviewScope | src/finance_research_agent/application/feedback_service.py:240-260 | the allowed pairs are the evidence, counter-evidence and metric inputs of the claims reachable from each selected claim |
| ClaimGraph.NarrativeCitations | src/finance_research_agent/application/report_renderer.py:106-122 | the breadth-first walk visits exactly the reachable claims and lists each citation once |

## Left out

- Market dates other than the modelled one: the stores of two dates share nothing.
- Checkpoint files beyond sequence 9999, whose names no longer sort in order of writing.
- Paths, symbolic links, permissions, file descriptors and fsync: a file is a map entry, an atomic write or rename is one step, a crash loses no completed step.
- Locks: a repository call is one critical section; a service call is not.
- Parsing and canonical serialisation: bytes are the value they decode to, or raw bytes that decode to none.
- The readings of one service call after its first load of the run: they are taken at one instant, before its writes.
- Renderers, brief validation, source health, quality evaluation, regime, setups and plan drafting: deterministic functions, or answers that may differ at every call.
- Telemetry values: a snapshot is opaque; its name, digest, restoration and replacement are modelled.
- Run leases, missed-run records, run listings and `get_previous_research_run`.
- Run-window classification: it is an answer of each preparation call.
- Preparation writes interleaved with a publisher of the same run: their calls follow one another here, while the publishers interleave with each other and with failure recording.
- Allocation of a quarantined id inside the sequences of `PreparedEvidence`: the reused id keeps an index entry of another run.
- The agreement of a stored run with its own window, checked again when a start finds it.
- A start whose load of the run is older than its allocation.
- Preparation resumed by a call that itself runs out of time is covered by `Failures` from the directories of one course only.
- Process crashes that also lose data already written but not flushed to the medium.
- PriorPlan.ScanBars: the 28-digit decimal context is any rounding; that it never reverses an order and leaves zero is a premise of `ScanRounds`.
- EventMerge.MergeEvents: does not model the final presentation order, which falls back on insertion order when time, type and identifier agree, nor provider failures.
- HttpRetry.Request: does not model request validation, DNS, sockets, the response body or the check before the loop; whether a body is acceptable is part of an answer.
- DailyBars.NormaliseSymbol: the reading of one provider record and the constructor's own consistency check are parameters.
- ReleaseEvidence.StaleBatchIsNeverRead: the GitHub queries that produce a collection are answers of the environment.
- DollarVolume.MedianDollarVolume: does not say what happens when a needed precision exceeds `MAX_PREC`, where the source rounds.
- Watchlist.UpdatesAreLinearizable: the unchecked `replace`, and writers in other processes, are not part of it.
- SKILL.md resource declarations, feedback records, the agent runtime, settings, the command line and the provider adapters for filings, macro data and news.
