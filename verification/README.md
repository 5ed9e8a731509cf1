# Verification of Gist Agent's generations

Gist Agent answers each question in an asynchronous *generation*. The API creates it in one transaction, a worker claims
it with a writer token and runs an agent loop over a language model, the generation's events go into a numbered log, an
outbox relay carries them to Redis streams, and a browser store folds them into message blocks. This project models
those pieces in Dafny and proves what they promise together. `dafny verify dfyconfig.toml` checks everything.

How to read it:

- **Generation lifecycle** (`Lifecycle`, `LifecycleProofs`, `LifecycleHistory`, `LifecycleEffects`, `GenerationStore`).
  Every SQL statement or transaction is one atomic step on a database value. An invariant of all steps gives the facts
  about reachable states; a transitive relation "evolves" gives the facts about whole runs. `GenerationStore` runs the
  same transactions imperatively, table by table and row by row, and is proved to have the specified effect, including
  rollback.
- **Event delivery** (`Events`, `Relay`, `DeliveryRuns`, `OutboxRelay`, `Blocks`, `Client`, `ClientProofs`, `ChatStore`,
  `EndToEnd`, `ClientEffects`, `LateReply`). Any number of relays lock, send, lose replies, crash and retry; each
  generation stream stays a prefix of its log. The browser receives logged events in any order, repeated or skipped, and
  resynchronises through two queries that may see different database states; a registered message always shows the fold
  of a prefix of the log.
- **Worker side of the stream** (`TextEvents`, `Reducers`, `WorkerToBrowser`, `Workers`). Coalescing text and the
  worker's own block reducer agree with what the browser folds. With workers that claim, emit, buffer, write and
  complete as steps of the system, a browser that has seen the end of a completed generation shows the worker's blocks,
  in every run.
- **Analysis state** (`AnalysisStates`, `AnalysisPatches`, `AnalysisHistory`). Patches and turns keep every hypothesis
  backed by evidence that was recorded under the same conditions, over the whole history of a conversation.
- **Agent loop** (`Protocol`, `ContextAssembly`, `ContextProofs`, `ResponseText`, `AgentLog`, `AgentSteps`,
  `AgentProofs`, `AnalysisAgent`). The model, the tools and interruptions are adversarial inputs. `AgentSteps` says what
  a call, a batch, a round and a run do as relations between the state before and after; the class in `AnalysisAgent` is
  proved to do just that, and `AgentProofs` shows what follows for whole runs: the message protocol, the token budget,
  the finish protocol, and that every tool result reaches the model.
- **Memory store** (`MemoryPolicy`, `MemoryRepository`, `MemoryProofs`, `MemoryEffects`, `MemoryStore`), **table
  scopes** (`TableScopes`), **placeholders** (`NormalizeSql`) and the **three-key semaphore** (`Semaphore`).

Functions specify; classes and methods with loops follow the source's own form where it updates state, and are proved to
compute what the functions say. The properties are lemmas about the functions. The modules named `Effects` and
`AnalysisPatches` state for each operation what it changes and when it is accepted, without the functions that compute
it.

Places where the code does less than one might expect, each with the exact condition under which it is right:

- Registering a generation again, after events of it were applied, keeps the message right exactly if the message still
  shows no blocks (`RegisteringAgain`); otherwise streamed text shows twice (`LateReplyRepeatsText`).
- The reply to a cancel request overwrites the status of a view even when the end is already shown
  (`CancelReplyKeepsEndsUnlessLate`, `LateCancelReplyIsReachable`); the final status is only guaranteed without such a
  late reply (`FinishedViewIsFinal`).
- Two pending logs of one title are closed differently by worker and browser (`TwoOpenLogsDiverge`), unless they cannot
  be told apart (`ClosingAgreesExactly`); with one, both agree on everything (`EmitAgrees`).
- Candidates that share an id can leak past the token budget (`SharedIdsLeak`); an input is free of that for every
  budget exactly if no candidate that costs anything and is not required shares its id (`ExactForEveryBudget`). The
  difference is the cost of the duplicates (`TokensAreAccountedFor`), and a run's own candidates never share one
  (`RunExtrasAreSound`).
- The comparator of the context assembler is an order exactly if tool batches of one rank are adjacent
  (`OrderIsTotalIffToolsAdjacent`).
- The condition signature ignores the order of memory references exactly if no two of them name one memory in different
  versions (`OrderIsIrrelevantIffOneVersionEach`), and no state that ever occurs does (`OrderNeverMatters`).
- `normalizeSql` cuts a text differently from PostgreSQL in three ways (sections 4.1.1, 4.1.2 and 4.1.5 of its
  documentation), and alike exactly if none of them occurs (`CutsLikePostgres`). It misreads where an escape string
  starts: an identifier that ends in an E after a dollar sign or a letter beyond ASCII counts as the prefix
  (`EscapeHidesPlaceholder`), and an escape string that goes on after a line break is not recognised. It misreads dollar
  tags: a `$tag$` inside an identifier counts (`DollarHidesPlaceholder`), and a tag with letters beyond ASCII does not
  (`QuestionMarkInQuote`). And a carriage return does not end a line comment (`ReturnHidesPlaceholder`).

## Model

| member | source | states |
|---|---|---|
| LifecycleProofs.ApplyKeepsInv | apps/worker/src/chat/generation.service.ts:66-303 | each transaction of the API and the workers keeps, together: one active generation per conversation; the user limit; the idempotency index; the draft of an active generation on the revision that is still committed, with row revision equal to state revision; sequences exactly 1..last_sequence; a `done` event exactly at the end of a terminal log; the turn pending until then and afterwards equal to the status |
| LifecycleProofs.RunKeepsInv | apps/worker/src/chat/generation.service.ts:66-303 | so does every run of such transactions, in any interleaving |
| LifecycleHistory.ApplyEvolves | apps/worker/src/chat/generation.service.ts:66-303 | one transaction moves rows only forward: terminal rows, finished drafts, logged events, idempotency keys and artifacts never change; a token once set stays until the end; committed revisions never fall |
| LifecycleHistory.RunEvolves | apps/worker/src/chat/generation.service.ts:66-303 | the same between any state of a run and any later one |
| LifecycleHistory.ClaimOnce | apps/worker/src/chat/generation.service.ts:66-81 | in any run at most one claim of a generation succeeds |
| LifecycleHistory.TokenMeansClaim | apps/worker/src/chat/generation.service.ts:66-81 | in any run from the empty database, a row carries a token only if an earlier step of the run successfully claimed it with that token |
| LifecycleHistory.WritesCarryTheToken | apps/worker/src/chat/artifact.repository.ts:199-214 | from any sound state, an accepted write of a generation that the run claims comes after that claim and carries its token |
| LifecycleHistory.WritesFollowTheClaim | apps/worker/src/chat/artifact.repository.ts:199-214 | in any run from the empty database every accepted publish, draft begin or save, artifact write and token-bearing finalize has an earlier successful claim with its token in the run, and no other claim of the generation succeeds in it |
| LifecycleHistory.CancelIsFinal | apps/worker/src/chat/generation.service.ts:207-217 | a generation that is once seen with cancel_requested is not completed in any later state |
| LifecycleHistory.TerminalIsAbsorbing | apps/worker/src/chat/generation.service.ts:199-303 | the row, log and turn of a terminal generation are the same in every later state |
| LifecycleHistory.DoneExactlyAtTheEnd | apps/worker/src/chat/generation.service.ts:218-291 | in every reachable state a generation is terminal if and only if its log holds a `done` event, which is then the only one, has sequence last_sequence, and the turn has the status of the generation |
| LifecycleHistory.EmptyTokenHasNoDraft | apps/worker/src/chat/generation.service.ts:208-213 | whoever may complete a generation that has a draft holds its token; the empty-token branch finds no draft to promote |
| LifecycleHistory.PromotionNeverConflicts | packages/database/src/analysis-state-schema.ts:26-39 | from any reachable state completing never ends in ANALYSIS_STATE_CONFLICT, succeeds if and only if the row guard passes and a draft exists, and never with the empty token |
| LifecycleHistory.CommittedStatesOnlyGrow | packages/database/src/analysis-state-schema.ts:26-39 | a committed state changes only by completing a generation, into exactly the draft of that generation, and its revision strictly grows |
| LifecycleHistory.CreateTurnIsIdempotent | apps/api/src/chat/generation.service.ts:15-35 | after a turn was created, the same key and hash replays the same generation in every later state and changes nothing; another hash is refused |
| LifecycleHistory.FinishRunTerminates | apps/worker/src/chat/chat.service.ts:171-198 | the finalize sequence of a worker (first attempt, failed after a refused promotion, cancelled after a cancel) leaves the generation terminal, whatever other transactions run in between |
| LifecycleEffects.FinalizeEffect | apps/worker/src/chat/generation.service.ts:199-241 | for every writer and status: finalize takes effect if and only if the row guard allows that end and a completion has a draft; then row and turn have exactly the requested status, no writer is left, the one new log entry is a `done` event that names the status, with its outbox row, a completion (and only that) commits the draft, and every other generation is as before; otherwise nothing changes |
| LifecycleEffects.FailQueuedEffect | apps/worker/src/chat/generation.service.ts:243-259 | a pending generation ends as failed in row, turn and done event; any other is left alone |
| LifecycleEffects.FailStaleEffect | apps/worker/src/chat/generation.service.ts:261-291 | each overdue active generation ends as cancelled if that was requested and as failed otherwise, and no other generation changes |
| LifecycleEffects.ClaimEffect | apps/worker/src/chat/generation.service.ts:66-76 | a claim takes effect if and only if the row is pending, and then only names the writer and the starting status |
| LifecycleEffects.MarkRunningEffect | apps/worker/src/chat/generation.service.ts:77-81 | only the claiming writer turns a starting row into a running one, and nothing else changes |
| LifecycleEffects.CancelEffect | apps/api/src/chat/generation.service.ts:123-129 | a cancel request changes the status of an active generation of the user and nothing else; anything else is reported as not found |
| LifecycleEffects.PublishEffect | apps/worker/src/chat/generation.service.ts:293-303 | an event is appended if and only if the writer owns the running row: one log entry, numbered next, with its outbox row |
| LifecycleEffects.BeginEffect | apps/worker/src/analysis/analysis-state.repository.ts:16-52 | a begun draft is found again; otherwise it is what the committed state of the conversation carries over |
| LifecycleEffects.NewTurnEffect | apps/api/src/chat/generation.service.ts:36-116 | a new request is refused exactly if the conversation is not the user's or occupied or the limit is reached; otherwise exactly one pending generation with an empty log is added |
| LifecycleEffects.KnownKeyEffect | apps/api/src/chat/generation.service.ts:15-35 | a used key finds its generation, or refuses another request, and changes nothing |
| GenerationStores.GenerationStore.CreateTurn | apps/api/src/chat/generation.service.ts:15-116 | the imperative transaction on mutable tables leaves the rows and gives the reply of the specified one |
| GenerationStores.GenerationStore.Cancel | apps/api/src/chat/generation.service.ts:123-129 | as specified: only active rows of the caller, and 404 otherwise |
| GenerationStores.GenerationStore.Claim | apps/worker/src/chat/generation.service.ts:66-76 | as specified: pending and unclaimed rows only |
| GenerationStores.GenerationStore.MarkRunning | apps/worker/src/chat/generation.service.ts:77-81 | as specified: a separate statement, fenced by the token |
| GenerationStores.GenerationStore.EnqueueGenerationEvent | packages/database/src/generation-events.ts:5-42 | number, log entry and outbox row agree with the specification |
| GenerationStores.GenerationStore.Publish | apps/worker/src/chat/generation.service.ts:293-303 | as specified: only for the owning writer in starting or running |
| GenerationStores.GenerationStore.Begin | apps/worker/src/analysis/analysis-state.repository.ts:16-52 | as specified: an existing draft is returned, a new one is derived from the committed state |
| GenerationStores.GenerationStore.Save | apps/worker/src/analysis/analysis-state.repository.ts:53-64 | as specified: compare-and-set on the draft revision under the fence |
| GenerationStores.GenerationStore.PromoteAnalysisDraft | packages/database/src/analysis-state-schema.ts:26-39 | missing draft, stale base and upsert as specified |
| GenerationStores.GenerationStore.FinishOne | apps/worker/src/chat/generation.service.ts:227-238 | turn and done event of one closing row |
| GenerationStores.GenerationStore.FinishRows | apps/worker/src/chat/generation.service.ts:276-291 | the loop over the closed rows amounts to the closing of all of them at once |
| GenerationStores.GenerationStore.PromoteAndFinish | apps/worker/src/chat/generation.service.ts:217-238 | promotion, then turn and event; a refused promotion rolls back every table |
| GenerationStores.GenerationStore.Finalize | apps/worker/src/chat/generation.service.ts:199-241 | the three branches of the row guard, promotion and rollback as specified |
| GenerationStores.GenerationStore.FailQueued | apps/worker/src/chat/generation.service.ts:243-259 | as specified |
| GenerationStores.GenerationStore.FailStale | apps/worker/src/chat/generation.service.ts:261-291 | as specified, for any set of rows that the clock makes stale |
| GenerationStores.GenerationStore.WriteArtifact | apps/worker/src/chat/artifact.repository.ts:199-214 | as specified: only under the fence |
| GenerationStores.GenerationStore.Perform | apps/worker/src/chat/generation.service.ts:66-303 | whichever transaction runs, sound rows stay sound and only move forward |
| AnalysisStates.SignatureForgetsOrderBetweenMemories | apps/worker/src/analysis/analysis-state.ts:25-36 | two states that differ only in how they list memory references have one condition signature if and only if they list the references to each memory alike: the order between memories is forgotten, and nothing else |
| AnalysisStates.OrderIsIrrelevantIffOneVersionEach | apps/worker/src/analysis/analysis-state.ts:25-36 | the references of a state can be listed in any order if and only if none of them disagree about a version of one memory; distinct ids are enough |
| AnalysisStates.PatchKeepsRefsDistinct | apps/worker/src/analysis/analysis-state.ts:94-103 | an accepted patch leaves no memory listed twice |
| AnalysisStates.BeginKeepsRefsDistinct | apps/worker/src/analysis/analysis-state.repository.ts:29-37 | neither does carrying a state into the next turn |
| AnalysisStates.PatchKeepsGrounded | apps/worker/src/analysis/analysis-state.ts:76-150 | an accepted patch leaves every hypothesis backed by artifacts recorded under the signature of the new state, drops all hypotheses if the signature changed and none were given, adds exactly one to the revision, keeps conversation and datasource, and filters only allowed fields |
| AnalysisStates.PatchAnalysisState | apps/worker/src/analysis/analysis-state.ts:76-150 | the patch, run field by field with its loops over filters and hypotheses, is the specified patch with the same errors in the same order |
| AnalysisStates.PushFilters | apps/worker/src/analysis/analysis-state.ts:117-130 | the filter loop keeps exactly the cleaned list, or the first error |
| AnalysisStates.CheckFilters | apps/worker/src/analysis/analysis-state.ts:131 | the check of kept filters finds a field that is no longer allowed if there is one |
| AnalysisStates.ApplyConditions | apps/worker/src/analysis/analysis-state.ts:92-131 | the first half of the patch, field by field, is the specified one |
| AnalysisStates.PushHypotheses | apps/worker/src/analysis/analysis-state.ts:134-146 | the hypothesis loop keeps exactly the cleaned list, or the first error |
| AnalysisStates.ApplyConclusions | apps/worker/src/analysis/analysis-state.ts:113-150 | the second half of the patch, as specified |
| AnalysisStates.BeginKeepsGrounded | apps/worker/src/analysis/analysis-state.repository.ts:26-41 | carrying a state into the next turn keeps it grounded: references that are no longer current disappear, and the hypotheses with them |
| AnalysisPatches.PatchIsExact | apps/worker/src/analysis/analysis-state.ts:76-150 | a patch is accepted with some state if and only if that state is what it asks for, field by field for all ten fields: a field left out is as it was, or blank in a new task; a given one is the given value with its texts trimmed, within its limits, in its own place; notes carry the source message; evidence must have been recorded under the new conditions |
| AnalysisPatches.SignatureIsExact | apps/worker/src/analysis/analysis-state.ts:25-36 | two states have one condition signature if and only if they have the same conditions, up to the order between different memories |
| AnalysisPatches.BeginIsExact | apps/worker/src/analysis/analysis-state.repository.ts:26-41 | the next turn starts from the last committed state exactly if the datasource is the same, and blank otherwise; exactly the current references are kept, in order, and if any drop out the hypotheses go and the notices come before the open questions, thirty in all |
| AnalysisHistory.TurnKeepsInv | apps/worker/src/analysis/analysis-tools.ts:153-184 | each session step (begin, patch, save, query, evidence read, final save) and each foreign transaction keeps all stored and held states grounded |
| AnalysisHistory.TurnKeepsLists | apps/worker/src/analysis/analysis-tools.ts:153-184 | each session step and each foreign transaction leaves every occurring state with distinct memory references |
| AnalysisHistory.OrderNeverMatters | apps/worker/src/analysis/analysis-state.ts:25-36 | in every reachable system state, no state in a draft, a committed row or a worker lists a memory twice, so the order of its references never matters to its signature |
| AnalysisHistory.EveryHypothesisIsBacked | apps/worker/src/analysis/analysis-tools.ts:153-184 | in every reachable system state, every evidence id cited by a hypothesis in a draft, a committed state or a worker names a stored artifact whose recorded conditions have the signature of the citing state |
| Relay.ChecksPassExactlyWhenSafe | apps/api/src/chat/outbox-relay.service.ts:130-143 | a row written by enqueueGenerationEvent passes the relay checks if and only if its user id and sequence are safe integers |
| Relay.PriorsArePublished | apps/api/src/chat/outbox-relay.service.ts:63-70 | when a valid row has no outstanding prior, every earlier event of its generation is already published |
| Relay.ScriptExtendsByOne | apps/api/src/chat/outbox-relay.service.ts:23-36 | the script either appends exactly the next log event to the generation and user streams, or the event is already there and nothing changes |
| Relay.AddresseeMatches | apps/api/src/chat/outbox-relay.service.ts:144-145 | the ownership lookup always finds the generation, so no row is skipped |
| Relay.DeliverKeepsInv | apps/api/src/chat/outbox-relay.service.ts:56-128 | every relay step (lock, send, lost reply, mark, failure record) keeps the relay invariant |
| DeliveryRuns.TransactionKeepsRelayInv | packages/database/src/generation-events.ts:28-41 | every database transaction keeps the relay invariant |
| DeliveryRuns.ActKeepsInv | apps/api/src/chat/outbox-relay.service.ts:56-128 | relays and transactions interleaved keep both invariants |
| DeliveryRuns.StreamIsLogPrefix | apps/api/src/chat/outbox-relay.service.ts:23-120 | in every run, with any number of relays, expired locks, lost replies and crashes, each generation stream is exactly the prefix 1..k of its log |
| DeliveryRuns.LockedAttemptsStay | apps/api/src/chat/outbox-relay.service.ts:107-119 | while a row bears the lock that a relay took, its attempts are those read with the lock, whatever other relays and transactions do: writing back the read count plus one or adding one to the row comes to the same |
| DeliveryRuns.PublishedIsInStream | apps/api/src/chat/outbox-relay.service.ts:107-110 | a row marked published is in the stream, at the place its sequence names |
| DeliveryRuns.SettledStreamIsTheLog | apps/api/src/chat/outbox-relay.service.ts:62-120 | once no row of a generation is outstanding, its stream is the whole log |
| DeliveryRuns.DeliverKeepsStreams | apps/api/src/chat/outbox-relay.service.ts:23-36 | no relay step removes or changes what a stream holds |
| DeliveryRuns.OneDispatchSettles | apps/api/src/chat/outbox-relay.service.ts:62-120 | locking, sending and marking a candidate row settles it, whatever earlier relays left behind |
| DeliveryRuns.EveryLogCanBeDelivered | apps/api/src/chat/outbox-relay.service.ts:56-128 | no reachable state is stuck: some relay steps bring the stream to the whole log |
| OutboxRelays.RedisStore.PublishEvent | apps/api/src/chat/outbox-relay.service.ts:23-36 | the script on mutable keys and streams is the specified one |
| OutboxRelays.OutboxRelay.LockRows | apps/api/src/chat/outbox-relay.service.ts:61-77 | the locking statement takes candidates at increasing places of the order, leaves none out before a taken one, takes twenty or all there are, and locks exactly them |
| OutboxRelays.OutboxRelay.MarkRow | apps/api/src/chat/outbox-relay.service.ts:107-110 | marks a row only under the own lock and only if unpublished |
| OutboxRelays.OutboxRelay.FailRow | apps/api/src/chat/outbox-relay.service.ts:113-120 | records a failure only under the own lock; dead-letters only refused rows |
| OutboxRelays.OutboxRelay.DeliverRow | apps/api/src/chat/outbox-relay.service.ts:79-120 | one row: validation, script, mark, or failure record, for every way the calls can come out, including an error in the failure record itself; what becomes of the row and of the streams is stated outright |
| OutboxRelays.OutboxRelay.DeliverRows | apps/api/src/chat/outbox-relay.service.ts:78-121 | the loop over the locked rows follows the specified steps, and stops where recording a failure fails |
| OutboxRelays.OutboxRelay.DispatchBatch | apps/api/src/chat/outbox-relay.service.ts:60-124 | locking and loop, also when the locking statement fails or its reply is lost: each row of the batch is at the end of its turn, up to one that breaks the loop off |
| OutboxRelays.FirstCandidatesAreABatch | apps/api/src/chat/outbox-relay.service.ts:62-77 | the specified batch, without its recursion: the candidates up to some place, in order, twenty or all |
| OutboxRelays.DispatchSettles | apps/api/src/chat/outbox-relay.service.ts:60-124 | when the calls of a dispatch come out well, every row it locked is published, or dead-lettered if it is malformed, no other row changes, and there is such a row whenever there is a candidate |
| OutboxRelays.OutboxRelay.Dispatch | apps/api/src/chat/outbox-relay.service.ts:56-128 | a whole dispatch, however its calls come out, locks a batch of the first candidates and brings each of its rows to the stated end of its turn, is a sequence of the relay steps proved above, keeps the relay invariant, and is nothing at all while running or stopping |
| Blocks.FindFirst | apps/web/src/stores/chat.ts:223-231 | findIndex: the first matching block |
| Blocks.FindLast | apps/web/src/stores/chat.ts:249-264 | the reversed search: the last matching block |
| ClientProofs.ApplyKeepsInv | apps/web/src/stores/chat.ts:171-192 | a logged event in any order is applied if and only if it is the next one, then extends the fold by one, and otherwise changes nothing |
| ClientProofs.HistoryIsExact | apps/api/src/chat/generation.service.ts:163-192 | although its two queries may see different states, the endpoint answers with the rest of the log if and only if there is a rest, or the reader is up to date with a running generation; finished and fully known generations get a snapshot |
| ClientProofs.GapIsClosedFromTheLog | apps/web/src/stores/chat.ts:194-211 | a resync after a gap gets events mode, although its two queries may see different states; the view then reaches the end of the log and the retried event is a duplicate |
| ClientProofs.RegisteringAgain | apps/web/src/stores/chat.ts:157-162 | registering a generation that already received events keeps the view correct if and only if the message shows no blocks |
| ClientProofs.LateReplyRepeatsText | apps/web/src/stores/chat.ts:157-162 | otherwise text shows twice: a concrete run |
| ClientProofs.CancelReplyKeepsEndsUnlessLate | apps/web/src/stores/chat.ts:372-376 | the reply to a cancel request keeps ended views right if and only if the end was not shown yet |
| ClientProofs.StepClientKeepsInv | apps/web/src/stores/chat.ts:351-361 | every browser step keeps the client invariant |
| EndToEnd.StreamedIsLogged | apps/api/src/chat/generation.service.ts:194-230 | whatever a stream read from Redis can offer the browser is in the log |
| EndToEnd.NextKeepsInv | apps/web/src/stores/chat.ts:171-211 | every move of the world (transactions, relays, browser) keeps the joint invariant, and shown ends stay right unless a cancel reply is late |
| EndToEnd.BrowserShowsALogPrefix | apps/web/src/stores/chat.ts:171-211 | in every run of the whole system, a registered message shows exactly the fold of applyBlock over log events 1..sequence |
| EndToEnd.GapResyncNeedsNoSnapshot | apps/api/src/chat/generation.service.ts:163-180 | in every run, a resync that a gap started is answered in events mode, and the event it started from is then a duplicate |
| EndToEnd.FinishedViewShowsTheLog | apps/web/src/stores/chat.ts:171-192 | in every run, a browser that applied the `done` event shows the whole log, late cancel replies or not |
| EndToEnd.FinishedViewIsFinal | apps/web/src/stores/chat.ts:177-190 | a browser that applied the `done` event shows the whole log and the final status, provided no cancel reply came in later |
| LateReply.LateCancelReplyIsReachable | apps/web/src/stores/chat.ts:372-376 | otherwise the shown status is wrong: a concrete run of the whole system in which the browser has seen the done event of a cancelled generation and yet shows that the cancel is requested |
| ClientEffects.BlockEffect | apps/web/src/stores/chat.ts:213-308 | what each kind of event does to the blocks, place by place: an activity is shown once, logs and charts are filled in where the last one was left open, and nothing else moves |
| ClientEffects.TextIsShownOnce | apps/web/src/stores/chat.ts:234-239 | the text of a fold is the streamed text: every piece once, in the order of the log, whatever comes between |
| ClientEffects.BrowserShowsTheText | apps/web/src/stores/chat.ts:171-239 | so in every run of the whole system a registered message shows exactly the text of the log up to the last event applied |
| ClientEffects.EventEffect | apps/web/src/stores/chat.ts:171-192 | an event is applied if and only if it is the next one; the view then counts it and takes the status it implies, the message shows it if its conversation is loaded, and all other views and messages stay |
| ClientEffects.HistoryEffect | apps/web/src/stores/chat.ts:201-210 | a snapshot replaces the blocks of the one message, and sequence and status of the one view |
| ChatStores.ChatStore.ApplyBlock | apps/web/src/stores/chat.ts:213-308 | the in-place block reducer is the specified fold step |
| ChatStores.ChatStore.ApplyEvent | apps/web/src/stores/chat.ts:171-192 | as specified, with the same reply |
| ChatStores.ChatStore.ApplyEvents | apps/web/src/stores/chat.ts:200 | the loop over history events |
| ChatStores.ChatStore.ApplyHistory | apps/web/src/stores/chat.ts:199-210 | events mode and snapshot mode |
| ChatStores.ChatStore.HandleEvent | apps/web/src/stores/chat.ts:354-358 | apply, and after a gap resync and apply again |
| ChatStores.ChatStore.Register | apps/web/src/stores/chat.ts:160-162 | the view of a new generation starts at sequence 0 |
| WorkerToBrowser.StepCounts | packages/database/src/generation-events.ts:10-26 | a transaction lengthens a log by one published event or by the done event, and not otherwise |
| WorkerToBrowser.LogIsWhatWasPublished | apps/worker/src/chat/generation.service.ts:293-303 | in every reachable state of the whole system the log of a generation is what its worker published, in order, followed by the done event once it has ended |
| WorkerToBrowser.FetchKeepsFinishedView | apps/web/src/stores/chat.ts:60-95 | the fetch that follows the done event changes neither the view nor the blocks when the stored blocks are the worker's |
| Workers.EmitKeepsWorker | apps/worker/src/analysis/analysis-runtime-adapter.ts:66-69 | emitting one more event, buffered or passed on, keeps this: what is written, queued and held joins to exactly what was sent, as long as no write has failed |
| Workers.OnlyFinalizeCompletes | apps/worker/src/chat/generation.service.ts:199-241 | a generation becomes completed by no transaction but a finalize that says so |
| Workers.StepKeepsSound | apps/worker/src/chat/generation.service.ts:174-197 | every step of workers, timers, drains, writes that succeed, fail or lose their reply, and of everything else in the system keeps: nothing is published but what a worker passed on, in order; a completed generation has a worker that has written all it had |
| Workers.DrainedWorkerIsShown | apps/worker/src/chat/generation.service.ts:189-197 | in every run of the whole system, once the worker of a generation has drained without a failed write, a browser that has seen the end shows exactly the blocks the worker stored, whatever timers, writes, relays, network and resyncs did |
| Workers.CompletedIsShown | apps/worker/src/chat/chat.service.ts:166-173 | a completed generation always has such a worker, so in every run a browser that has seen its end shows exactly the blocks stored with it; and unless a cancel reply came late, the fetch that follows changes neither view nor blocks |
| TextEvents.SendJoins | apps/worker/src/chat/text-event-buffer.ts:10-19 | sending one more event keeps the passed-on and held events joined to exactly the sent ones |
| TextEvents.MergeFolds | apps/worker/src/chat/text-event-buffer.ts:4-28 | joining adjacent text fragments changes nothing that the block reducer shows |
| TextEvents.MergeKeepsPlaces | apps/worker/src/chat/text-event-buffer.ts:4-28 | joining keeps every other event, in order, with the same text before it |
| TextEvents.SameMergeSameMeaning | apps/worker/src/chat/text-event-buffer.ts:4-28 | so two streams that join to the same events are indistinguishable in both respects |
| TextEvents.TextEventBuffer.Send | apps/worker/src/chat/text-event-buffer.ts:10-19 | text is held back and joined to held text; any other event goes out after the held text |
| TextEvents.TextEventBuffer.Flush | apps/worker/src/chat/text-event-buffer.ts:21-27 | afterwards what was published joins to the same events as what was sent, however often flushes ran |
| Reducers.EmitAgrees | apps/worker/src/analysis/analysis-runtime-adapter.ts:66-91 | for every event a worker emits, with at most one pending log per title, the worker reducer and the browser reducer do the same to the fields both keep |
| Reducers.EmitAllAgrees | apps/worker/src/analysis/analysis-runtime-adapter.ts:66-91 | so they agree after any sequence of such events |
| Reducers.TwoOpenLogsDiverge | apps/worker/src/analysis/analysis-runtime-adapter.ts:84-89 | with two pending logs of one title the two sides close different ones: a concrete event |
| Reducers.ClosingAgreesExactly | apps/worker/src/analysis/analysis-runtime-adapter.ts:84-89 | for any stored logs, closing or removing a log does the same on both sides if and only if the first and the last open log of the title are one, or cannot be told apart |
| Reducers.ResponseEmitter.Store | apps/worker/src/analysis/analysis-runtime-adapter.ts:66-91 | the in-place worker reducer is the specified one |
| Reducers.ResponseEmitter.EmitEvent | apps/worker/src/analysis/analysis-runtime-adapter.ts:66-91 | an event is sent and stored, or neither; hidden tables are dropped |
| Reducers.ResponseEmitter.Drain | apps/worker/src/chat/generation.service.ts:189-197 | after a drain what was published shows exactly the stored blocks |
| Protocol.GroupingIsExact | apps/worker/src/analysis/context-assembler.ts:17-31 | the grouping succeeds if and only if the list splits into single messages and tool batches with one result per call, and then finds the only such split |
| Protocol.CollectBatch | apps/worker/src/analysis/context-assembler.ts:21-28 | the inner loop takes results until every call is answered, or reports an incomplete batch |
| Protocol.GroupMessages | apps/worker/src/analysis/context-assembler.ts:17-31 | the outer loop computes the specified grouping |
| ContextAssembly.OrderIsTotalIffToolsAdjacent | apps/worker/src/analysis/context-assembler.ts:54-59 | the comparator is transitive, hence a strict total order, if and only if tool batches of one rank stand next to each other |
| ContextAssembly.CandidatesAreOrdered | apps/worker/src/analysis/context-assembler.ts:36-40 | which holds for all candidate lists whose extras are no tool interactions |
| ContextAssembly.Rank | apps/worker/src/analysis/context-assembler.ts:52-59 | the sort arranges all candidates, in comparator order whenever the comparator orders them |
| ContextAssembly.RankingIsUnique | apps/worker/src/analysis/context-assembler.ts:52-59 | there is only one such ranking, so the result does not depend on the sorting algorithm |
| ContextAssembly.Select | apps/worker/src/analysis/context-assembler.ts:60-67 | the selection loop is the specified greedy choice |
| ContextAssembly.GreedyPays | apps/worker/src/analysis/context-assembler.ts:60-67 | the chosen costs add up to exactly what the budget lost, every required candidate is chosen, and the budget never goes negative |
| ContextAssembly.GreedyDominance | apps/worker/src/analysis/context-assembler.ts:60-67 | a candidate dropped before a kept one is strictly larger |
| ContextAssembly.AssembleContext | apps/worker/src/analysis/context-assembler.ts:15-76 | for any extras the result is the specified assembly for some arrangement of the candidates; if the comparator orders them, there is a ranking, and the result is the assembly for every ranking |
| ContextProofs.TokensAreAccountedFor | apps/worker/src/analysis/context-assembler.ts:41-75 | output tokens plus tool tokens are the reported estimate plus the cost of duplicates of chosen ids |
| ContextProofs.TokensAreConserved | apps/worker/src/analysis/context-assembler.ts:41-75 | with distinct candidate ids output tokens plus tool tokens equal the estimate and fit the budget |
| ContextProofs.ConservedExactly | apps/worker/src/analysis/context-assembler.ts:41-75 | one assembly is exact if and only if no dropped candidate that costs anything shares the id of a chosen one |
| ContextProofs.ExactForEveryBudget | apps/worker/src/analysis/context-assembler.ts:41-75 | before any budget is known: the estimate is exact for every budget that suffices if and only if no candidate that costs anything and is not required shares its id with another candidate |
| ContextProofs.SharedIdsLeak | apps/worker/src/analysis/context-assembler.ts:68-74 | with a shared id the output exceeds the budget: a concrete input |
| ContextProofs.DroppedIsLarger | apps/worker/src/analysis/context-assembler.ts:52-67 | whatever was dropped although something ranked after it was kept is strictly larger |
| ContextProofs.OlderKeptGroupIsSmaller | apps/worker/src/analysis/context-assembler.ts:52-67 | a kept older group costs less than a dropped newer tool batch |
| ContextProofs.RefusesBrokenHistories | apps/worker/src/analysis/context-assembler.ts:25-29 | assembly fails with a protocol error if and only if the history breaks the tool protocol |
| ContextProofs.OutputFollowsProtocol | apps/worker/src/analysis/context-assembler.ts:68-75 | the assembled messages follow the tool protocol |
| ContextProofs.KeptGroupsInOrder | apps/worker/src/analysis/context-assembler.ts:74 | kept groups appear whole and in their original order |
| ContextProofs.OutputKeepsOrder | apps/worker/src/analysis/context-assembler.ts:36-74 | the assembled messages are the system message, the kept recent turns at decreasing positions, the other kept extras at increasing ones, the question, and then exactly the groups whose id was chosen, whole and at increasing positions, the last group and the latest tool batch always among them |
| ContextProofs.RunOutputKeepsOrder | apps/worker/src/analysis/context-assembler.ts:70-74 | for a run: the kept turns in the order of time, the data of the analysis, the catalogs if they are kept, the question and the kept groups |
| ContextProofs.AssembledIffRequiredFit | apps/worker/src/analysis/context-assembler.ts:60-67 | there is a context if and only if what is required fits the budget next to the tools |
| ContextProofs.GreedyIsExact | apps/worker/src/analysis/context-assembler.ts:60-67 | a candidate is chosen if and only if it fits what those ranked before it have left |
| ContextProofs.RunRanksExactly | apps/worker/src/analysis/context-assembler.ts:36-59 | a run's candidates rank: the question and the data first, then the groups that must stay and then the others, newest first, then the turns newest first, then the catalogs |
| ContextProofs.DistinctIdsSendChosen | apps/worker/src/analysis/context-assembler.ts:68-74 | with distinct ids a candidate's id is selected if and only if the candidate itself was chosen, so exactly the chosen groups and extras are sent |
| ContextProofs.RunExtrasAreSound | apps/worker/src/analysis/analysis-runtime-adapter.ts:251-305 | the extras of a run are no tool interactions, follow the protocol, and have distinct candidate ids if the past turns have |
| ResponseText.PublishedExactlyOnce | apps/worker/src/analysis/response-text-stream.ts:13-50 | however a response is cut into fragments and whatever the language tests say, pushing them and finishing with the whole text publishes every character exactly once, in order |
| ResponseText.WithheldCanBeDropped | apps/worker/src/analysis/response-text-stream.ts:44-49 | text of which nothing was published can still be dropped as a whole |
| ResponseText.ResponseTextStream.PushText | apps/worker/src/analysis/response-text-stream.ts:22-43 | one push on the mutable stream, tied to what was given and let through so far |
| ResponseText.ResponseTextStream.FinishText | apps/worker/src/analysis/response-text-stream.ts:44-49 | after finishing with the given text everything given is out; with the empty text and nothing published, nothing is |
| ResponseText.LetThroughExactly | apps/worker/src/analysis/response-text-stream.ts:22-43 | text is let through if and only if the first opening that a language test accepts is Chinese, or Chinese is not asked for; then all of it is |
| AgentLog.AllowedExtends | apps/worker/src/analysis/analysis-agent.ts:268-281 | a log of executions stays allowed when one more allowed execution is added |
| AgentLog.BookObserved | apps/worker/src/analysis/analysis-agent.ts:313-317 | the observed set is exactly the evidence that successful reads and queries named |
| AgentLog.BookFailures | apps/worker/src/analysis/analysis-agent.ts:318-321 | the failure map counts exactly the failures of the log by query and code |
| AgentLog.BookBlocks | apps/worker/src/analysis/analysis-agent.ts:322 | a query is in the blocked set if and only if it has failed twice with one code |
| AgentLog.BooksExtend | apps/worker/src/analysis/analysis-agent.ts:304-323 | the updates after one execution keep all three books exact |
| AgentLog.NoThirdFailure | apps/worker/src/analysis/analysis-agent.ts:278-281 | no query fails more than twice in the same way in a whole run |
| AgentLog.BatchCompletes | apps/worker/src/analysis/analysis-agent.ts:330-353 | a batch followed by one result per call completes the tool protocol again |
| AgentProofs.CallsAreAnswered | apps/worker/src/analysis/analysis-agent.ts:304-353 | in every run: no call runs twice; every execution whose result can be read, unless the run was cut off by it, is answered in the history by exactly its own result, and unreadable ones by the rejection; a call that did not run is answered as rejected, skipped or, to finish, accepted; and every later request to the model is made from a history that holds those results |
| AgentProofs.RunKeepsSound | apps/worker/src/analysis/analysis-agent.ts:45-369 | in every run, whatever model, tools and interruptions do: only allowed calls execute; every request had a context that fits; the history follows the tool protocol wherever a run stops without an error; answers are only added, non-blank, and shown whole, in order and without overlap; a finish comes only after an answer or, under visualOnly, a successful chart or table, with honest arguments, and is the last thing recorded |
| AgentProofs.RoundKeepsSound | apps/worker/src/analysis/analysis-agent.ts:79-366 | one round of this: a sound run stays sound or ends so; in closing no text, in closing or awaiting a conclusion no execution; at most one answer, and then its text is all the round publishes |
| AgentProofs.BatchHasFacts | apps/worker/src/analysis/analysis-agent.ts:205-366 | one batch: every call answered in order, allowed executions only, all rounds marked, the history complete unless the run was cut off |
| AgentProofs.CallsAreExact | apps/worker/src/analysis/analysis-agent.ts:137-162 | the calls of a streamed response: one for each place that some part has, in the order of the places, with the id given last and the pieces of its name and arguments joined |
| AnalysisAgents.AnalysisAgent.PublishText | apps/worker/src/analysis/analysis-agent.ts:108-113 | nothing is published in closing; otherwise exactly the text, after a blank line if a round starts over visible text |
| AnalysisAgents.AnalysisAgent.ReadStream | apps/worker/src/analysis/analysis-agent.ts:117-150 | chunks are read up to the first that breaks the response off (a call without a place, too many characters), which is reported exactly then; content, calls and size are those of the chunks read, and exactly what the text stream let through is published |
| AnalysisAgents.AnalysisAgent.Hear | apps/worker/src/analysis/analysis-agent.ts:151-162 | which responses end a round early, and how: interruption, broken response, one retry for a context that was too long before any output, failed request |
| AnalysisAgents.AnalysisAgent.Prepare | apps/worker/src/analysis/analysis-agent.ts:81-99 | there is a context if and only if what is required fits; it is never refused for a broken history or by the second budget check; it is the greedy choice for a ranking of the candidates, made of exactly the chosen groups and extras, whole and in order, follows the tool protocol, and its counted tokens equal the estimate and fit the budget |
| AnalysisAgents.AnalysisAgent.Note | apps/worker/src/analysis/analysis-agent.ts:304-323 | what one execution changes in the books |
| AnalysisAgents.AnalysisAgent.Book | apps/worker/src/analysis/analysis-agent.ts:304-323 | the books stay exact for the whole log of executions |
| AnalysisAgents.AnalysisAgent.ChecksAreExact | apps/worker/src/analysis/analysis-agent.ts:268-281 | what the agent looks up in its books amounts to the rule over the whole log: known tool, fitting arguments, open run, chart evidence of an earlier round, no query that failed twice alike |
| AnalysisAgents.AnalysisAgent.Execute | apps/worker/src/analysis/analysis-agent.ts:294-325 | one execution is logged with its call, and ends exactly as its tool came out: result, rejection, stop, or error |
| AnalysisAgents.AnalysisAgent.RunTool | apps/worker/src/analysis/analysis-agent.ts:267-325 | a tool executes if and only if that rule allows it; a silent round describes each kind of action once |
| AnalysisAgents.AnalysisAgent.FinishCall | apps/worker/src/analysis/analysis-agent.ts:254-266 | a finish is accepted, with the text "accepted" and the response so far, if and only if something was delivered and its arguments are honest; a delivered result without a conclusion asks for the conclusion |
| AnalysisAgents.ValidIsHonest | apps/worker/src/analysis/finish-analysis.ts:22-33 | the checks of validateFinish accept exactly complete answers that miss nothing, and others that give a reason and name at most twenty things |
| AnalysisAgents.AnalysisAgent.HandleCall | apps/worker/src/analysis/analysis-agent.ts:225-352 | one call: interrupted, run, finished or rejected, never more than one of these; mixed batches and closed runs execute nothing; an error is reported and goes back to the model |
| AnalysisAgents.AnalysisAgent.Settle | apps/worker/src/analysis/analysis-agent.ts:326-357 | what goes into the history for each way a call ends: its own result, the rejection exactly for rejected calls, or the texts of a security stop; and the third identical call in a row ends the run |
| AnalysisAgents.AnalysisAgent.StopForSecurity | apps/worker/src/analysis/analysis-agent.ts:330-340 | a security stop answers every remaining call of the batch and says why |
| AnalysisAgents.AnalysisAgent.CountAction | apps/worker/src/analysis/analysis-agent.ts:354-357 | identical actions in a row are counted, and the third is reported |
| AnalysisAgents.AnalysisAgent.RunBatch | apps/worker/src/analysis/analysis-agent.ts:205-366 | the calls are handled one after the other, each exactly as stated for one call, up to the first that ends the run; a finish comes from its last call |
| AnalysisAgents.AnalysisAgent.TakeIds | apps/worker/src/analysis/analysis-agent.ts:197-200 | calls are accepted if and only if all have names and ids that are new to the run and distinct |
| AnalysisAgents.AnalysisAgent.EndWithText | apps/worker/src/analysis/analysis-agent.ts:182-196 | a round without calls records its text, closes the run, and asks once for the finish |
| AnalysisAgents.AnalysisAgent.RetryLanguage | apps/worker/src/analysis/analysis-agent.ts:163-177 | one retry for the wrong language, nothing published |
| AnalysisAgents.AnalysisAgent.Conclude | apps/worker/src/analysis/analysis-agent.ts:163-366 | what a response comes to that was heard to its end: retry for the language, or its text is published whole, counts as an answer exactly if no analysis call comes with it, and its calls are carried out |
| AnalysisAgents.AnalysisAgent.Exchange | apps/worker/src/analysis/analysis-agent.ts:101-366 | a round that has its context: exactly this context is asked, and the response is carried out or breaks off as stated |
| AnalysisAgents.AnalysisAgent.Round | apps/worker/src/analysis/analysis-agent.ts:79-366 | one round does exactly what the round relation says, and keeps all facts of a run |
| AnalysisAgents.AnalysisAgent.Run | apps/worker/src/analysis/analysis-agent.ts:45-369 | a run of any length is made of such rounds up to the first that ends it, and keeps all facts of a run |
| TableScopes.ValidateTableScopes | apps/worker/src/chat/tools/sql-executor.ts:191-217 | the recursive check with its growing set is the specified one |
| TableScopes.ScopeIsEnvironment | apps/worker/src/chat/tools/sql-executor.ts:203-207 | the names in scope of the check are exactly those the evaluator has bound |
| TableScopes.AcceptedReadsOnlyAllowed | apps/worker/src/chat/tools/sql-executor.ts:191-217 | an accepted query has the same result on any two databases that agree on the allowed tables, whatever the operators of SQL mean |
| TableScopes.CheckIsExact | apps/worker/src/chat/tools/sql-executor.ts:191-217 | the check accepts if and only if the query is plain (no writes, locks, foreign schemas or unclear sources) and all stored tables it names are allowed |
| TableScopes.RefusedTableMatters | apps/worker/src/chat/tools/sql-executor.ts:213 | a plain query that is refused does depend on a forbidden table: some meaning and two agreeing databases tell it apart |
| NormalizeSql.SegmentsCover | packages/database/src/index.ts:202-253 | the segments concatenate to the input |
| NormalizeSql.PlaceholdersAreQuestionMarks | packages/database/src/index.ts:247-249 | no segment is empty and every placeholder is a lone question mark |
| NormalizeSql.RenderCopies | packages/database/src/index.ts:202-253 | a text without placeholders is unchanged |
| NormalizeSql.PlaceholdersAreNumbered | packages/database/src/index.ts:247-249 | the output has one part for each segment: the k-th placeholder becomes a dollar sign and k, from one, and every other segment is copied |
| NormalizeSql.QuotedEndIsExact | packages/database/src/index.ts:208-221 | the end of a quoted text is the only one the grammar allows (doubled quotes, E-escapes, unfinished text) |
| NormalizeSql.LineEndIsExact | packages/database/src/index.ts:222-225 | a line comment ends before the first line feed |
| NormalizeSql.DollarEndIsExact | packages/database/src/index.ts:241-246 | a dollar-quoted text ends with the first return of its tag |
| NormalizeSql.BlockIsOneSegment | packages/database/src/index.ts:226-240 | every well nested comment is one segment |
| NormalizeSql.CommentSegmentNests | packages/database/src/index.ts:226-240 | a comment segment is well nested, or runs to the end of the text |
| NormalizeSql.TokenAgrees | packages/database/src/index.ts:206-250 | at one place the code and a lexer written from the PostgreSQL documentation cut alike if and only if no quote is misread, no line comment holds a carriage return, and no dollar tag is misread there |
| NormalizeSql.CutsLikePostgres | packages/database/src/index.ts:202-253 | so the code cuts a whole text like PostgreSQL if and only if none of the three stands anywhere in it |
| NormalizeSql.DollarHidesPlaceholder | packages/database/src/index.ts:241-246 | a dollar sign in an identifier hides a placeholder: a concrete text |
| NormalizeSql.EscapeHidesPlaceholder | packages/database/src/index.ts:210-216 | an identifier that ends in $e makes a plain literal an escape string, which hides a placeholder: a concrete text |
| NormalizeSql.ReturnHidesPlaceholder | packages/database/src/index.ts:222-225 | a carriage return does not end a line comment, which hides a placeholder: a concrete text |
| NormalizeSql.QuestionMarkInQuote | packages/database/src/index.ts:241-249 | a tag beyond ASCII is not seen, so a question mark in a dollar quote is numbered: a concrete text |
| NormalizeSql.CopyQuoted | packages/database/src/index.ts:208-221 | the quote loop stops at the specified end |
| NormalizeSql.CopyBlock | packages/database/src/index.ts:226-240 | the depth-counting loop stops at the specified end |
| NormalizeSql.CopySegment | packages/database/src/index.ts:206-250 | one turn of the loop copies one segment or writes the next placeholder number |
| NormalizeSql.Normalize | packages/database/src/index.ts:202-253 | the output is the rendering of the segments: every segment copied, the k-th placeholder replaced by $k |
| Semaphores.AcquireIsSafe | apps/worker/src/chat/generation-reliability.service.ts:22-35 | a granted permit is in all sets and none exceeds its limit; a refused one added nothing |
| Semaphores.AcquireIsExact | apps/worker/src/chat/generation-reliability.service.ts:22-35 | a permit is granted if and only if every set has fewer live leases than its limit, and the sets afterwards are exactly the live leases with the new one |
| Semaphores.RenewCountsHeld | apps/worker/src/chat/generation-reliability.service.ts:43-56 | renew counts exactly the sets that hold the permit and moves its end in exactly those, so true means held in all |
| Semaphores.ReleaseRemoves | apps/worker/src/chat/generation-reliability.service.ts:58-60 | release removes exactly this permit from exactly its sets |
| Semaphores.LimitsHold | apps/worker/src/chat/generation-reliability.service.ts:12-60 | under any interleaving of workers with any clocks no set exceeds its limit |
| Semaphores.GrantedPermitsHold | apps/worker/src/chat/generation-reliability.service.ts:12-60 | a granted permit stays in all its sets until it is released, shortened, or some clock passes its end |
| Semaphores.PermitsInForceAreBounded | apps/worker/src/chat/generation-reliability.service.ts:12-60 | the number of permits in force under a key is at most its limit |
| Semaphores.SemaphoreStore.AcquirePermit | apps/worker/src/chat/generation-reliability.service.ts:22-35 | the two loops of the script are the specified step |
| Semaphores.SemaphoreStore.RenewPermit | apps/worker/src/chat/generation-reliability.service.ts:43-56 | the counting loop is the specified step |
| Semaphores.SemaphoreStore.ReleasePermit | apps/worker/src/chat/generation-reliability.service.ts:58-60 | the removing loop is the specified step |
| MemoryPolicy.NormalisersAgree | packages/database/src/memory-repository.ts:37 | the two differently ordered normalisers give the same name, provided lower-casing neither makes nor removes white space |
| MemoryPolicy.SimilarityIsAtMostOne | packages/database/src/memory-policy.ts:9-15 | the Dice coefficient is between 0 and 1 |
| MemoryPolicy.SimilarityIsSymmetric | packages/database/src/memory-policy.ts:9-15 | and symmetric |
| MemoryPolicy.NormalizeIsExact | packages/database/src/memory-policy.ts:3 | a text is normalised to its lower-case words, with one blank between two |
| MemoryPolicy.CompactIsExact | packages/database/src/memory-policy.ts:4 | of a normal text exactly the characters that are neither punctuation nor separators are compared, in order |
| MemoryPolicy.GramsAreExact | packages/database/src/memory-policy.ts:5-8 | the pairs of a text are exactly its neighbouring characters |
| MemoryPolicy.SimilarityIsDice | packages/database/src/memory-policy.ts:9-15 | two texts that share at least three pairs are as similar as twice the shared pairs over all pairs, others not at all |
| MemoryPolicy.MatchIsExact | packages/database/src/memory-policy.ts:20-26 | same name scores 3, same description 2, and any other match the larger of the two similarities |
| MemoryPolicy.RankedHoldsMatches | packages/database/src/memory-policy.ts:17-31 | the ranking holds exactly the matches of active memories, but for the excluded one, that score at least 0.55, best first and by id among equals |
| MemoryPolicy.SameNameComesFirst | packages/database/src/memory-policy.ts:22-30 | if a considered memory has the name, the list after threshold and cut starts with a memory of that name |
| MemoryPolicy.NothingRelated | packages/database/src/memory-policy.ts:17-31 | an empty list means that no considered memory has the normalised name |
| MemoryProofs.RunKeepsInv | packages/database/src/memory-repository.ts:124-163 | in every run revisions are exactly 1..version, the newest agrees with the head row in status and name, active names are unique per datasource |
| MemoryProofs.RunEvolves | packages/database/src/memory-repository.ts:124-294 | in every run revisions never change, deletions are final, and a decided candidate stays as decided |
| MemoryProofs.RememberNeverCollides | packages/database/src/memory-repository.ts:165-179 | the review gate lets nothing through that would hit the unique index on active names |
| MemoryProofs.RememberedOnce | packages/database/src/memory-repository.ts:165-174 | a source message that was saved once finds that memory in every later state and saves nothing again |
| MemoryProofs.NoLostUpdates | packages/database/src/memory-repository.ts:140-143 | what was written on top of a version stays readable in every later state, and every later update of that version is refused |
| MemoryProofs.DecideReplays | packages/database/src/memory-repository.ts:270-280 | repeating a successful decision gives the same reply in every later state and writes nothing |
| MemoryRepository.RefusedSaveChangesNothing | packages/database/src/memory-repository.ts:124-163 | a refused save leaves all rows as they were |
| MemoryEffects.SaveEffect | packages/database/src/memory-repository.ts:124-163 | a save succeeds if and only if the user owns the datasource, the memory to be replaced is active and in the version read, and the name is free; then exactly one revision with the given content is added and shown by the head |
| MemoryEffects.CreateEffect | packages/database/src/memory-repository.ts:180-184 | a memory is created with exactly the given name and description, trimmed, if they are within their limits and the save is allowed |
| MemoryEffects.UpdateEffect | packages/database/src/memory-repository.ts:185-197 | an update writes the given name and description and keeps what is not given; a deletion keeps both |
| MemoryEffects.RememberEffect | packages/database/src/memory-repository.ts:165-179 | a message saved before finds exactly its memories; otherwise it is saved exactly if no active memory is related |
| MemoryEffects.ProposeEffect | packages/database/src/memory-repository.ts:198-230 | a candidate is added exactly as proposed, once, and at most ten for a generation |
| MemoryEffects.DecideEffect | packages/database/src/memory-repository.ts:255-294 | an accepted candidate saves the reviewer's edit if there is one and its own content otherwise, under the source message of the candidate, and is then closed with that result; a rejected one is only closed; a repeated decision finds the old one |
| MemoryStores.MemoryStore.SaveMemory | packages/database/src/memory-repository.ts:124-163 | the imperative save leaves the rows and gives the reply of the specified one |
| MemoryStores.MemoryStore.RememberFromConversation | packages/database/src/memory-repository.ts:165-179 | as specified: once per message, behind the review gate |
| MemoryStores.MemoryStore.CreateMemory | packages/database/src/memory-repository.ts:180-184 | as specified |
| MemoryStores.MemoryStore.UpdateMemory | packages/database/src/memory-repository.ts:185-197 | as specified: a patch of the newest content, or a deletion that keeps it |
| MemoryStores.MemoryStore.ProposeMemory | packages/database/src/memory-repository.ts:198-230 | as specified: fence, target check, duplicate, limit of ten |
| MemoryStores.MemoryStore.DecideCandidate | packages/database/src/memory-repository.ts:255-294 | as specified: replay, conflict, rejection and acceptance with its save |
| MemoryStores.MemoryStore.Perform | packages/database/src/memory-repository.ts:124-294 | whichever of them runs, sound rows stay sound and only move forward |

## Left out

- Attempts, metrics, spans, heartbeats and `markFirstDelta`: bookkeeping that the generation's own rows do not depend
  on.
- Message contents, checkpoints and final answers: a snapshot's blocks are an arbitrary input of the history endpoint.
- Redis TTLs and key expiry, in the streams and in the semaphore: keys live as long as the run.
- The `generation.terminal` relay branch and `generation.enqueue` rows: the first is never written, the second only
  starts a BullMQ job.
- Row-level `SKIP LOCKED` visibility: a locking statement is one atomic step, so concurrent relays see disjoint unlocked
  rows.
- Clocks: `next_attempt_at`, lock expiry, heartbeats and staleness are nondeterministic choices.
- Deletion of conversations and datasources, and the cascades it starts.
- EndToEnd.FinishedViewIsFinal: speaks of the view before the fetch that the done event starts
  (apps/web/src/stores/chat.ts:190); `CompletedIsShown` covers that fetch for completed generations.
- Client state set outside registration: `startRealtime`, other calls of `fetchMessages` and reconciliation overwrite
  the sequence, so the fold claim starts at registration with sequence 0; the order of messages in a conversation and
  `animateText` are not modelled.
- Parsing of untyped JSON: patches, tool arguments and payloads arrive as typed values, or as inputs that say whether
  they fit.
- `stableStringify`: a condition signature is a structured value, so equal signatures mean equal conditions; string
  lengths count characters, not UTF-16 units.
- Random ids: an event id is named after its event and never collides; other ids are inputs, and a collision aborts.
- The empty writer token: `finalize` compares `''` with a UUID column, which the model reads as "no token"; an artifact
  write without any token, which skips the fence, is not modelled.
- Overflow of the INTEGER columns for sequences and revisions.
- Workers.CompletedIsShown: its workers open a log only when no log of that title is open (`MayEmit`), and stop emitting
  when their run is over; `TwoOpenLogsDiverge` and `ClosingAgreesExactly` say what happens otherwise.
- Blocks that the worker stores without streaming them (errors pushed on failure in
  apps/worker/src/chat/chat.service.ts), and the wording of status events.
- OutboxRelays.OutboxRelay.Dispatch: the number it returns only decides when the next dispatch is scheduled, which is
  not modelled, so nothing is said about it.
- AnalysisAgents.AnalysisAgent.Run: takes the number of rounds from its input, because the loop itself has no bound;
  activities, progress logs, metrics, provider reasoning and `turnMessages` are not modelled, and the texts of error
  results are constants.
- ContextAssembly.Rank: an insertion sort; `RankingIsUnique` shows that no other sort could differ.
- NormalizeSql.CutsLikePostgres: the reference lexer says nothing reliable about texts that PostgreSQL rejects, such as
  letters right after a number or doubled quotes in a bit string, and takes standard-conforming strings for granted.
- Token weights: the estimate is any measure that adds up over messages.
- Unicode: NFKC and lower-casing are arbitrary functions, the latter character by character (no final-sigma rule).
- Language detection, prompts and `parseMemoryIntent`: arbitrary predicates and inputs.
- Memory reads (`list`, `get`, `snapshot`, `candidates`) and the error texts; ownership of a generation is an input of a
  proposal.
- TableScopes.ValidateTableScopes: reports the error of the first source part before that of other parts, where the
  source follows the key order of the parsed object; `WITH RECURSIVE`, the parser, column masks, LIMIT handling and the
  forbidden-function list are not modelled.
- Authentication, uploads, schema enrichment, suggestions, migrations and the Vue components.

