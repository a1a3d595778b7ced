# Verification of durable conversations, warm memory, knowledge-base deletion, uploads and the query cache

This Dafny project models the parts of the application in which several workers
share state that must not be lost, duplicated or corrupted, and proves what
those parts promise.

* **History store** (`HistoryModel`, `HistorySpec`, `HistoryInvariant`,
  `HistoryRetention`, `HistoryEvolution`, `HistoryRuns`, `HistoryRetries`,
  `HistoryOutcomes`, `Paging`, `HistoryStore`). One workspace's SQLite tables are a value `Db`. Every
  `BEGIN IMMEDIATE` block is a function from a database to a committed database
  or an error; `HistoryStore.ConversationHistoryStore` is the class whose
  methods update the rows statement by statement, with savepoint and rollback,
  and each is proved equal to its function. `HistoryOutcomes` and
  `HistoryRetention` say when each transaction is granted and what it stores, on
  the tables themselves and in numbers. A run is any list of such
  transactions by any workers with any clock readings.
* **Warm memory** (`WarmMemory`, `WarmStates`, `WarmStore`, `OrderedDicts`). The
  lossy in-process copy: ordered insertion, version compare-and-swap, replacing,
  expiry and eviction.
* **The service** (`Workers`, `Hydration`, `HydrationService`, `TurnService`,
  `HistoryTurns`, `ConversationDeletion`). The classes of the application work on
  the stores directly. Between any two of their calls the methods of `Workers`
  run an arbitrary number of arbitrary transactions and memory calls of other
  workers, so each contract says which later state (`Later`, `LaterWarm`: some
  run leads there) a transaction ran on and what the stores hold afterwards. A
  service that is `alone` has no other workers; for it the contracts also say
  exactly what each function does to the database and to the warm copies.
* **Summaries across workers** (`SummarySystem`, `SummaryBounds`,
  `SummaryPaths`, `SummaryRefinement`, `Deployment`, `Simulation`).
  `SummarySystem` is the protocol of one conversation: its row, a warm copy in
  any number of processes, and workers between two steps. `Deployment` is the
  whole: the database, the memory store of every process, and workers whose
  every action is one transaction or one memory call, by the same functions the
  classes are proved against. `Simulation` proves that every run of the
  deployment is, for each conversation, a run of the protocol.
* **Leases** (`LeaseLiveness`): timed runs with a heartbeat.
* **Artifacts** (`Artifacts`, `ArtifactPlans`): which files a deletion may remove.
* **Knowledge-base deletion** (`KnowledgeBaseDeletion`, `KnowledgeBaseOutcome`):
  the ordered, resumable job, and what it leaves of each store. An interruptible
  run stops after any number of single steps (`lifetime`).
* **Uploads** (`Uploads`): the staged-upload transaction over files, vectors and
  the file index.
* **Cache** (`Cache`, `CacheAnswers`): the LRU store, clearing by collection, and
  what lookups answer over any run.

Modelling decisions. Clocks, fresh ids and fresh lease tokens are arguments. A
summary is represented by the list of assistant sequences folded into it, in
order; the text itself is clamped and carries no more. Digests and the cache's
hashes are compared as values, assumed injective where a lemma says so.
Whether the pending store takes a result, a file may be moved or removed, and
indexing succeeds are arguments too. Metadata that is not JSON is in the model,
although no step writes any. Retrieval, generation, indexing and text sizes are arbitrary values.

What the proofs found:

* Summary honesty needs coverage at the moment of the append, not only at the
  sync: an eviction between the two lets the contiguity guard admit a shortened
  summary (`UncoveredAppendIsDishonest`). The swap keeps honesty exactly when
  the cursor of the warm state the job was cut from is the durable cursor
  (`SwapHonestIff`). With covered appends every summary in the database is
  honest in every run of any number of processes (`DatabaseIsHonest`).
* A begin raises an untranslated integrity error exactly when, after its own
  retention pass, it retries a failed turn on the current parent while another
  turn is live (`BeginCollidesIff`); three transactions from the empty database
  lead there (`RetryCollides`).
* A rebuild of a warm copy never happens, however often it is tried, exactly
  when the live copy represents more than the row and its transcript
  (`RehydratesAlone`, for a service that is alone).
* A worker that goes on after its scope key was used for a new row can make the
  new row's cursor overrun its messages (`LeftoverJobOverruns`).
* An archived conversation refuses even the replay of a complete turn
  (`RetryReplays`), and an archived idle stub is removed by retention
  (`ArchivedIsRemovedIff`).
* One retention pass may not be enough; `OnePassIsEnoughIff` says when it is.
* The branch that takes an expired lease over in place is never reached from a
  begin, which cleans up first with the same clock (`NoTakeoverInPlace`).
* A delete job killed right after it took the data sources out of the settings
  ends, when rerun, without exactly the owner's secrets. That is the end of an
  uninterrupted run if and only if every stored reference of those sources is
  under the owner's prefix (`KillAfterSources`); `KilledJobKeepsSecret` is an
  input on which it is not. The application's own settings writer keeps the
  condition: it stores the secrets of every base but the default under that
  prefix (app/app.py:4519-4528), refuses to move a source between bases
  (app/app.py:743-752), and the default base cannot be deleted. The job itself
  does not check it.
* A failed upload restores the vectors of its source exactly when something of
  the upload existed before or there were none (`IndexStagedUpload`);
  `OrphanVectorsAreLost` is an upload that loses them.

## Model

| member | source | states |
|---|---|---|
| HistoryRuns.ReachableOk | app/utils/conversation_history_store.py:229-231 | from an empty database, after any run of any transactions: dense alternating transcripts, payload sums, chains, unique slots, leases exactly on live rows, the scope index, and all five quotas hold |
| HistoryInvariant.ApplyKeeps | app/utils/conversation_history_store.py:438-1115 | every one of the fourteen transactions, at any clock reading, keeps all of these invariants |
| HistoryInvariant.LinearHistory | app/utils/conversation_history_store.py:649-680 | walking parents back from last_turn_id visits every complete turn once, in transcript order, ending at the null parent; at most one turn is live, its parent is last_turn_id, an archived conversation has none |
| HistoryRetries.BeginCollidesIff | app/utils/conversation_history_store.py:438-621 | a whole begin, with its retention pass, raises the index error if and only if afterwards the scope's active conversation holds the failed turn on its current parent and another turn is live (or the id drawn for a new scope is taken) |
| HistoryRetries.RetryCollides | app/utils/conversation_history_store.py:590-621 | begin, fail, begin another: a database reached from the empty one whose next retry raises it |
| HistoryOutcomes.NewTurnOutcome | app/utils/conversation_history_store.py:509-553 | a turn its conversation does not know is reserved if and only if the conversation is active, the request names its last turn as parent, fewer rows are pending than the limit and no turn is live; then exactly one row is added, generating, with that parent, fingerprint and token and the lease end now + lease_seconds; each failing condition gives its own refusal |
| HistoryOutcomes.KnownTurnOutcome | app/utils/conversation_history_store.py:561-647 | a known turn is refused on another fingerprint, replayed when complete, reported when ready, still running when generating, and when failed gets a fresh lease on the same row if and only if its parent is still the last turn and no turn is live |
| HistoryOutcomes.NewScopeOutcome | app/utils/conversation_history_store.py:692-715 | the first turn of a scope is granted exactly below both quotas, under an unused id and without a parent; the new conversation is active and holds this one row |
| HistoryOutcomes.MalformedBegin | app/utils/conversation_history_store.py:465-470 | a begin is malformed exactly without a turn id or fingerprint, or with one longer than 80 or 64 characters |
| HistoryOutcomes.GrantIsHeld | app/utils/conversation_history_store.py:522-621 | whoever is granted a turn holds its lease, on a row with the request's fingerprint, until now + lease_seconds |
| HistoryInvariant.CompleteTurnKeeps | app/utils/conversation_history_store.py:902-993 | completing without re-checking the parent still keeps the chain, the layout and every quota |
| HistoryOutcomes.HolderCompletes | app/utils/conversation_history_store.py:890-993 | a completion by the lease holder with texts within their limits is saved if and only if the four quotas, written out in numbers, leave room; it then appends exactly this pair with its sources, metadata, references and bytes, completes the row, selects exactly the named knowledge bases and touches no other conversation |
| HistoryOutcomes.OthersDoNotComplete | app/utils/conversation_history_store.py:868-895 | any other completion changes nothing: too long, not found, replayed or in conflict, in this order |
| HistoryOutcomes.BytesAreTheEncoding | app/utils/conversation_history_store.py:69-70 | the bytes counted for a text are the length of its UTF-8 encoding |
| HistoryInvariant.BeginKeeps | app/utils/conversation_history_store.py:438-559 | a begin, with its retention pass, new stub, association and reservation, keeps every invariant or rolls back |
| HistoryInvariant.CleanupKeeps | app/utils/conversation_history_store.py:1769-1861 | a retention pass keeps every invariant |
| HistoryRuns.LostLeaseIsDead | app/utils/conversation_history_store.py:735-1070 | once a row does not carry a token, that token never again stages, renews, fails, completes or recovers the turn, whatever runs in between |
| HistoryRuns.ForeignTokenIsInert | app/utils/conversation_history_store.py:810-843 | a worker without the row's current token changes nothing |
| HistoryOutcomes.HolderActs | app/utils/conversation_history_store.py:810-1070 | marking ready, renewing and failing succeed for the holder of the lease, generating or ready, and for nobody else; each changes its own columns of this row and nothing more |
| HistoryOutcomes.RecoveryOutcome | app/utils/conversation_history_store.py:735-808 | a recovery is granted if and only if the fingerprint is the row's, the row is ready and its lease is the one observed; the row is then generating without a digest under the new token until now + lease_seconds |
| HistoryOutcomes.ReadyIsReported | app/utils/conversation_history_store.py:578-588 | a begin of a ready turn that has not outlived the incomplete retention reports the row's own digest, token and lease end |
| HistoryRuns.RecoveredAtMostOnce | app/utils/conversation_history_store.py:735-808 | of all recoveries that observed the same lease at most one obtains a new one, over any later run |
| HistoryRuns.ConversationGrows | app/utils/conversation_history_store.py:1301-1414 | until deleted, a conversation only extends its transcript, keeps complete turns and knowledge bases, never moves its cursor back, and an unchanged summary version means an unchanged summary |
| HistoryRuns.OnePairPerTurn | app/utils/conversation_history_store.py:902-993 | a complete turn has exactly one user and assistant pair, adjacent, with an even assistant sequence; any other turn has no message |
| HistoryRuns.PairIsPermanent | app/utils/conversation_history_store.py:1947-1961 | the pair read for a complete turn is the same in every later state |
| HistoryRuns.CompletionIsIdempotent | app/utils/conversation_history_store.py:880-888 | repeating a completion after any run returns the original pair and changes nothing |
| HistoryRuns.RetryReplays | app/utils/conversation_history_store.py:561-588 | a later begin with the same fingerprint replays the original pair if the conversation is not archived and is refused if it is |
| HistoryRuns.BeginRecordsOwnership | app/utils/conversation_history_store.py:496-508 | a granted or replayed begin has recorded every knowledge base it names |
| HistoryRuns.PlanSurvives | app/utils/conversation_history_store.py:1435-1478 | a safe artifact plan is returned unchanged by every retry after the conversation is gone, until acknowledged |
| HistoryStore.ConversationHistoryStore.ArtifactCleanupPlanLocked | app/utils/conversation_history_store.py:1542-1577 | the loop over every message of the workspace computes the specified plan: exclusive references of the target, and none at all once any metadata is unreadable |
| ArtifactPlans.PlanSparesRetained | app/utils/conversation_history_store.py:1542-1577 | in every state that satisfies the invariant, a plan never names an upload, an image (listed or not) or a run directory a retained conversation references |
| ArtifactPlans.PlanReachesTheRest | app/utils/conversation_history_store.py:1542-1577 | when every message can be read, the plan names every artifact a deleted conversation references and no retained one does |
| ArtifactPlans.RetriedPlanSparesRetained | app/utils/conversation_history_store.py:1435-1466 | nor does the plan a retry finds after any run, for what was retained when the conversation was deleted |
| ConversationDeletion.ConversationRemoval.DeleteConversation | app/utils/conversation_service.py:859-915 | volatile state goes first: while it cannot be cleared neither row nor file is touched; exactly the scope's warm copy and staged results go and all others stay, no file a retained conversation references is touched, unreadable metadata means no file is touched, success leaves nothing the plan names and no outbox entry, failure keeps the entry |
| HistoryEvolution.StepEvolves | app/utils/conversation_history_store.py:438-1414 | all any transaction can do to a conversation it leaves: append, commit or swap, keep complete rows, issue only its own token |
| HistoryEvolution.OnlySummariesSwap | app/utils/conversation_history_store.py:1371-1414 | no transaction but update_summary changes summary, cursor or version |
| HistoryRetention.CleanupSpares | app/utils/conversation_history_store.py:1769-1861 | a pass spares an unexpired generating turn, complete turns and transcripts of kept conversations, archived ones with messages, and active ones with a live turn |
| HistoryRetention.RetentionIsExact | app/utils/conversation_history_store.py:1782-1853 | in days of 24 hours: which conversations and which rows a pass removes, if and only if, and that of the rows that stay exactly those whose lease has run out become failed |
| HistoryRetention.RetentionKeepsTheRest | app/utils/conversation_history_store.py:1782-1853 | scopes go with their conversations and nothing else goes |
| HistoryRetention.ArchivedIsRemovedIff | app/utils/conversation_history_store.py:1836-1853 | an archived conversation is removed if and only if it is an idle stub whose turns are all stale |
| HistoryRetention.ArchivedStubIsRemoved | app/utils/conversation_history_store.py:1836-1853 | a concrete archived stub that is removed |
| HistoryRetention.TwoPassesConverge | app/utils/conversation_history_store.py:1769-1861 | a third pass at the same time changes nothing after two |
| HistoryRetention.OnePassIsEnoughIff | app/utils/conversation_history_store.py:1793-1834 | one pass is enough if and only if no old conversation is held only by stale ready turns |
| HistoryRetention.OnePassMayNotConverge | app/utils/conversation_history_store.py:1793-1834 | a valid database on which the second pass deletes what the first kept |
| HistoryRetention.NoTakeoverInPlace | app/utils/conversation_history_store.py:623-647 | after the pass a begin makes, a generating row is never taken over in place |
| HistoryStore.ConversationHistoryStore.BeginTurn | app/utils/conversation_history_store.py:438-559 | cleanup, quota, scope, association, existing row or insert, with rollback, do exactly what the specification says and keep the store valid |
| HistoryStore.ConversationHistoryStore.HandleExistingTurn | app/utils/conversation_history_store.py:561-647 | the five branches for an existing row match the specification |
| HistoryStore.ConversationHistoryStore.RecoverReadyTurn | app/utils/conversation_history_store.py:735-808 | invalidates a ready row only for its fingerprint, status and observed lease |
| HistoryStore.ConversationHistoryStore.CompleteTurn | app/utils/conversation_history_store.py:845-1007 | validation, replay, fencing, quotas, the pair and the counters, as specified |
| HistoryStore.ConversationHistoryStore.SelectKnowledgeBases | app/utils/conversation_history_store.py:1963-2009 | upserting then unselecting row by row selects exactly the named ones and keeps every association |
| HistoryStore.ConversationHistoryStore.EnforceQuotas | app/utils/conversation_history_store.py:2079-2114 | refuses if and only if one of the four quotas leaves no room for the pair, with the sum computed by a loop |
| HistoryStore.ConversationHistoryStore.CleanupExpiredLocked | app/utils/conversation_history_store.py:1769-1861 | the four table statements in order equal the per-conversation specification of a pass |
| HistoryStore.ConversationHistoryStore.UpdateSummary | app/utils/conversation_history_store.py:1371-1414 | swaps version and cursor only on the expected version and a higher cursor |
| HistoryStore.ConversationHistoryStore.UpdateConversation | app/utils/conversation_history_store.py:1301-1369 | archiving is refused while a turn is live |
| HistoryOutcomes.ResetOutcome | app/utils/conversation_history_store.py:1077-1115 | resetting answers with the turn of the last message, if any, and fails exactly the generating turns whose lease has run out |
| HistoryOutcomes.UpdateOutcome | app/utils/conversation_history_store.py:1301-1369 | archiving is refused exactly while a turn is live; otherwise only the flag, as asked, and the clock change |
| HistoryOutcomes.SummaryOutcome | app/utils/conversation_history_store.py:1371-1414 | a summary is stored if and only if the scope exists, its version is the expected one and the cursor goes up |
| HistoryStore.ConversationHistoryStore.DeleteByKnowledgeBaseWithCleanup | app/utils/conversation_history_store.py:1603-1643 | deletes exactly the users of the knowledge base and stores or replays the plan in one transaction |
| HistoryStore.ConversationHistoryStore.DeleteWithArtifactCleanup | app/utils/conversation_history_store.py:1435-1466 | the same for one conversation |
| HistoryOutcomes.DeleteWithPlanOutcome | app/utils/conversation_history_store.py:1435-1478 | exactly this conversation and its scope go; the plan is stored under its key if and only if every message of the workspace can be read; a repeat answers with the stored plan or an unsafe one |
| HistoryOutcomes.DeleteByBaseOutcome | app/utils/conversation_history_store.py:1603-1643 | the same for all conversations that name the base, selected or not |
| HistoryStore.ConversationHistoryStore.ListMessagesAfterSequence | app/utils/conversation_history_store.py:1212-1243 | for any cursor, the slice of the transcript after it, at most a page, with the last sequence as the next cursor exactly when more follow |
| HistoryStore.ConversationHistoryStore.ListMessages | app/utils/conversation_history_store.py:1170-1210 | for any cursor or none, the slice of the transcript that ends before it, at most a page, with the first sequence as the next cursor exactly when older messages remain |
| Paging.FollowBackIsTranscript | app/utils/conversation_history_store.py:1170-1210 | following next_cursor backwards yields the whole transcript with no gap or repeat, for any page size |
| Paging.PageAfterIs | app/utils/conversation_history_store.py:1212-1243 | which slice a forward page holds and when another follows |
| WarmMemory.InsertionIsOrderInsensitive | app/utils/conversation_memory.py:964-988 | any two orders, with repetitions, of the same sequenced turns leave the same strictly ascending list of exactly those above the cursor |
| WarmMemory.InsertTurnOrders | app/utils/conversation_memory.py:964-988 | with unsequenced turns anywhere between, insertion keeps the sequenced ones ascending and adds exactly the missing one |
| WarmMemory.InsertTurnSplices | app/utils/conversation_memory.py:964-988 | inserting changes no turn: the new one stands at one place, at the end without a sequence, or is left out exactly when its sequence is summarized or there already |
| WarmStates.SwapIsCorrect | app/utils/conversation_memory.py:156-185 | over any run of appends and applications a job's version matches only while the turns are its prefix plus its suffix and the summary the one it extends |
| WarmStates.JobCutsAtRecent | app/utils/conversation_memory.py:411-414 | an oversize state is cut exactly when it has two turns or more than `keep`; the job splits its turns before the newest `keep`, or before the last of a list no longer than that |
| WarmStates.AppendRaisesVersion | app/utils/conversation_memory.py:159-169 | an append that brings neither a turn nor a knowledge base leaves the version alone, any other raises it by one |
| WarmStates.ApplyKeepsCoverage | app/utils/conversation_memory.py:307-320 | on fully sequenced states applying a matching job keeps coverage, order above the advanced cursor and the highest sequence |
| WarmStates.ReplaceNeverLowers | app/utils/conversation_memory.py:273-277 | a replacement, accepted or refused, ends at the higher of the two highest sequences |
| WarmStore.InsertTurnBySequence | app/utils/conversation_memory.py:964-988 | the scanning loop inserts where the specification does and reports whether it added |
| WarmStore.StateCoversSequence | app/utils/conversation_memory.py:991-1009 | true exactly when every even sequence up to the target is summarized or present |
| WarmStore.DurableStateSequence | app/utils/conversation_memory.py:945-954 | the loop computes the highest sequence represented |
| WarmStates.HighestIsMaximum | app/utils/conversation_memory.py:945-961 | that value bounds the cursor and every turn and is attained |
| WarmStore.JobThroughSequence | app/utils/conversation_memory.py:45-54 | the cursor of a job, none when it is empty or holds an unsequenced turn |
| WarmStore.ConversationMemoryStore.PurgeExpired | app/utils/conversation_memory.py:397-405 | removes exactly the entries older than the ttl |
| WarmStore.PurgeKeepsRecent | app/utils/conversation_memory.py:397-405 | a copy survives exactly when it was touched within the time to live, and unchanged |
| WarmStore.ConversationMemoryStore.AppendTurn | app/utils/conversation_memory.py:138-185 | the purged, appended, moved and evicted dictionary; a job comes out if and only if the turn was added, the new state is oversize and has two turns or more than `keep`, and it leaves the newest `keep` turns, or the last one, as recent |
| WarmStore.ConversationMemoryStore.ApplySummary | app/utils/conversation_memory.py:307-320 | applies exactly when the live state has the job's version; the copy then has the summary, only the job's recent turns, the advanced cursor and the next version |
| WarmStore.ConversationMemoryStore.ReplaceFromDurable | app/utils/conversation_memory.py:258-292 | refuses exactly a snapshot below the live state's highest sequence; an accepted one is what the copy holds afterwards |
| WarmStore.ConversationMemoryStore.ClearIfVersion | app/utils/conversation_memory.py:329-344 | clears only the state a snapshot saw |
| WarmStore.ConversationMemoryStore.ClearByKnowledgeBase | app/utils/conversation_memory.py:367-385 | removes exactly the single-base chats and the multi-chats that use the base, and counts them |
| WarmStore.OnlyItsOwnCopies | app/utils/conversation_memory.py:372-385 | a chat of another base is not among those cleared, nor a multi-chat that did not select the base |
| WarmStore.AppendIsKept | app/utils/conversation_memory.py:387-409 | with room for one entry the appended state survives purge and eviction |
| WarmStore.OthersKeepOrLose | app/utils/conversation_memory.py:387-409 | a call for one conversation leaves every other as it was or drops it |
| WarmStore.ReplaceInNeverLowers | app/utils/conversation_memory.py:258-292 | in the store, a replace never lowers the highest sequence of a live conversation |
| SummarySystem.SummaryHonesty | app/app.py:1631-1666 | in every reachable state with covered appends, whatever process they went to, the durable cursor is even and at most the message count, the summary is exactly 2, 4, .., cursor, and every process's copy is honest and without a gap |
| Simulation.DatabaseIsHonest | app/app.py:1619-1668 | in every database any number of processes can produce with covered appends, the stored summary of each conversation is exactly 2, 4, .. up to its stored cursor, and every copy in every process, but for those left from an earlier row of the scope key, is honest |
| Simulation.RunSimulates | app/utils/conversation_service.py:591-719 | every interleaving of transactions and memory calls is, for each conversation, a run of the protocol from its start state, covered if every append was |
| Simulation.ActionSimulates | app/utils/conversation_memory.py:138-320 | each transaction or memory call of any worker in any process is zero or more protocol events of every conversation it leaves |
| Simulation.LeftoverJobOverruns | app/app.py:1631-1661 | a job cut from an earlier row's first turns passes the guard and wins the swap of a new row under the same scope key, and its cursor overruns the new row's messages |
| Simulation.DatabaseRuns | app/utils/conversation_history_store.py:438-1478 | the database of a deployment is one a run of the history store reaches |
| SummaryBounds.RunBounded | app/app.py:1619-1668 | covered or not, every cursor and sequence in row, copies and jobs stands on an assistant message of the transcript |
| SummarySystem.EventKeeps | app/utils/conversation_service.py:649-719 | each atomic step of each worker, stale, crashed or racing, keeps the system honest |
| SummarySystem.SwapHonestIff | app/app.py:1641-1661 | an admitted job keeps the durable summary honest if and only if its warm cursor is the durable cursor |
| SummarySystem.UncoveredAppendIsDishonest | app/app.py:1641-1661 | a run in which every worker synced and one eviction makes the durable summary lose sequence 2 |
| SummarySystem.FollowingJobStartsAtCursor | app/app.py:1641-1655 | the contiguity guard pins an honest job to the cursor it is persisted on |
| SummarySystem.JobFollowsIff | app/app.py:1631-1655 | a job passes the guard if and only if it summarizes one or more turns, the ones right after the cursor, without a gap |
| SummarySystem.AppendKeeps | app/utils/conversation_memory.py:138-185 | appending to a covering honest state keeps it contiguous |
| SummaryRefinement.CompletionIsCommit | app/utils/conversation_history_store.py:940-993 | a saved completion adds two to the count and its assistant sequence is the new count |
| SummaryRefinement.OthersCommitAtMost | app/utils/conversation_history_store.py:438-1414 | every other transaction leaves the row's protocol columns or commits |
| Workers.EvenReachable | app/utils/conversation_history_store.py:1371-1414 | as the application's summary writers only pass assistant sequences, every cursor reachable from the empty database is even |
| Hydration.FoldIsCompaction | app/utils/conversation_service.py:671-703 | folding messages one by one keeps exactly the newest turns, at most `keep`, and folds everything between the two cursors |
| HydrationService.FoldPage | app/utils/conversation_service.py:679-703 | the message loop of one page, with a user message carried across pages |
| HydrationService.NextPage | app/utils/conversation_service.py:673-708 | the next cursor always advances and the last page completes the tail |
| HydrationService.ConversationService.StreamTail | app/utils/conversation_service.py:661-708 | the paged loop terminates and folds exactly the transcript after the cursor, while others commit between pages |
| HydrationService.PagedCompactionIsSimple | app/utils/conversation_service.py:649-719 | its result is exactly the turns after the new cursor, `keep` of them or all if there are fewer, with everything between the two cursors folded |
| HydrationService.CompactionIsAFold | app/utils/conversation_service.py:649-719 | and it is the fold step of the summary protocol |
| HydrationService.ConversationService.CompactedHydrationTail | app/utils/conversation_service.py:649-719 | persists a moved cursor by compare-and-swap or reports contention |
| HydrationService.ConversationService.HydrateForPrompt | app/utils/conversation_service.py:591-647 | when it returns true the warm copy covers the row read at the call, carries its knowledge bases and is the compaction of a transcript that continues the row's, whoever commits in between; alone, it returns true exactly when there is a row and no live copy refuses the snapshot |
| HydrationService.CaughtUpIsExact | app/utils/conversation_service.py:616-719 | such a copy holds the newest `keep` turns of the transcript word for word, or all after the row's cursor if there are fewer, its summary stands for the row's summary and every turn in between, and it carries every associated knowledge base, selected or not |
| HydrationService.ConversationService.RehydrateForPrompt | app/utils/conversation_service.py:572-589 | the same for some row that was current during the attempts; alone, it succeeds exactly when there is a row and the live copy is not ahead of it |
| HydrationService.ConversationService.SyncForPrompt | app/utils/conversation_service.py:530-570 | skips only a copy that covered the count and knows the knowledge bases; alone, it skips exactly such a copy and rebuilds any other that is not ahead of the row |
| HydrationService.CompactionCovers | app/utils/conversation_service.py:649-719 | what the loop returns covers all it has seen |
| TurnService.PendingTurnStore.Get | app/utils/pending_turn_store.py:195-233 | with a lease token, exactly the record under it |
| TurnService.TurnLifecycle.BeginTurn | app/utils/conversation_service.py:197-324 | the reservation runs on a later state of the database at the call; a ready row is answered from the pending store as it is then, by the record under the row's token and digest, with the only payload of that digest; otherwise nothing is granted unless recovery was requested, and then only by a committed recovery; nothing else changes the stores |
| TurnService.AtMostOneRecovers | app/utils/conversation_service.py:197-324 | of any number of begins that saw the same lost result, in any interleaving with anything else, at most one obtains a lease |
| TurnService.ReadyBeginKeepsRows | app/utils/conversation_history_store.py:561-588 | a begin that finds its turn ready changes no row beyond its retention pass, so without recovery the row stays ready under its token |
| TurnService.TurnLifecycle.StageResult | app/utils/conversation_service.py:326-357 | the record is put before the mark; staged if and only if the record was accepted and the token is the turn's lease in the later state the mark runs on; otherwise the record is withdrawn |
| TurnService.TurnLifecycle.CompleteTurn | app/utils/conversation_service.py:359-468 | completes on the database at the call, withdraws exactly its staged record, and appends the saved sequence to the warm copy it finds or rebuilds it on a replay |
| TurnService.TurnLifecycle.FailTurn | app/utils/conversation_service.py:470-485 | withdraws exactly its record before the others' next steps, then leaves exactly what failing under the token leaves of a later state; without a token it leaves everything alone |
| TurnService.ReadyIsTheRow | app/utils/conversation_history_store.py:578-588 | a ready outcome carries the row's own digest and token, which are always there |
| TurnService.MarkedRow | app/utils/conversation_history_store.py:810-843 | a committed mark leaves the row ready, found under its scope and turn, with this token and digest |
| TurnService.StagedTurnReplays | app/utils/conversation_history_store.py:561-588 | as long as retention keeps the row, a begin returns its digest and token |
| TurnService.StagedIsReplayed | app/utils/conversation_service.py:197-357 | the round trip: a granted turn staged under its token is marked, and until the incomplete retention a begin that finds the record answers with this token, digest and payload |
| TurnService.RefusalsAreReported | app/utils/conversation_service.py:205-240 | which errors of the reservation become a status and which propagate |
| HistoryTurns.HistoryTurnFlow.PersistHistorySummary | app/app.py:1619-1668 | swaps in only a job that follows the cursor of the row read at the call, on the version read then, in a later state; any other job writes no summary of its own; alone, a following job is always persisted and applied to the copy it was cut from, and anything else rebuilds the copy |
| HistoryTurns.HistoryTurnFlow.CompleteHistoryTurn | app/app.py:1430-1550 | marks the row first if the result was taken, reports saved exactly for a completion that committed on a later state, and then the pair is still there at the end as long as the conversation is; the pair is appended to a later warm copy and the job this cuts goes through guard and swap; a conflict changes nothing, any other error fails the turn under its token; alone, each step runs on exactly what the one before left |
| HistoryTurns.SavedForGood | app/app.py:1430-1550 | a saved pair is read back unchanged in every later state that still has the conversation |
| HistoryTurns.HistoryTurnFlow.BeginHistoryTurn | app/app.py:1222-1346 | answers as the service does on the stores at the call; a turn to be generated or replayed finds its warm copy covering the row or rebuilds it; alone, it is found current exactly when it is, and otherwise rebuilt unless it is ahead of the row, and any other reply touches no copy |
| HistoryTurns.CommittedCompletion | app/utils/conversation_history_store.py:845-1007 | after any committed completion the turn is complete with one pair, which the outcome reports and which holds what was sent |
| HistoryTurns.ExpectedSequences | app/app.py:1646-1648 | the expected list is every second sequence after the cursor |
| LeaseLiveness.HeartbeatKeepsLease | app/app.py:1774-1798 | if every renewal lands within two thirds of the lease after its interval, no interleaving of other transactions, cleanups and resets takes the lease away |
| LeaseLiveness.IntervalIsAThird | app/app.py:1775 | the heartbeat interval is a third of the lease between 0.75 and 90 seconds, half a minute above and a quarter of a second below; it is at most a third if and only if the lease is at least 0.75 seconds |
| LeaseLiveness.LeaseHoldsIff | app/utils/conversation_history_store.py:1782-1793 | cleanup and reset fail the turn exactly after its lease ended |
| Artifacts.ReferencesFromPayload | app/utils/conversation_artifacts.py:94-132 | extracted references are well formed: valid names, every image with its run |
| Artifacts.ReferencesAreExact | app/utils/conversation_artifacts.py:94-132 | extraction is complete: the valid attachment ids, every picture listed by its public path, the run and the runs of the pictures, and nothing else |
| Artifacts.NamesAreExact | app/utils/conversation_artifacts.py:234-296 | what references name on disk: every file of a listed attachment, listed images and all images of a listed run, listed run directories |
| Artifacts.ExclusiveSparesRetained | app/utils/conversation_artifacts.py:135-155 | exclusive references reach nothing a retained conversation references, under any file name |
| Artifacts.ExclusiveReachesTheRest | app/utils/conversation_artifacts.py:135-155 | and everything else the target references |
| Artifacts.ArtifactFolders.Cleanup | app/utils/conversation_artifacts.py:158-211 | removes exactly the named, deletable entries and reports an error exactly when one is left |
| Artifacts.ArtifactFolders.CleanupPictures | app/utils/conversation_artifacts.py:251-268 | removes listed images and every image of a listed run |
| KnowledgeBaseDeletion.DeleteJob.Run | app/routes/knowledge_bases.py:644-948 | wherever a run stops it continues to the same final state, counters never decrease, deleted conversations leave no volatile state, and only secrets that are named or owned go; a finished run is there, with exactly those secrets gone, and its counters report exactly what there was to remove, or more if an earlier run had counted more |
| KnowledgeBaseDeletion.DeleteJob.InterruptAndRerun | app/routes/knowledge_bases.py:712-948 | any number of runs, each killed after any number of steps, job-record writes included, and a final one end where one uninterrupted run ends, for the secrets if all of them are under the owner's prefix, and otherwise between that and the owner's secrets gone |
| KnowledgeBaseDeletion.DeleteJob.KillAfterSources | app/routes/knowledge_bases.py:787-806 | killed right after the settings change and rerun, the job ends with the secrets of an uninterrupted run if and only if every stored reference of the sources is under the owner's prefix |
| KnowledgeBaseDeletion.KilledJobKeepsSecret | app/routes/knowledge_bases.py:787-806 | a settings file on which one run removes a secret and the killed and rerun job keeps it |
| KnowledgeBaseDeletion.DeleteJob.RemoveSources | app/routes/knowledge_bases.py:763-790 | the base's data sources leave the settings and exactly their references are remembered, in this run only |
| KnowledgeBaseDeletion.DeleteJob.RemoveSecrets | app/routes/knowledge_bases.py:791-808 | the remembered references, wherever they are stored, and everything under the owner's prefix go, and nothing else |
| KnowledgeBaseDeletion.DeleteJob.RemoveFiles | app/routes/knowledge_bases.py:810-828 | collection, data folder and upload folder are gone afterwards |
| KnowledgeBaseDeletion.DeleteJob.ClearVolatile | app/routes/knowledge_bases.py:830-870 | no cache entry, warm state or staged result of any user of the knowledge base is left |
| KnowledgeBaseDeletion.DeleteJob.DeleteHistory | app/routes/knowledge_bases.py:871-907 | durable rows go only after their volatile state, and the plan is applied before it is acknowledged |
| KnowledgeBaseDeletion.DeleteJob.ClearJobs | app/routes/knowledge_bases.py:909-915 | checkpoint 5 is written only when nothing but API keys and catalog is left |
| KnowledgeBaseDeletion.DeleteJob.FinalizeKeys | app/routes/knowledge_bases.py:917-948 | keys, then catalog, then the last checkpoints end in the final state |
| KnowledgeBaseDeletion.CascadeLeavesNoOrphans | app/routes/knowledge_bases.py:860-871 | when the cascade commits, no deleted conversation has a warm or staged entry and others are untouched |
| KnowledgeBaseDeletion.CascadeOutcome | app/utils/conversation_history_store.py:1603-1643 | a rerun of the cascade finds the same plan and reaches the same database |
| KnowledgeBaseOutcome.SettingsOutcome | app/routes/knowledge_bases.py:763-948 | the final state, item by item: catalog, data sources, vectors, folders, cached answers and jobs lose exactly what names the base |
| KnowledgeBaseOutcome.SecretsOutcome | app/routes/knowledge_bases.py:791-808 | a secret goes if and only if it stands under the base's own prefix or one of its data sources names it |
| KnowledgeBaseOutcome.OtherBasesSecretsStay | app/utils/secret_store.py:54-62 | a secret stored for another base stays unless a source of this base names it |
| KnowledgeBaseOutcome.ConversationsOutcome | app/routes/knowledge_bases.py:871-907 | exactly the conversations that name the base go, with their scopes and the plan; every other row stays as it is |
| KnowledgeBaseOutcome.VolatileOutcome | app/routes/knowledge_bases.py:830-870 | a warm copy or staged result goes if and only if it stands under the base's prefix, under the scope of a conversation that used it, or is a multi-chat that selected it |
| KnowledgeBaseOutcome.ArtifactsOutcome | app/routes/knowledge_bases.py:871-907 | only artifacts that the deletion's plan names go, and none when it is unsafe |
| KnowledgeBaseOutcome.KeysOutcome | app/utils/user_store.py:840-866 | API keys lose exactly the base; a key is disabled if and only if it was its only one and a scope of the key needs a base or it may not manage bases |
| KnowledgeBaseDeletion.RetainCount | app/routes/knowledge_bases.py:665-669 | whatever is observed, no counter goes down |
| KnowledgeBaseDeletion.AddCount | app/routes/knowledge_bases.py:671-675 | whatever is added, no counter goes down |
| Uploads.UploadStores.IndexStagedUpload | app/app.py:4168-4203 | it succeeds exactly when the staged file is there, every move is allowed and indexing succeeds; on failure files, transcript, index entry and other entries are as before, and the vectors if and only if a file, a transcript or an index entry existed before or there were none; on success the new file, vectors and recorded entry are in place |
| Uploads.OrphanVectorsAreLost | app/app.py:4296-4337 | a failed upload over vectors without file or index entry, which are gone afterwards |
| Uploads.UploadStores.CommitStagedUpload | app/app.py:4206-4285 | a move that fails leaves the files exactly as they were |
| Uploads.UploadStores.RollbackCommittedUpload | app/app.py:4296-4337 | restores files, vectors and the index entry, which comes back in front |
| Uploads.UploadStores.RestoreUploadFiles | app/app.py:4340-4365 | from any point of the commit, every path but the staged file and the OCR sidecar holds what it held |
| Uploads.UploadStores.FinalizeCommittedUpload | app/app.py:4368-4380 | both backups are removed or reported as refused |
| Uploads.WithEntryIsExact | app/utils/file_index.py:82-92 | restoring sets exactly one entry and keeps the content and order of all others |
| Uploads.OthersCount | app/utils/file_index.py:69-80 | all entries of the file name go, however many, and no other entry does |
| Uploads.OthersJoins | app/utils/file_index.py:69-80 | the entries that stay keep their order |
| Uploads.FindLastIs | app/utils/file_index.py:69-80 | the entry a removal reports is the last of its file name |
| Uploads.FileIndex.Remove | app/utils/file_index.py:69-80 | drops exactly the entries of the file name, returns the last of them and keeps the order of the rest |
| Uploads.FileIndex.Record | app/utils/file_index.py:38-61 | replaces them by one new first entry |
| Cache.ClearsExactlyItsReaders | app/utils/cache.py:156-179 | a key is cleared if and only if its query reads the collection, alone or among others |
| Cache.AfterClear | app/utils/cache.py:257-284 | after a clear no reader of the collection is cached and every other entry still is |
| Cache.TokenInKey | app/utils/cache.py:165-175 | a token occurs in a multi-collection key exactly when one of its names has that hash |
| Cache.RAGCache.ClearCollection | app/utils/cache.py:257-284 | removes exactly the keys with the prefix or the token, counts them, and keeps the others with their values and their order |
| Cache.RAGCache.Get | app/utils/cache.py:184-213 | the stored answer exactly while it is not older than its time to live; an older one is dropped |
| CacheAnswers.KeysTellRequestsApart | app/utils/cache.py:156-179 | two requests share a key if and only if they agree on query, k, model and namespace, where an empty namespace is the stateless one, unless the truncated hash collides |
| CacheAnswers.QueriesNameTheirCollections | app/utils/rag_engine.py:792-802 | a query built by the retrieval names exactly its collection, a federated one exactly all of its |
| CacheAnswers.AnswersAreTheLastSaved | app/utils/cache.py:156-284 | over any run of lookups, saves and clears: a cached answer is the last one saved for an equal request, not cleared since nor found too old, and it stays cached while fewer than the maximum of other requests came since |
| CacheAnswers.LookupServes | app/utils/cache.py:184-213 | what a lookup then returns, with its time to live: that answer, or nothing |
| Cache.EvictsLeastRecentlyUsed | app/utils/cache.py:82-92 | after any operations, a set evicts nothing while there is room and otherwise exactly the least recently used key |
| Cache.RunKeeps | app/utils/cache.py:62-111 | after any operations the cache is within its size and ordered by last use |
| Cache.SimpleLRUCache.Get | app/utils/cache.py:68-80 | drops an expired entry, otherwise returns it and moves it to the end |
| Cache.SimpleLRUCache.Set | app/utils/cache.py:82-92 | stores last and evicts at most one |

## Left out

- Titles, descriptive columns, agent and provider names, message types and prompt references: copied, never tested.
- Summary and turn texts, their clamping and rendering: a summary is the list of folded sequences, and whether a state is over the threshold is an arbitrary predicate of it.
- The Redis variants of memory, pending results and cache, and glob scans: they need an unseen server's semantics.
- Normalisation of identifiers (strip, lower case), directory ancestor and symlink safety checks of artifact roots, and outbox rows with corrupt JSON.
- SummarySystem.SummaryHonesty: the lifetime of one conversation row, with every turn of the conversation saved durably; turns appended without a sequence are not part of it.
- Simulation.DatabaseIsHonest: when a scope key is used again, workers of the earlier row take no further step (Simulation.LeftoverJobOverruns shows why) and no turn is appended to a live copy of the earlier row, whose turns belong to another transcript; the original relies on fresh client ids and the expiry of the copies for both.
- WarmStore.ConversationMemoryStore.AppendTurn: the maximum number of entries is a natural number; a negative one makes the original raise.
- TurnService.TurnLifecycle.BeginTurn: clearing of volatile state for conversations removed by retention, which is best effort in the original, is not modelled; other workers may withdraw staged results at any time instead.
- append_turn_once, snapshot and the rendering calls of the warm store.
- KnowledgeBaseDeletion.DeleteJob.Run: nobody else writes to the knowledge base between runs (its record is `deleting`), store calls either succeed or stop the run, the error path that marks the record `delete_failed` and the undo of API keys after a failed catalog removal are not modelled, and the warm store is an unordered map.
- Uploads.UploadStores.RollbackCommittedUpload: its own steps are taken to succeed; path validation and the cache clear after a rollback are not modelled.
- Uploads.UploadStores.IndexStagedUpload: an upload without a staged file, which has no rollback, is excluded.
- LeaseLiveness.HeartbeatKeepsLease: the renewal thread is a sequence of timed renewals; joining it is not modelled.
- Flask routing, authentication, language models, embeddings, OCR, voice, containers and the vector engine.
