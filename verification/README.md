# Verified model of the agent runtime

This project models, in Dafny 4.11, the stateful machinery of an embeddable retrieval-augmented
agent: what happens around its model, embedding and search calls. `dafny verify dfyconfig.toml`
checks all of it.

| part | modules |
|---|---|
| operations, sessions, close, in-process history | `SessionCore`, `Lifecycle`, `LifecycleSafety`, `LifecycleTheorems`, `SessionClose` |
| history in an external store | `ExternalHistory`, `HistoryAgreement` |
| circuit breaker, rate limiter, retries | `Breaker`, `Limiter`, `Resilience`, `Governed` |
| prompt cache | `PromptCache` |
| tool-calling loop | `ToolCalls`, `ToolLoop` |
| documents into chunks, chunks into the store | `Chunker`, `Ingest`, `ChunkStore` |
| directory synchronisation | `DirectorySync`, `SyncRuns` |
| ranking and hybrid retrieval | `Ordering`, `Retrieval`, `HybridSearch` |
| fitting a prompt into its budget | `PromptBudget` |
| JSON out of an answer | `JsonScan`, `JsonText`, `StructuredOutput` |
| shared vocabulary | `Sequences`, `Text`, `Chat` |

Concurrency is a transition system whose steps are the critical sections and channel operations of
the code; the theorems hold in every reachable state of every interleaving. Objects that the code
changes in place are classes, proved against functions on values or against relations between the
state before and after, and what the code promises is proved about these over all runs. Failures of
the file system, the vector collection, the providers and the context are parameters of the
operations, so every error path is taken.

## What the proofs show about the code

- **Half-open probes.** `halfOpenInFlight <= HalfOpenMaxCalls` is not an invariant. A reservation
  from the closed state that settles half-open can move the breaker while probes are out.
  `Breaker.ProbeBound` bounds the surplus, `Breaker.ProbeBoundIsTight` attains it, and
  `Breaker.MaximumHoldsExactly` says for which runs there is none.
- **Free passes.** The limiter cuts its wait to whole nanoseconds, so a caller that lacks less than
  one nanosecond's income goes through without paying. `Limiter.EveryAdmissionPaysExactly` says for
  which rates this cannot happen.
- **Two histories.** A comment at session.go:211-212 says that a deferred clear means the same with an
  external store as in process. It does not. `HistoryAgreement.HistoriesAgreeExactly` says when the two
  agree, for every run: a success must have no clear between its commit and its end, a failure after the
  commit must have its turn cleared, and no clear accepted earlier may reach the store after a success's
  turn. `LateClearTakesTheNextTurn` and `SlowClearTakesTheTurn` are the two kinds of instance.
- **Streaming and asking.** A comment at tool_calling_runner.go:137-138 promises the same answer in both
  forms. A chunk without text in a round without content adds a line break to the streamed one only.
  `ToolLoop.AgreeExactly` gives the exact condition, `ToolLoop.EmptyChunkAddsALineBreak` an instance.
- **Stranded chunks.** A directory import that fails after its write leaves chunks the manifest does not
  know. If their file is gone before the next success, nothing removes them:
  `SyncRuns.FailureCanStrandAFile`. `SyncRuns.CleanExactlyWithoutStranded` is the exact condition, and
  `SyncRuns.StoredPathsAreKnown` bounds what can be left over whole runs.
- **Emptied files.** A listed file that yields no chunk any more keeps its old chunks:
  `Ingest.EmptiedFileKeepsItsChunks`. `Ingest.StoreHoldsTheDocument` is the exact condition.
- **Outer blanks.** A path is stored as it is listed and committed trimmed. Two things can then go wrong.
  The chunks of a path that goes can stay: `SyncRuns.DroppedPathsLoseTheirRecordsExactly` says they never
  do exactly when every listed path is plain. And the chunks of a path never listed, such as another
  root's, can be deleted: `SyncRuns.OtherRecordsAreLeftAloneExactly` says they never are exactly when
  every trimmed and cleaned path is listed itself. `SyncRuns.OuterBlankReachesAnotherRoot` shows both.

## Model

| member | source | states |
|---|---|---|
| `SessionCore.History.Append` | internal/memory/history.go:27-45 | appending keeps exactly the last `maxRounds` turns, none when the limit is not positive |
| `SessionCore.History.Clear` | internal/memory/history.go:47-52 | clearing leaves no turn and the same limit |
| `SessionCore.Session.Begin` | session.go:282-291 | fails exactly on a closed session; otherwise execution starts and nothing else changes |
| `SessionCore.Session.End` | session.go:322-340 | the turn of a success is appended in process, a clear asked for meanwhile leaves no turn in process, a close asked for meanwhile closes the session with either kind of history, and execution is over |
| `SessionCore.Session.MarkHistoryClear` | session.go:157-176 | a clear during an execution is deferred, otherwise it is done at once; a closed session refuses |
| `SessionCore.Session.Close` | session.go:270-280 | a close during an execution is deferred to its end, otherwise it is done at once |
| `SessionCore.Session.TakeClearForCommit` | session.go:214-240 | a commit consumes a pending clear, and reports whether there was one |
| `SessionCore.Session.TakeClearForFlush` | session.go:249-268 | a flush consumes a pending clear once, and reports whether there was one |
| `SessionCore.EndedMatches` | session.go:322-340 | after an execution, the turns are the last `maxRounds` successes that began after the latest clear, as the event log has them |
| `SessionCore.ClearMatches` | session.go:157-176 | a clear, deferred or not, keeps value and event log in step |
| `LifecycleSafety.InvApply` | agent.go:1205-1239 | every atomic step of every interleaving keeps the gate, registry, slot and history invariants |
| `LifecycleTheorems.InFlightIsExact` | agent.go:1205-1233 | in every reachable state `inFlight` is the number of admitted, unfinished operations |
| `LifecycleTheorems.ParkedHasWork` | agent.go:471-485 | no lost wake-up: while Close waits, some admitted operation is still to end |
| `LifecycleTheorems.DrainIsFinal` | agent.go:471-505 | once the winning Close leaves its drain loop, no operation runs and none is admitted in any later state |
| `LifecycleTheorems.StoreClosedQuietly` | agent.go:471-505 | the store is closed with nothing running, every slot free and no session executing |
| `LifecycleTheorems.OneBodyPerSession` | session.go:282-314 | slot tokens and holders always add up to one; `executing` holds exactly while one ask body runs, which is an admitted operation |
| `LifecycleTheorems.CloseReachesEverySession` | agent.go:436-505 | when the winning Close returns, every session ever registered is closed, and no write to the nil registry ever happens |
| `LifecycleTheorems.OneCloseWins` | agent.go:471-485 | at most one call of Close gets past the first decision, and the agent is closed from then on |
| `SessionClose.CloseIsFinal` | session.go:270-340 | a close is never lost: from then on, in every run, the session is executing or closed, once closed it stays so, and no execution of it begins any more |
| `SessionClose.OnlyACloseCloses` | session.go:270-340 | and nothing else closes a session: one that nobody closes is open in every later state |
| `SessionClose.AskIsServedOnce` | session.go:35-68 | an ask that has returned, whose context did not end while it waited, ran its body to the end exactly once if agent and session are still open |
| `SessionClose.RefusedOnlyWhenClosed` | agent.go:1205-1233 | an operation returns without having been admitted only when the agent is closed |
| `LifecycleTheorems.OneSessionPerName` | agent.go:436-469 | two calls that get registered sessions for one name get the same one, closed or not; while the agent is open every session given out is registered |
| `LifecycleTheorems.HistoryIsTheLog` | session.go:188-192 | in every reachable state an idle session has the history its event log calls for, and a running one the history it read at its start |
| `LifecycleTheorems.CallsAreBounded` | agent.go:471-505 | from any state the running calls together take at most `Measure` further steps of their own: nothing spins |
| `LifecycleTheorems.Progress` | agent.go:471-505 | no deadlock: while some call has not returned, some step is possible, callers' bodies aside |
| `LifecycleTheorems.MaximalRunsReturn` | agent.go:471-505 | a run that cannot go on has every call returned |
| `ExternalHistory.DeferredClearIsIssuedOnce` | session.go:214-267 | a deferred clear is issued to the store exactly once, no later than the end of the next completed execution |
| `ExternalHistory.NoAppendOvertakesClear` | session.go:214-240 | no turn decided after a clear request is appended before that clear |
| `ExternalHistory.AcceptedClearIsIssued` | session.go:142-176 | no accepted clear is lost: once none is pending or decided, the store has received one after the request |
| `ExternalHistory.CommittedTurnIsAppended` | session.go:214-240 | a turn committed with no clear pending is in the store once its commit was issued |
| `HistoryAgreement.OneExecutionAgreesExactly` | session.go:211-267 | an execution that commits leaves store and in-process history alike if and only if a success had no clear between commit and end, or a failure after the commit had some clear |
| `HistoryAgreement.HistoriesAgreeExactly` | session.go:211-267 | over every run, however slowly clears reach the store, both histories agree at every release of the slot if and only if every execution was harmless: by its clears, and not overtaken by an older one |
| `HistoryAgreement.HarmlessRunsLoadAlike` | session.go:188-211 | whenever the slot is free after harmless executions, the store would load exactly the turns an in-process history holds if and only if no accepted clear is on its way, or it has nothing to take |
| `HistoryAgreement.LateClearTakesTheNextTurn` | session.go:211-240 | a clear between an execution's commit and its end costs the next turn, which an in-process history keeps |
| `HistoryAgreement.SlowClearTakesTheTurn` | session.go:142-155 | a clear accepted before an execution that reaches the store after it costs that execution's turn |
| `Breaker.CircuitBreaker.TakeReservation` | provider_governor.go:199-227 | reserving is refused inside the open window and when the probes are used up; it opens the half-open state when the window is over |
| `Breaker.CircuitBreaker.AbortReservation` | provider_governor.go:229-238 | aborting gives a probe back and leaves everything else |
| `Breaker.CircuitBreaker.FinishReservation` | provider_governor.go:240-276 | per state and class, on the fields: a cancelled settlement moves nothing, a half-open failure opens now, a half-open success closes, closed failures count up to the threshold; a probe is given back |
| `Breaker.ProbesAreExact` | provider_governor.go:199-276 | in every reachable state `halfOpenInFlight` is the number of unsettled half-open reservations |
| `Breaker.ProbeBound` | provider_governor.go:199-276 | probes exceed `HalfOpenMaxCalls` by at most the number of times a reservation from the closed state ended half-open |
| `Breaker.MaximumHoldsExactly` | provider_governor.go:199-276 | `halfOpenInFlight` stays within `HalfOpenMaxCalls` throughout a run if and only if every reservation granted out of the open state found fewer unsettled probes than that |
| `Breaker.ProbeBoundIsTight` | provider_governor.go:199-276 | that bound is attained for every configuration and every number of such reservations |
| `Breaker.FailuresAreTrailing` | provider_governor.go:240-276 | `consecutiveFailure` is the trailing run of failures since the breaker last closed, zero outside closed, always below the threshold |
| `Breaker.ClosedGrantsAll` | provider_governor.go:199-227 | a closed breaker stays closed and grants every reservation, none as a probe, until something fails, whatever is unsettled |
| `Breaker.SuccessCloses` | provider_governor.go:258-276 | one half-open settlement that neither fails nor was cancelled closes the breaker; from then on every reservation is granted until something fails |
| `Breaker.FailureReopens` | provider_governor.go:258-272 | one half-open failure, of a probe or of any other reservation, opens a new window at its time, in which nothing is granted |
| `Breaker.FailureTripsExactly` | provider_governor.go:258-268 | a failure on a closed breaker opens it, at its time, exactly when the failures in a row reach the threshold |
| `Breaker.NothingElseMoves` | provider_governor.go:229-276 | an abort, a cancelled settlement and a settlement on an open breaker change neither state, window nor counter |
| `Breaker.ProbesAreGranted` | provider_governor.go:199-227 | after the window the next reservation is granted as a probe, further ones exactly while the unsettled probes are below the maximum |
| `Breaker.OpenWindowHolds` | provider_governor.go:199-227 | whatever is settled meanwhile, nothing is granted inside the open window |
| `Breaker.Recovers` | provider_governor.go:199-227 | with all reservations settled and the window over, the next reservation is granted |
| `Limiter.RateLimiter.TakeOne` | provider_governor.go:149-168 | one call refills, then spends a token or answers the wait, cut to whole nanoseconds |
| `Limiter.TokensStayInRange` | provider_governor.go:149-168 | over any calls the tokens stay between zero and the burst |
| `Limiter.PaidCallsAreBounded` | provider_governor.go:127-168 | between two calls at most burst plus rate times the time between them are paid |
| `Limiter.IncomeIsConserved` | provider_governor.go:149-168 | below the burst no income is lost: tokens are those at the start plus the income less one for each paid call |
| `Limiter.IdleFillsUp` | provider_governor.go:149-162 | a bucket left alone for as long as its burst takes to come in lets a whole burst through at once |
| `Limiter.ZeroWaitExactly` | provider_governor.go:149-168 | a call is let through exactly when it pays or what is missing is less than one nanosecond's income |
| `Limiter.LoneCallerPays` | provider_governor.go:127-168 | a lone caller that sleeps the exact delay pays at its next try |
| `Limiter.LoneCallerGoesThrough` | provider_governor.go:127-168 | one that sleeps the wait it was answered goes through at its next try |
| `Limiter.EveryAdmissionPaysExactly` | provider_governor.go:149-168 | every call let through has paid, for all sequences of calls, if and only if some whole number of nanoseconds brings in exactly one token |
| `Limiter.UnpaidCalls` | provider_governor.go:167-168 | otherwise any number of calls can pass without paying |
| `Resilience.BackoffWait` | provider_resilience.go:458-479 | the wait lies between the doubled base delay, capped, and the maximum |
| `Resilience.AcquireAndCall` | provider_governor.go:66-104 | acquiring and calling takes at most one reservation and gives it back, aborted or settled with the call's class; the provider is called once, and only if acquiring succeeded |
| `Resilience.Call` | provider_resilience.go:88-210 | there are `n` attempts: each but the last called the provider, failed transiently or by rate limit with nothing visible sent, and was slept after; the last could not acquire, or was cut in its backoff, or its class is the answer, being final or the attempts used up |
| `Resilience.EveryReservationSettles` | provider_resilience.go:88-361 | every reservation is settled or aborted exactly once on every path |
| `Resilience.CallsAreBounded` | provider_resilience.go:88-361 | a governed call makes at most `RetryMaxAttempts` provider calls |
| `Resilience.OneTrace` | provider_resilience.go:88-361 | it emits exactly one trace, and none when a backoff was cut short |
| `Resilience.WaitsAreBounded` | provider_resilience.go:458-479 | every wait before a retry is within the bounds for its attempt |
| `Resilience.OneVisibleAttempt` | provider_resilience.go:148-210 | at most one attempt of a stream emits a chunk that is not blank |
| `Governed.BreakerNeverWedges` | provider_resilience.go:88-361 | for any number of interleaved governed calls: whenever none is under way, every reservation is settled, no probe is counted, and after the window the next reservation is granted |
| `Governed.SettlementIsAlwaysPossible` | provider_governor.go:92-104 | in every such interleaving a caller that has to settle or abort still holds its own unsettled reservation |
| `Resilience.OnlyRetryableIsRetried` | provider_resilience.go:449-456 | only transient and rate-limit failures are retried: at most one call, the deciding one, has another class |
| `PromptCache.Cache.Get` | prompt_cache.go:139-154 | a Get answers and reorders as on the abstract recency sequence, removing an expired entry |
| `PromptCache.Cache.Set` | prompt_cache.go:156-178 | a Set puts the entry first and cuts the sequence to `MaxEntries` |
| `PromptCache.Cache.Delete` | prompt_cache.go:199-211 | a Delete removes exactly the keys, or nothing when the context is done |
| `PromptCache.Cache.Clear` | prompt_cache.go:213-222 | a Clear removes everything, or nothing when the context is done |
| `PromptCache.Cache.Stats` | prompt_cache.go:224-243 | Stats drops exactly the expired entries and counts the rest |
| `PromptCache.BoundedAndDistinct` | prompt_cache.go:139-243 | after any calls each key is there once and the size is within `MaxEntries` |
| `PromptCache.HoldsLatest` | prompt_cache.go:156-211 | whatever is held for a key is its latest Set |
| `PromptCache.HitIsLatest` | prompt_cache.go:139-154 | a hit returns the latest value set, which has not expired, been deleted or cleared |
| `PromptCache.HitIsYoungExactly` | prompt_cache.go:139-189 | a key that is held is found if and only if its last set is younger than the time to live, or there is none, and the answer is what was set then |
| `PromptCache.AbsentIsNotFound` | prompt_cache.go:139-154 | a key that is not held is not found |
| `PromptCache.HoldsMostRecent` | prompt_cache.go:139-178 | in every run of Get, Set and Stats that meets no expired entry, the contents are exactly the `MaxEntries` keys most recently set or hit, in that order |
| `PromptCache.NoTtlNothingExpires` | prompt_cache.go:180-189 | a cache without a time to live meets no expired entry |
| `PromptCache.FirstPlacesOrder` | prompt_cache.go:139-178 | "most recently" means by the last touch: the order of first places in the touch list |
| `ToolCalls.ExecuteToolCall` | tool_calling_runner.go:322-387 | a tool runs if and only if it is named, registered, allowed, its arguments valid if structured, announced and marshalled |
| `ToolCalls.RunNativeToolCall` | tool_calling_runner.go:205-240 | recoverable failures go back to the model, others stop the loop; the tool runs only if the call is permitted |
| `ToolCalls.AnswerMeans` | tool_calling_runner.go:205-240 | a text goes back to the model if and only if it is the output of a permitted tool observed to its end, or the error text of the one failure the model may correct, case by case |
| `ToolLoop.RunToolCalls` | tool_calling_runner.go:186-199 | the transcript gets one right reply per call, in order, or the loop stops at a call over the limit or without a right reply; a right reply has the call's identifier and the content of `AnswerMeans` |
| `ToolLoop.AskNative` | tool_calling_runner.go:139-202 | each prompt is the one before, the model's message and the right replies to its calls; the answer is what the model said, a round a line; chunks are emitted as they come; it ends with a message without calls, or stuck, or out of rounds |
| `ToolLoop.OutputsReachTheModel` | tool_calling_runner.go:155-201 | what a permitted tool put out stands to the letter in the next prompt, behind the prompt before and the model's message |
| `ToolLoop.EmitsAreTheAnswer` | tool_calling_runner.go:107-177 | the emitted chunks, put together, are the streamed answer |
| `ToolLoop.StreamIsSync` | tool_calling_runner.go:137-202 | for every faithful model, streaming and asking end alike, up to one trailing line break |
| `ToolLoop.AgreeExactly` | tool_calling_runner.go:137-202 | they agree to the letter if and only if no line break is left dangling |
| `ToolLoop.StreamedChunksMakeTheAnswer` | tool_calling_runner.go:107-202 | for models that stream no chunk without content, the emitted chunks make up exactly the synchronous answer |
| `ToolLoop.EmptyChunkAddsALineBreak` | tool_calling_runner.go:146-177 | from any transcript, one empty chunk in the second round is enough to make the two forms differ |
| `Chunker.NewChunker` | internal/rag/chunker.go:25-39 | a chunker is made exactly for 0 <= overlap < size; each other case has its own error |
| `Chunker.Split` | internal/rag/chunker.go:41-66 | the chunks are the windows at multiples of size minus overlap, and stop with the first that reaches the end |
| `Chunker.ChunksNameTheirDocument` | internal/rag/chunker.go:48-60 | every chunk has its document's identifier and its number, path, title and metadata, its place, and the text of that place |
| `Chunker.CountOfWindows` | internal/rag/chunker.go:47-64 | there are one plus the rounded-up quotient of what the first window leaves and the step |
| `Chunker.Neighbours` | internal/rag/chunker.go:49-59 | neighbours share exactly the overlap, in place and in text |
| `Chunker.SplitIsLossless` | internal/rag/chunker.go:41-66 | dropping the overlap of each later chunk and joining gives back the document |
| `Chunker.IdsAreDistinct` | internal/rag/chunker.go:52 | two chunks have the same identifier if and only if they are the same window of documents with the same identifier |
| `ChunkStore.Validate` | internal/storage/chromem_store.go:75-101 | the first flaw in the batch decides the error; a batch passes if and only if it has none |
| `ChunkStore.ChromemStore.Upsert` | internal/storage/chromem_store.go:67-157 | a success replaces exactly the documents of the batch; an invalid batch changes nothing; any failure stays within the batch's documents and identifiers |
| `ChunkStore.ChromemStore.DeleteBySourcePaths` | internal/storage/chromem_store.go:211-233 | a success removes exactly the records with these paths; a failure removes none with other paths |
| `ChunkStore.WrittenIsExact` | internal/storage/chromem_store.go:125-151 | a successful batch leaves exactly one possible store |
| `DirectorySync.Normalize` | directory_sync.go:124-143 | the loop, sort and compaction compute the normalized listing |
| `DirectorySync.NormalizedIsCanonical` | directory_sync.go:124-143 | normalized lists are ascending without repetition, and equal if and only if the same paths are named |
| `DirectorySync.Diff` | directory_sync.go:145-166 | the loop computes the paths of the manifest that the listing lacks |
| `DirectorySync.DirectorySyncState.Sync` | directory_sync.go:55-79 | compare, apply, persist, commit: a success writes the batch, removes the stale paths and commits the listing; a failure leaves the manifest as it was |
| `DirectorySync.DirectorySyncState.Remove` | directory_sync.go:81-101 | a success removes the committed and the listed paths and forgets the root; a failure leaves the manifest as it was |
| `DirectorySync.DirectorySyncState.Apply` | session.go:419-433 | batch first, stale paths after it; on failure only records of the batch or of stale paths may have changed |
| `SyncRuns.StoredPathsAreKnown` | directory_sync.go:55-101 | in every run each stored path of a root is committed for it, or was written by a failed import, by a single-file write, or under a name the listing does not commit |
| `SyncRuns.SuccessLeavesOnlySuspects` | directory_sync.go:55-79 | after a success the store has only committed paths of the root and those suspect ones |
| `SyncRuns.StoreFollowsTheListing` | directory_sync.go:55-79 | in runs without failures and with plain listed paths, the store has a path of the root after an import only if it is listed |
| `SyncRuns.CleanExactlyWithoutStranded` | directory_sync.go:55-79 | a success leaves committed paths only, if and only if no record was out of the reach of manifest, listing and batch before it and the batch wrote none under another name |
| `SyncRuns.CommittedUntilDropped` | directory_sync.go:55-101 | whatever fails and whatever other roots do, a committed path stays committed until its root drops it |
| `SyncRuns.DroppedPathIsDeleted` | directory_sync.go:55-79 | the first success that does not list a committed path deletes all its records, however many imports failed before |
| `SyncRuns.RemoveDeletesExactly` | directory_sync.go:81-101 | a removal that succeeds forgets the root, keeps the others, and deletes a record if and only if its path is one the root had committed or the listing names, trimmed and cleaned |
| `SyncRuns.RemoveDeletesListed` | directory_sync.go:81-101 | no record of a plain path that was committed or is listed remains |
| `SyncRuns.DocumentIsExact` | session.go:416-437 | each document of the batch has exactly its records that are not of a stale path; all records are there if and only if none is |
| `SyncRuns.DroppedPathsLoseTheirRecordsExactly` | directory_sync.go:124-166 | whichever listed files go away, the import that no longer lists them leaves no record of them, if and only if every listed path is its own trimmed and cleaned form |
| `SyncRuns.OtherRecordsAreLeftAloneExactly` | directory_sync.go:124-166 | whichever listed files go away, an import leaves every record of a path never listed alone, if and only if every listed path's trimmed and cleaned form is listed, too |
| `SyncRuns.OuterBlankReachesAnotherRoot` | directory_sync.go:129-135 | a directory whose name begins with a blank: its chunk stays when its file goes, and the chunk of another root is deleted instead |
| `SyncRuns.FailureCanStrandAFile` | directory_sync.go:64-76 | a failure after the write can leave a chunk that no later import removes, shown by two calls |
| `Ingest.BuildBatch` | session.go:366-414 | the import loop builds one batch of all files' records, and nothing when one file fails to load or embed |
| `Ingest.BatchFailsExactly` | session.go:366-414 | there is no batch if and only if some file does not load, or its chunks get no vectors or a wrong number of them |
| `Ingest.RecordsCarryTheirVectors` | session.go:384-414 | each record of a document has the fields of its chunk and the vector the embedder gave for its own text |
| `Ingest.BatchIsWindows` | session.go:384-414 | the batch holds every window of every loaded document and nothing else |
| `Ingest.StoreHoldsTheDocument` | session.go:384-437 | after a successful import a document has no chunks but its windows if and only if it has text or nothing was left over; all windows are there if and only if it has no text or its path is not being deleted |
| `Ingest.EmptiedFileKeepsItsChunks` | session.go:384-387 | a file imported with text and then imported empty: every chunk of its text is still stored |
| `Ordering.TopIsUnique` | internal/retrieval/hybrid.go:104-116 | when no two elements rank the same, sort and cut have one result, whatever the sorting algorithm |
| `Ordering.SortedIsUnique` | internal/retrieval/hybrid.go:104-112 | there is one sorted arrangement of such elements |
| `Retrieval.RankingIsUnique` | internal/retrieval/hybrid.go:104-123 | a ranking of chunks with distinct identifiers is unique |
| `Retrieval.LexicalSearch` | internal/retrieval/hybrid.go:13-59 | the result is the best selection of the matching candidates by token count, vector score and identifier |
| `Retrieval.MatchesMean` | internal/retrieval/hybrid.go:27-37 | a candidate is ranked if and only if its score is positive |
| `Retrieval.ScoreMeansToken` | internal/retrieval/hybrid.go:199-211 | a score is positive if and only if some token of the query occurs in title or text |
| `Retrieval.ContainsMeans` | internal/retrieval/hybrid.go:199-211 | a token matches if and only if it stands at some place of the text |
| `Retrieval.ScoreCountsTokens` | internal/retrieval/hybrid.go:199-211 | the score is the number of tokens that occur in title and text |
| `Retrieval.FuseRRFWithK` | internal/retrieval/hybrid.go:67-124 | however the score map is iterated, the result is the best selection of all fused entries |
| `Retrieval.FusionMeans` | internal/retrieval/hybrid.go:67-124 | the fusion is the top of the identifiers of both lists under summed reciprocal rank, then vector score, then identifier |
| `Retrieval.RankSumIsPlace` | internal/retrieval/hybrid.go:74-90 | in a list of distinct chunks a chunk gets one over the constant plus its place |
| `Retrieval.LeaderComesFirst` | internal/retrieval/hybrid.go:67-124 | a chunk that leads another in both lists, or in one while the other list has neither, comes out before it |
| `Retrieval.RankingMeans` | internal/retrieval/hybrid.go:114-123 | a ranking has no chunk twice, only chunks ranked, and leaves none out while there is room |
| `Retrieval.RerankShortlistWithLimit` | internal/retrieval/hybrid.go:132-179 | the result is the best selection of the shortlist by fused score plus token count, then identifier |
| `Retrieval.RerankMeans` | internal/retrieval/hybrid.go:132-179 | a rerank of distinct chunks holds chunks of the shortlist alone, their fused scores raised by the number of tokens that occur, in this order and with the smaller identifier first, and none left out that ranks before one that is in |
| `HybridSearch.SearchWithFilter` | internal/storage/chromem_store.go:163-209 | the result is the first `topK` hits of the whole index that reach the threshold and pass the filter |
| `HybridSearch.FirstFewSuffice` | internal/storage/chromem_store.go:175-188 | without a filter it is enough to ask the index for the first `topK` |
| `HybridSearch.SearchDetailed` | agent.go:86-215 | every branch: when it fails, which search answers it, and which fallback it reports |
| `HybridSearch.WidthsMean` | internal/retrieval/options.go:12-30 | candidates are four and the shortlist two times `topK` unless set, never below `topK`, and the shortlist no longer than what there is |
| `HybridSearch.SelectedMeans` | internal/storage/chromem_store.go:190-206 | the filtered hits are the index's own, each once, at or above the threshold and passing the filter |
| `HybridSearch.HybridIsSound` | agent.go:140-214 | every hybrid result has at most `topK` distinct chunks, all from the filtered hits, each at or above the threshold or matching a token |
| `HybridSearch.HybridIsFull` | agent.go:185-214 | as many hits come back as were fused, up to `topK`, with or without a rerank |
| `HybridSearch.HybridIsDetermined` | agent.go:140-214 | the result is determined by index and query |
| `HybridSearch.HybridIsTheBestOfFusion` | agent.go:183-214 | without a rerank the candidate limit does not show: the result is the fusion cut at `topK` |
| `PromptBudget.TruncateTextToTokens` | internal/graph/prompt_governance.go:92-113 | a text that fits stays whole; another is cut where it fits and one more character does not, then trimmed |
| `PromptBudget.TruncationFits` | internal/graph/prompt_governance.go:92-113 | the result always fits |
| `PromptBudget.EdgeIsLongest` | internal/graph/prompt_governance.go:99-111 | for an estimator that never falls along a text, the cut is the longest beginning that fits |
| `PromptBudget.TruncationIsUnique` | internal/graph/prompt_governance.go:92-113 | for such an estimator there is one truncation only |
| `PromptBudget.EstimateRunesIsSensible` | internal/graph/prompt_governance.go:115-124 | the estimate by runes is zero on blanks, not raised by trimming, and never falls along a text |
| `PromptBudget.CompactHistory` | internal/graph/prompt_governance.go:15-37 | kept and dropped turns are the two sides of one mask, in order; a turn is kept exactly when it fits beside the newer kept ones |
| `PromptBudget.SelectPartitions` | internal/graph/prompt_governance.go:23-36 | no turn is lost or doubled |
| `PromptBudget.CompactionIsUnique` | internal/graph/prompt_governance.go:23-36 | which turns are kept is determined by turns and budget |
| `PromptBudget.BuildPromptMessages` | internal/graph/prompt_governance.go:129-205 | place by place: the system text first, format and summary when not blank, each kept turn's question and answer in order, memory and evidence under their headings when not blank, and the query last; the part before memory costs its texts |
| `PromptBudget.PromptReads` | internal/graph/prompt_governance.go:150-204 | every prompt assembled of such parts reads so |
| `PromptBudget.PromptFits` | internal/graph/prompt_governance.go:176-202 | headings apart, a base within the limit stays within it with memory and evidence; above it, both are dropped; each keeps its own limit, and so do kept history and computed summary |
| `PromptBudget.EvidenceIsWhole` | internal/graph/prompt_governance.go:180-188 | evidence has the first claim: it is whole if and only if it is within its own limit and what the base leaves |
| `PromptBudget.MemoryIsWhole` | internal/graph/prompt_governance.go:180-192 | memory is whole if and only if it is within its own limit and leaves evidence its limit, used or not |
| `PromptBudget.BaseIsBounded` | internal/graph/prompt_governance.go:150-176 | the base costs its instructions, its summary and the kept history, and no more |
| `JsonScan.ExtractBalancedJSON` | structured_output.go:117-159 | a success is the segment from the first bracket to where depth outside strings first returns to zero; it fails if and only if there is none |
| `JsonScan.Bracketed` | structured_output.go:146-155 | inside brackets of the counted kind every proper beginning is at depth one or more |
| `JsonText.ValueIsNeutral` | structured_output.go:132-156 | the text of every JSON value leaves the scan's state and depth as they were and never lowers the depth |
| `JsonText.PrintedIsFound` | structured_output.go:117-159 | every object or array text of RFC 8259, after any bracket-free text and before any text at all, is found exactly |
| `StructuredOutput.ExtractStructuredJSON` | structured_output.go:84-99 | whole answer, fenced block, balanced value, in this order; only what the parser accepts is returned |
| `StructuredOutput.EmbeddedJsonIsFound` | structured_output.go:84-99 | an object or array among other words comes out as it stands, unless the whole answer or a fenced block is valid JSON itself |
| `StructuredOutput.FencedJsonIsFound` | structured_output.go:101-115 | a fenced object or array comes out as it stands, whatever its language tag and whatever backquotes are inside it |

## Left out

- Time and width: durations, counters and token counts are unbounded integers, tokens and scores are reals; 64-bit overflow, floating-point rounding and NaN are not modelled.
- Limiter.RateLimiter.TakeOne: only `take` is modelled, not the `wait` loop that sleeps and tries again, and not its unreachable branch at provider_governor.go:164-166.
- Resilience.Call: one loop stands for generate, stream, embedding and web search, which differ in the traced values; costs, usage and error classification are left out, and the wait is an unbounded integer.
- Resilience.AcquireAndCall: what the breaker and the limiter decide is the script's; `Governed` puts any number of callers over one breaker, and leaves the limiter to `Limiter`.
- ExternalHistory.DeferredClearIsIssuedOnce: a store call that fails counts as issued, since the code does not keep the request after a failed call; what the store does with it is not modelled.
- HistoryAgreement.HistoriesAgreeExactly: for a store whose calls succeed; a clear or an append that fails leaves the store as it was, and the two histories then differ by it.
- LifecycleTheorems.Progress: ask bodies end when their caller's step ends them; a body that never returns keeps Close waiting, as in the code.
- Lifecycle: telemetry callbacks and their re-entry check, the hook before the slot, and structured answers that fail to parse after their commit are not part of the model.
- PromptCache.Cache.Stats: one reading of the clock stands for the whole sweep; copies of messages are values. The Redis and two-level caches and the hashing of keys are left out.
- ToolLoop.AskNative: the model is a function of the transcript and a tool of transcript and arguments; the context's cancellation between rounds and an emitter that fails are left out.
- ToolCalls.ExecuteToolCall: error texts, the decoding and validation of arguments and the policy's verdict are parameters.
- The JSON envelope protocol of the tool runner (tool_calling_runner.go:251-286), which has one form only.
- Chunker.Split: texts are sequences of characters; bytes that are not valid UTF-8 are not modelled, nor is overflow of the window's end.
- ChunkStore.ChromemStore.Upsert: the collection is a map by chunk identifier; embedding values, the collection's own persistence and the encoding of metadata are left out.
- DirectorySync.DirectorySyncState.Sync: lexical path cleaning is a parameter; reading the manifest back at start, and a manifest file left half written, are not modelled; other writers run before or after a whole import.
- SyncRuns.StoreFollowsTheListing: for listings of paths that trimming and cleaning leave alone; for others it is false of the code, see `SyncRuns.OuterBlankReachesAnotherRoot`.
- Ingest.StoreHoldsTheDocument: for a document whose identifier no other file of the import has; loading files and converting formats is left out.
- Retrieval.LexicalSearch: splitting a query into tokens and lower-casing are parameters.
- Retrieval.FuseRRFWithK: for a constant that is not negative, as `SearchDetailed` guarantees; reciprocal ranks are added exactly.
- HybridSearch.SearchDetailed: with the rule-based reranker, for a positive `topK`; custom rerankers, panics and metrics are left out. The order of the index is a parameter.
- PromptBudget.BuildPromptMessages: the token estimator, the cleaning of untrusted text and the wording of summary lines are parameters; the two headings are not counted, as in the code's own sums; limits are those of a validated configuration.
- JsonText.PrintedIsFound: whether a text is valid JSON is a parameter of the callers; the scan works on characters where the code works on bytes, which makes no difference for the ASCII characters it looks at.
- Access boundaries, evaluation scores, long-term memory, query rewriting, traces and their summaries, and configuration checks: what they decide is taken as input where a modelled part needs it.
