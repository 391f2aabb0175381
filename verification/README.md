# Verification of the ingest and search pipeline

A Dafny model of the parts of the pipeline whose correctness rests on order and interleaving, with proofs.
`dafny verify dfyconfig.toml` checks everything.

What is modelled, module by module:

- `EmbeddingCache`, `BatchProtocol`, `BatchInvariants`, `BatchTheorems`, `BatchHistories`, `LockOrder`,
  `StrandedRequests`, `BatchEmbedders`: the shared batch embedder. One step is the code a task runs between two awaits; the flush in
  flight, which holds the lock while it waits for the provider, is part of the state. `BatchEmbedder` is the class
  with the code's own fields; each of its methods is proved to be one step of the protocol, and the theorems are about
  every run of the protocol: any number of calls, timers, cancellations and closes, and a provider that answers
  anything. For those theorems any waiter may get the lock next; where a step or a run is shown to exist, `LockOrder`
  adds the queue of the asyncio lock.
- `SectionEmbedders`: the loop that writes the vectors into the sections.
- `Dispatchers`, `DispatchOrders`: the job dispatcher as a class and as a machine; what it accepts and in which order.
- `MetadataStores`, `VectorStores`, `SectionIndexes`, `OrderedDicts`: the two in-memory stores and the index.
- `IngestRuns`, `IngestInvariants`, `IngestSystems`: one ingest run as a machine of store calls, any of which may
  raise before its effect, after it or (deletion, insertion) in the middle of it; then all runs of the dispatcher's
  tasks together over the two stores. `IngestHistories` looks back over whole runs; `StoredVectors` joins them with the
  runs of the batch embedder; `IndexedContents` says what an INDEXED document consists of.
- `IngestJobs`, `IngestOutcomes`: the same run as the code is written, method by method, tied to the machine.
- `Scanners`, `ScanTheorems`, `ScanOrders`: the scan that feeds the dispatcher, and its agreement with claims and runs.
- `Texts`, `Normaliser`, `NormalForms`, `HeadingSplitter`, `SplitterTheorems`, `SectionTiles`, `Sections`: the text code.
- `Cosine`, `Searches`, `SearchAnswers`, `QueryCaches`, `SearchOutcomes`: similarity over exact reals, search, its query cache, and
  what a search shows of the documents ingested.

Assumptions, each a parameter or a precondition where it is used: SHA-256 and MD5 are free of collisions;
`max_batch`, `cache_size` and the query cache size are at least one, as the settings demand (config/settings.py:160-208);
a timer that is told to stop while it sleeps or waits for the lock never flushes; times are whole seconds of one
clock that the caller passes in; the square root used by the similarity is a square root (`IsRoot`). The provider,
the parser, the markdown store, the captioner and the language detector answer arbitrarily or fail. S3 names
each key once in a listing. `IngestRuns` takes the splitter as a parameter, as the code does; where its properties are
needed, `SplitsByHeading` says that it is the heading splitter.

Results that are not what one might expect:

- The embedding cache is not always a least-recently-used cache: a put evicts before it looks whether its key is
  present (`EmbeddingCache.ReputShrinks`); `EmbeddingCache.ExactnessAfterTouch` says exactly when it stays one.
- A close that is cancelled while it queues for the lock can strand a request. `BatchInvariants.AttendedUnlessStranded`
  gives the exact condition on the state, `BatchTheorems.PendingIffOneTimer` lifts it to runs, and
  `StrandedRequests.StrandingPossibleIff` shows that the asyncio lock allows it exactly when `max_batch` is two or more.
  The next request that is queued mends it (`BatchInvariants.NextRequestRescues`).
- The claim does not exclude a second run while the first still has `update_processed` and `record_job` to do
  (`IngestSystems.ClaimDoesNotExclude`). The late write then makes the record false exactly when the two runs had
  different numbers of sections (`IngestOutcomes.UnsupervisedRunsDisagree`); in one process the dispatcher prevents it.
- A run whose last call raised after its effect leaves two log entries, INDEXED and FAILED, and the document is FAILED;
  no other run does (`IngestHistories.SecondEntryIff`).
- With skipped heading levels a path is not the chain of ancestors (`SplitterTheorems.FullPathsIffNoGap`).

## Model

| member | source | states |
|---|---|---|
| `BatchTheorems.PendingIffOneTimer` | utils/batch_embedder.py:76-98 | never two live timers; and in all states of a run, when no close is under way, requests are pending exactly when one live, uncancelled timer exists, if and only if no step of the run strands a request |
| `BatchTheorems.TimerNeverFindsNothing` | utils/batch_embedder.py:184-195 | a timer that gets the lock always flushes the whole queue: the branch for an empty queue is unreachable |
| `BatchTheorems.FlushNeverCancelsItself` | utils/batch_embedder.py:207-216 | while a flush waits for the provider no timer is registered any more, and the timer or close that runs the flush is still in it: it was not the task cancelled |
| `BatchTheorems.QuiescentMeansAnswered` | utils/batch_embedder.py:61-102 | when nothing is left to run, only pending calls can still wait; if no step stranded a request nothing is pending and every call of `embed_one` has its vector, its error or its cancellation |
| `BatchTheorems.ProgressEnds` | utils/batch_embedder.py:76-155 | steps that neither ask for anything new nor cancel anything cannot go on for ever: a run of them is no longer than the work that was left, whatever their order |
| `BatchTheorems.NoLockMeansNothingPending` | utils/batch_embedder.py:141-155 | a close that finds no lock finds nothing pending, so the branch that loses items is never taken |
| `BatchTheorems.BatchesPartitionTheQueue` | utils/batch_embedder.py:202-230 | all batches in order, then the pending queue, are the sequence of enqueued requests; every provider call gets 1 to `max_batch` texts |
| `BatchTheorems.FlushSettlesItsBatch` | utils/batch_embedder.py:233-310 | on all four paths each future of the batch that still waits gets exactly that path's verdict, settled ones and all others stay as they are |
| `BatchTheorems.FlushLeavesNobodyWaiting` | utils/batch_embedder.py:244-265 | after a flush ends nobody in its batch waits any more |
| `BatchTheorems.SettledForGood` | utils/batch_embedder.py:244-265 | a future once settled keeps its outcome through every later run |
| `BatchTheorems.VectorsAreTraceable` | utils/batch_embedder.py:61-102 | a vector `embed_one` returns, from the cache or a flush, was returned by the provider in the position of the same text |
| `BatchTheorems.EmbedBatchKeepsOrder` | utils/batch_embedder.py:104-113 | the k-th result of `embed_batch` was provided for its k-th text, whatever was batched together |
| `BatchHistories.LogsAreTrue` | utils/batch_embedder.py:61-310 | in every run, by its events alone: the calls are those made; and what was queued, which batch was taken when, what was answered, what failed and how the cache was used are logged as they happened |
| `BatchHistories.CacheFollowsAnswers` | utils/batch_embedder.py:312-326 | in every run, by its events alone: for a key it holds the cache has the vector of the last batch answered in full that held its text; its keys are a duplicate-free suffix by last hit or put, within its size, the latest one last; a true LRU if no put shrank it |
| `BatchHistories.AnswerIsServedNext` | utils/batch_embedder.py:254-256 | after an answer of the right size: a text of the batch not repeated further on, among its last `cache_size`, is served next time from the cache with the vector it was given, without a request |
| `BatchHistories.CallsFlushFullBatches` | utils/batch_embedder.py:83-88 | a batch flushed by a call has exactly `max_batch` texts |
| `BatchHistories.CloseEndsWith` | utils/batch_embedder.py:141-148 | a close that runs the flush ends normally whatever the provider does, and is aborted only by its own cancellation |
| `BatchTheorems.StatsAreTrue` | utils/batch_embedder.py:159-175 | requests, hits, flushes, provider errors and orphaned futures are counted correctly in every run, and every flush counted was answered in full, failed or is in flight |
| `BatchHistories.StatsCountEvents` | utils/batch_embedder.py:159-175 | by the events of the run: requests are the calls made, hits the calls for a cached text, flushes the batches taken, provider errors the failures and answers of the wrong size |
| `LockOrder.LineKept` | utils/batch_embedder.py:76-148 | the calls and closes in line for the asyncio lock, first come first served, are at every step exactly those that want it |
| `LockOrder.NeverStuck` | utils/batch_embedder.py:76-155 | no deadlock: unless everything is at rest, that order lets some task move without a new call, a new close or a cancellation |
| `LockOrder.EveryRunRests` | utils/batch_embedder.py:61-155 | in every run under that lock, once nothing new is asked for, only boundedly many steps are left in any order; none is possible exactly when everything is at rest; and every call then has its answer unless a request had been stranded |
| `StrandedRequests.AbandonedCloseStrands` | utils/batch_embedder.py:135-148 | from any state in which only a flush is under way, along a run that respects the fair, non-suspending asyncio lock: a close that queues behind two callers, all three cancelled, leaves a waiting caller with no timer, flush or close |
| `StrandedRequests.StrandingPossibleIff` | utils/batch_embedder.py:76-148 | a fresh embedder has a run under that lock that strands a request if and only if `max_batch` is at least two |
| `BatchInvariants.InvKept` | utils/batch_embedder.py:76-310 | every step keeps the lock, timer, queue, caller and trace invariants together |
| `BatchInvariants.AttendedUnlessStranded` | utils/batch_embedder.py:76-148 | from every attended state a step leaves requests unattended if and only if it cancels a close that queues for the lock while something is pending and neither a live timer nor another close is there |
| `BatchInvariants.NextRequestRescues` | utils/batch_embedder.py:76-98 | the next request that is queued brings a timer or a flush, whatever was stranded before |
| `EmbeddingCache.CacheIsRecencySuffix` | utils/batch_embedder.py:312-326 | after any hits and puts: a suffix of the recency order, no duplicates, bounded, newest key last |
| `EmbeddingCache.ExactnessAfterTouch` | utils/batch_embedder.py:318-326 | a touch keeps an exact LRU cache exact if and only if it is not a put that hits a full cache holding the key elsewhere than at the front |
| `EmbeddingCache.LruWhenShrinkFree` | utils/batch_embedder.py:318-326 | without such puts the cache holds exactly the last `cache_size` distinct keys |
| `EmbeddingCache.ReputShrinks` | utils/batch_embedder.py:319-320 | a concrete re-put at capacity that loses an entry for nothing |
| `EmbeddingCache.SizeAfterTouch` | utils/batch_embedder.py:312-326 | the exact size after a hit or a put, the shrinking case included |
| `BatchEmbedders.BatchEmbedder.constructor` | utils/batch_embedder.py:26-49 | the fresh state |
| `BatchEmbedders.BatchEmbedder.CacheGet` | utils/batch_embedder.py:312-316 | returns the entry and marks it newest, or changes nothing |
| `BatchEmbedders.BatchEmbedder.CachePut` | utils/batch_embedder.py:318-326 | evicts, inserts, moves to the end as the cache specification says |
| `BatchEmbedders.BatchEmbedder.EmbedOne` | utils/batch_embedder.py:61-76 | refines the step up to the lock: a hit answers at once, a miss waits |
| `BatchEmbedders.BatchEmbedder.EnterQueue` | utils/batch_embedder.py:76-98 | refines the step inside the lock: enqueue, then flush at the size limit or start a timer |
| `BatchEmbedders.BatchEmbedder.Flush` | utils/batch_embedder.py:197-230 | refines taking the batch: queue emptied, stale timer cancelled, batch in flight |
| `BatchEmbedders.BatchEmbedder.DelayedFlush` | utils/batch_embedder.py:184-195 | refines the timer that has the lock |
| `BatchEmbedders.BatchEmbedder.TimerDies` | utils/batch_embedder.py:184-187 | refines the end of a cancelled timer, which changes nothing else |
| `BatchEmbedders.BatchEmbedder.FailFutures` | utils/batch_embedder.py:295-307 | fails every future that still waits and counts them |
| `BatchEmbedders.BatchEmbedder.ResolveFutures` | utils/batch_embedder.py:254-259 | caches and resolves in batch order |
| `BatchEmbedders.BatchEmbedder.FlushAnswered` | utils/batch_embedder.py:230-259 | refines the provider's answer of the right or the wrong size |
| `BatchEmbedders.BatchEmbedder.FlushFailed` | utils/batch_embedder.py:273-310 | refines a provider error and a cancelled flush |
| `BatchEmbedders.BatchEmbedder.CallerCancelled` | utils/batch_embedder.py:75-100 | refines a caller that leaves; its request stays queued with a cancelled future |
| `BatchEmbedders.BatchEmbedder.FlushAndClose` | utils/batch_embedder.py:115-138 | refines the beginning of a close |
| `BatchEmbedders.BatchEmbedder.CloserResumes` | utils/batch_embedder.py:136-141 | refines the close going on once the cancelled timer is over |
| `BatchEmbedders.BatchEmbedder.DrainAndClose` | utils/batch_embedder.py:141-155 | refines the close that has the lock |
| `BatchEmbedders.BatchEmbedder.CloserCancelled` | utils/batch_embedder.py:136-142 | refines a close cancelled while it waits for its timer or queues for the lock; a free lock is taken without an await |
| `BatchEmbedders.BatchEmbedder.MethodKeepsValid` | utils/batch_embedder.py:61-310 | every such method keeps the whole invariant of the protocol, which each of them requires and ensures |
| `SectionEmbedders.EmbedSections` | app/infrastructure/ai/embedder.py:12-33 | in place: all vectors written, or an error; a wrong dimension leaves the sections before it changed and the rest alone |
| `SectionEmbedders.SuccessIff` | app/infrastructure/ai/embedder.py:19-33 | it succeeds exactly when counts and all dimensions fit, and then changes only vector and model name |
| `SectionEmbedders.SectionsGetTheirOwnVectors` | app/infrastructure/ai/embedder.py:16-31 | each section gets a vector the provider returned for its own caption, in any run of the shared embedder |
| `Dispatchers.OneLiveJobPerDocument` | api/main.py:67-114 | in every run a document has at most one live job, and has one exactly when its id is in one of the two sets, which never overlap |
| `Dispatchers.LiveTasksDiffer` | api/main.py:96-114 | two live tasks never work on one document |
| `Dispatchers.BoundsInEveryRun` | api/main.py:48-79 | executing jobs stay within `max_workers`, the queue within its capacity, accepted = live + finished |
| `Dispatchers.SnapshotMeaning` | api/main.py:81-86 | what the three reported numbers count; running jobs include those waiting for a slot and exceed `max_workers` exactly when more wait than slots are free |
| `Dispatchers.RefusedOnlyWhenFull` | api/main.py:70-78 | an enqueued document that is not live afterwards was refused because the capacity is positive and the queue then holds that many jobs or more |
| `DispatchOrders.AcceptedAre` | api/main.py:67-79 | one call accepts, in the order given, the jobs of documents neither queued nor running, the first of each, up to the room left in the queue, all of them if it is unbounded; and returns their number |
| `DispatchOrders.FirstComeFirstServed` | api/main.py:67-100 | in every run the tasks, the job held and the queue are, in order, exactly the jobs accepted: none overtakes, is lost or comes twice |
| `DispatchOrders.StartsAtOnceIff` | api/main.py:102-106 | a task that starts executes at once exactly when fewer than `max_workers` jobs execute and none waits for a slot |
| `DispatchOrders.SlotForWaiterIff` | api/main.py:105-106 | a waiting task can go on exactly when fewer than `max_workers` jobs execute |
| `DispatchOrders.StoppedTakesNothing` | api/main.py:58-61 | after `stop` no job leaves the queue any more, and only one already held can still become a task |
| `Dispatchers.FinishedMayReturn` | api/main.py:113-114 | a finished document can be enqueued again at once |
| `Dispatchers.InvKept` | api/main.py:67-114 | every step keeps the meaning of the id sets and the counts |
| `Dispatchers.JobDispatcher.MethodKeepsValid` | api/main.py:67-114 | every method keeps the dispatcher's invariant, which each of them requires and ensures |
| `Dispatchers.JobDispatcher.constructor` | api/main.py:46-53 | the fresh state |
| `Dispatchers.JobDispatcher.EnqueueJobs` | api/main.py:67-79 | skips known documents, drops on a full queue, returns how many it accepted |
| `Dispatchers.JobDispatcher.ConsumerTakes` | api/main.py:89-91 | refines taking a job off the queue |
| `Dispatchers.JobDispatcher.ConsumerSpawns` | api/main.py:96-100 | refines starting its task |
| `Dispatchers.JobDispatcher.StartJob` | api/main.py:102-105 | refines a task's first step: id moved, slot taken if one is free and nobody waits |
| `Dispatchers.JobDispatcher.AcquireSlot` | api/main.py:105-106 | refines getting a slot later |
| `Dispatchers.JobDispatcher.FinishJob` | api/main.py:111-114 | refines the end of a job |
| `Dispatchers.JobDispatcher.Stop` | api/main.py:58-61 | refines the stop event: nothing is taken off the queue any more |
| `Dispatchers.JobDispatcher.Snapshot` | api/main.py:81-86 | the three sizes |
| `MetadataStores.ClaimHoldsUntilStale` | app/infrastructure/repositories/memory_metadata_store.py:38-70 | a claim keeps others out exactly until it is stale |
| `MetadataStores.ClaimTells` | app/infrastructure/repositories/memory_metadata_store.py:38-70 | the claimed record field by field: the job's path, type, language, name and version, the known name and version where the job has none, everything else as it was; and no other record changes |
| `MetadataStores.StatusTells` | app/infrastructure/repositories/memory_metadata_store.py:19-23 | a status written changes nothing else, or makes a stub without a path; and no other record changes |
| `MetadataStores.ClaimableStays` | app/domain/documents/policies.py:14-24 | waiting never makes a document unclaimable |
| `MetadataStores.ByPathSpec` | app/infrastructure/repositories/memory_metadata_store.py:34-36 | a wanted path is found exactly when a record has it, and of several the last one counts |
| `MetadataStores.InMemoryMetadataStore.Upsert` | app/infrastructure/repositories/memory_metadata_store.py:16-17 | new contents of the store |
| `MetadataStores.InMemoryMetadataStore.UpdateStatus` | app/infrastructure/repositories/memory_metadata_store.py:19-23 | status changed, or a stub without a path created |
| `MetadataStores.InMemoryMetadataStore.GetDocument` | app/infrastructure/repositories/memory_metadata_store.py:25-26 | found exactly when present |
| `MetadataStores.InMemoryMetadataStore.GetByFilePaths` | app/infrastructure/repositories/memory_metadata_store.py:34-36 | the loop computes the path lookup |
| `MetadataStores.InMemoryMetadataStore.TryClaimIngest` | app/infrastructure/repositories/memory_metadata_store.py:38-70 | refuses exactly while a fresh claim is held, and then changes nothing |
| `MetadataStores.InMemoryMetadataStore.RecordJob` | app/infrastructure/repositories/memory_metadata_store.py:72-91 | one entry appended |
| `MetadataStores.InMemoryMetadataStore.UpdateProcessed` | app/infrastructure/repositories/memory_metadata_store.py:93-104 | count and times set, nothing for a missing record |
| `IngestSystems.TwoStoresAgree` | app/application/ingest/index_sections.py:40-79 | any documents interleaved at store calls, failures anywhere: an INDEXED document has exactly the sections of its last completed run, in order, its record their number and version, and their characters other than white space are those of the normalised markdown |
| `IngestSystems.RunOutcome` | app/application/ingest/run_ingest_job.py:44-149 | when a run ends: succeeded means INDEXED with this run's sections and one matching entry, and a time of processing; raised with a working handler means FAILED and exactly one entry saying so; cancelled means INDEXING and no entry |
| `IngestSystems.SkippedChangesNothing` | app/application/ingest/run_ingest_job.py:51-53 | a run is skipped exactly when a fresh claim is held, and changes neither store nor log |
| `IngestSystems.IndexedVersion` | app/application/ingest/index_sections.py:58 | an INDEXED record names the file version its last completed run was given |
| `IngestSystems.UploadTimeIsKept` | app/application/ingest/index_sections.py:36-60 | no record disappears, none changes its upload time and none that was processed forgets it, however often it is ingested again |
| `IngestSystems.DescribingTells` | app/application/ingest/index_sections.py:42-63 | the description written over the claimed record: INDEXING as of the beginning of indexing, uploaded and last processed when the record said, the job's version and the number of sections |
| `IndexedContents.IndexedTells` | app/application/ingest/index_sections.py:37-78 | documents ingested together in any way: an INDEXED document was asked for; its text is a normalised parse of that file, its language the detected one or "vi" if it is short; its stored sections are the pieces with their last heading, a caption given for them or their beginning, and the address, name, type and language of the file |
| `IndexedContents.RecordAndSectionsAgree` | app/application/ingest/index_sections.py:42-68 | in every run the record of an INDEXED document and its stored sections agree on file, file name, type, language and address of the text |
| `IngestHistories.LogStaysFinal` | app/infrastructure/repositories/memory_metadata_store.py:72-91 | the job log only grows, with entries INDEXED or FAILED that begin and end at one moment, a failure with no sections |
| `IngestSystems.ClaimDoesNotExclude` | app/application/ingest/index_sections.py:78-86 | between the INDEXED mark and the end of the run another claim succeeds |
| `IngestSystems.LateStampConsistentIff` | app/application/ingest/index_sections.py:79 | a late `update_processed` after another run's index leaves the two stores in agreement if and only if both runs had equally many sections |
| `IngestOutcomes.UnsupervisedRunsDisagree` | app/application/ingest/run_ingest_job.py:44-149 | from any stores in agreement, without the dispatcher: two runs of one document both get through, and the INDEXED record ends up false of the sections if and only if their counts differ |
| `IngestOutcomes.CleanRunReaches` | app/application/ingest/run_ingest_job.py:50-133 | a run that can claim and is delivered what it needs reaches each call of `index_sections` and its end, with as many sections as vectors |
| `IngestHistories.SkippedRunLeavesNoTrace` | app/application/ingest/run_ingest_job.py:51-53 | over a whole run of the system: no step of a run that ends skipped changed a store or the log |
| `IngestHistories.SecondEntryIff` | app/application/ingest/run_ingest_job.py:135-149 | a FAILED run has two log entries, INDEXED and then FAILED, if and only if its `record_job` for success raised after its effect; else one |
| `StoredVectors.StoredVectorsAreTheirOwn` | app/infrastructure/ai/embedder.py:16-31 | documents ingested together, captions batched together in any way: the stored sections of an INDEXED document carry vectors the provider returned for their own captions |
| `StoredVectors.GatheredWasProvided` | utils/batch_embedder.py:104-113 | what `embed_batch` has returned at any moment of a run was provided, text by text |
| `IngestSystems.InvKept` | api/main.py:102-114 | every step of dispatcher or run keeps the invariant of the whole system |
| `IngestInvariants.RunStepKeeps` | app/application/ingest/run_ingest_job.py:44-149 | one step of a run, returning, raising part-way or cancelled, keeps what is promised about its document and touches no other |
| `IngestInvariants.CompletionIsFaithful` | app/application/ingest/index_sections.py:64-70 | what goes into the index are the split, captioned and embedded sections with metadata added |
| `IngestInvariants.InsertPart` | app/application/ingest/index_sections.py:70 | inserting any first part of the sections adds exactly those and leaves other documents alone |
| `IngestInvariants.DeletePart` | app/application/ingest/index_sections.py:40 | deleting any first part leaves other documents alone |
| `IngestJobs.DocumentIndexService.IndexSections` | app/application/ingest/index_sections.py:28-96 | the code's own order of calls leads the stores where the machine leads them, whichever call raises and however far it got |
| `IngestJobs.DocumentIndexService.StampSections` | app/application/ingest/index_sections.py:64-68 | the loop over the sections' metadata, in place |
| `IngestJobs.DocumentIndexService.DescribeDocument` | app/application/ingest/index_sections.py:34-63 | the calls up to the upsert of the record, a deletion that stops part-way included |
| `IngestJobs.DocumentIndexService.PublishSections` | app/application/ingest/index_sections.py:64-86 | the calls from the stamping on, an insertion that stops part-way included |
| `IngestJobs.RunIngestJob.Execute` | app/application/ingest/run_ingest_job.py:44-149 | a run alone, with faults at any calls, part-way ones included, and a cancellation at any stage, leaves the stores and ends as the machine does |
| `IngestJobs.RunIngestJob.Attempt` | app/application/ingest/run_ingest_job.py:50-133 | the try block: where it stops and what the stores then hold |
| `IngestJobs.RunIngestJob.Handle` | app/application/ingest/run_ingest_job.py:135-149 | the except block: entry first, then status |
| `IngestJobs.RunIngestJob.ParseFile` | app/application/ingest/run_ingest_job.py:62-73 | reading and parsing: normalised text, detected language, blank text refused |
| `IngestJobs.RunIngestJob.SplitFile` | app/application/ingest/run_ingest_job.py:81-94 | saving and splitting |
| `IngestJobs.RunIngestJob.MakeSections` | app/application/ingest/run_ingest_job.py:58-94 | from the file to the numbered sections, or the stage at which it ended |
| `IngestJobs.RunIngestJob.PutSections` | app/application/ingest/run_ingest_job.py:102-131 | from the captions to the stored document |
| `IngestJobs.RunIngestJob.EmbedCaptions` | app/application/ingest/run_ingest_job.py:111-120 | embedding in place |
| `IngestOutcomes.ExecuteKeepsAgreement` | app/application/ingest/run_ingest_job.py:44-149 | from stores in agreement, any faults, part-way ones included, any cancellation: they agree afterwards, other documents are untouched, and the status tells the result |
| `IngestOutcomes.CleanRunOutcome` | app/application/ingest/run_ingest_job.py:50-133 | if no call raises: skipped exactly when not claimable, succeeded exactly when text, captions and vectors fit, else failed |
| `Scanners.S3Scanner.Scan` | adapters/s3_adapter.py:76-164 | the two loops compute the jobs of the listing; without a client or a listing there are none |
| `Scanners.S3Scanner.Discover` | adapters/s3_adapter.py:93-106 | the supported files of all pages, in order |
| `Scanners.DocumentTypeOf` | adapters/s3_adapter.py:38-46 | directory below the prefix, or "general" |
| `Scanners.DocumentTypeElse` | adapters/s3_adapter.py:38-46 | "general" below a nameless directory; a key not below the prefix is typed by the whole key |
| `ScanTheorems.ScanEmitsExactly` | adapters/s3_adapter.py:111-161 | a scan emits a job for exactly the files without a record under their id and path, or with one that is FAILED, PENDING, INDEXING for `staleSeconds` or with none configured, or INDEXED in a known older version; and every field of the job |
| `ScanOrders.DiscoveredAre` | adapters/s3_adapter.py:93-106 | of all pages, in their order, exactly the objects with a supported suffix, each with its address, time and name |
| `ScanOrders.JobsAre` | adapters/s3_adapter.py:111-161 | one job for each file that needs one, in the order of the files, and no other |
| `ScanOrders.ObjectEmittedIff` | adapters/s3_adapter.py:76-164 | from listing to job: an object of a listing that names each key once leads to a job exactly when its suffix is supported and its file has no record or an outdated one |
| `ScanTheorems.FoundIsTheRecord` | adapters/s3_adapter.py:108-112 | the lookup by path finds a file's record exactly when there is one |
| `ScanTheorems.ScansAreClaimable` | adapters/s3_adapter.py:111-143 | in every reachable state what a scan emits can be claimed then and later while the record is untouched |
| `ScanTheorems.IndexedAgainOnlyIfNewer` | adapters/s3_adapter.py:145-159 | an INDEXED file is emitted again exactly when it is newer than the version last completed |
| `ScanTheorems.FileEmittedIff` | adapters/s3_adapter.py:115-161 | of a listing without repetitions the emitted files are exactly those without a record, or with one that is FAILED, PENDING, stale or older than the file |
| `ScanTheorems.ListingIsDistinct` | adapters/s3_adapter.py:93-106 | a listing that names each key once discovers each file once |
| `ScanTheorems.KeyedKept` | adapters/s3_adapter.py:30-35 | runs keep every record under the id of its own path |
| `Normaliser.NormalizeIsNormal` | app/application/ingest/run_ingest_job.py:160-166 | no carriage return, tab, control character, double space or triple newline, and stripped |
| `Normaliser.UnchangedIffNormal` | app/application/ingest/run_ingest_job.py:160-166 | unchanged exactly when already in that form |
| `Normaliser.NormalizeIdempotent` | app/application/ingest/run_ingest_job.py:160-166 | normalising twice is normalising once |
| `Normaliser.NormalizeKeepsVisible` | app/application/ingest/run_ingest_job.py:160-166 | the characters that are neither white space nor control are kept, in order |
| `Normaliser.EmptyIffNothingVisible` | app/application/ingest/run_ingest_job.py:72-73 | empty exactly when nothing visible was there |
| `NormalForms.NormalizeByRules` | app/application/ingest/run_ingest_job.py:160-166 | the result is the one text that the original can be rewritten to, by replacing "\r\n" and lone "\r" by a newline, then dropping control characters, making a tab a space, two spaces one, three newlines two, and stripping, and that none of these rules applies to |
| `NormalForms.BreaksAreAlike` | app/application/ingest/run_ingest_job.py:162 | "\r\n" and a lone "\r" anywhere in a text count as "\n" |
| `Normaliser.Run` | pipeline/02_clean.py:16-30 | both kinds of content, with the same normaliser as the other copy |
| `Normaliser.CleanPagesKeepsVisiblePages` | pipeline/02_clean.py:25-30 | exactly the pages with something visible remain, in order, under their numbers and with their normalised text |
| `Normaliser.CleanPagesIdempotent` | pipeline/02_clean.py:25-30 | cleaning cleaned pages changes nothing |
| `HeadingSplitter.HeadingIsThePattern` | app/infrastructure/sectioning/heading_splitter.py:9 | the matcher accepts exactly what the pattern accepts, with the same groups, on every line `splitlines` can give; on any other text it differs only where the heading text would contain a newline |
| `HeadingSplitter.Flush` | app/infrastructure/sectioning/heading_splitter.py:44-47 | a block with content becomes a section |
| `HeadingSplitter.SplitMarkdown` | app/infrastructure/sectioning/heading_splitter.py:39-61 | the loop computes the cut of the lines |
| `SplitterTheorems.SplitKeepsInk` | app/infrastructure/sectioning/heading_splitter.py:44-61 | the characters of the sections other than white space are those of the document, in order |
| `SectionTiles.ContentsTileTheText` | app/infrastructure/sectioning/heading_splitter.py:44-61 | the contents are cut out of the document in order, line breaks read as newlines, and only white space between them is left out; out of the very text if newlines are its only line breaks |
| `SectionTiles.PathsFollow` | app/infrastructure/sectioning/heading_splitter.py:53-56 | for any outline: each path is the part of the path before it that the heading's level leaves, and the heading |
| `Texts.LineEnds` | app/infrastructure/sectioning/heading_splitter.py:49 | every line boundary ends one line, and "\r\n" too |
| `SplitterTheorems.NoSectionIffBlank` | app/infrastructure/sectioning/heading_splitter.py:13-19 | no section exactly for a blank document: the fallback is never reached |
| `SplitterTheorems.HeadingsOpenSections` | app/infrastructure/sectioning/heading_splitter.py:49-60 | every heading starts a section, none occurs inside one, and only the preamble has none |
| `SplitterTheorems.SplitRoundTrip` | app/infrastructure/sectioning/heading_splitter.py:39-61 | joining the contents with blank lines and splitting again gives the same contents and paths |
| `SplitterTheorems.SectionPaths` | app/infrastructure/sectioning/heading_splitter.py:53-56 | a section's path is what the headings up to it build |
| `SplitterTheorems.PathBounds` | app/infrastructure/sectioning/heading_splitter.py:53-55 | with no assumption a path has 1 to level entries, at most 6, and ends in its heading |
| `SplitterTheorems.ChainWhenNoGap` | app/infrastructure/sectioning/heading_splitter.py:53-55 | if no level is skipped, each entry names the latest heading of its level |
| `SplitterTheorems.FullPathsIffNoGap` | app/infrastructure/sectioning/heading_splitter.py:53-55 | all paths are as long as their levels exactly when no level is skipped |
| `SplitterTheorems.SectionPathBounds` | app/infrastructure/sectioning/heading_splitter.py:39-61 | for the sections of any document: the section of the k-th heading has a path of 1 to level entries that ends in that heading |
| `SplitterTheorems.SectionPathsAreAncestors` | app/infrastructure/sectioning/heading_splitter.py:39-61 | for any document: all section paths are as long as their headings' levels if and only if its outline skips no level, and then each is the chain of the latest headings above |
| `Sections.SplitDocument` | app/infrastructure/sectioning/heading_splitter.py:13-37 | numbered sections of the document from the pieces |
| `Sections.SectionIdReads` | app/infrastructure/sectioning/heading_splitter.py:22 | document and index can be read back from a section id |
| `Sections.SectionIdFormat` | app/infrastructure/sectioning/heading_splitter.py:22 | document id, "_section_" and the index in decimal, filled up with zeros to four digits |
| `Sections.SectionIdInjective` | app/infrastructure/sectioning/heading_splitter.py:22 | different documents or indices never share an id |
| `VectorStores.UpsertIntoCleared` | app/infrastructure/vector/memory_store.py:21-23 | upserting into a cleared document leaves exactly the new sections, in order, and others alone |
| `VectorStores.UpsertHoldsLast` | app/infrastructure/vector/memory_store.py:21-23 | of the sections put in under one id the last is held, and no entry changes its place |
| `VectorStores.DeleteDocSpec` | app/infrastructure/vector/memory_store.py:37-40 | delete removes all of one document and nothing else |
| `VectorStores.SortSpec` | app/infrastructure/vector/memory_store.py:34 | descending, and stable score by score |
| `VectorStores.SortIsUnique` | app/infrastructure/vector/memory_store.py:34 | any list with these two properties is this one |
| `VectorStores.FilterFirst` | app/infrastructure/vector/memory_store.py:27-33 | a search within one document is a search of that document's sections |
| `VectorStores.EmptyFilter` | app/infrastructure/vector/memory_store.py:28-29 | a filter without an id is none |
| `VectorStores.InMemoryVectorStore.Upsert` | app/infrastructure/vector/memory_store.py:21-23 | the loop sets every section |
| `VectorStores.InMemoryVectorStore.Search` | app/infrastructure/vector/memory_store.py:25-35 | filter, score, sort and cut |
| `VectorStores.InMemoryVectorStore.Delete` | app/infrastructure/vector/memory_store.py:37-40 | collect, then remove |
| `Cosine.SimilarityBounded` | app/infrastructure/vector/memory_store.py:6-14 | symmetric and within [-1, 1], all degenerate cases included |
| `Cosine.SimilarityIs` | app/infrastructure/vector/memory_store.py:6-14 | times the two lengths it is the sum of the products, coordinate by coordinate; zero for mismatched or zero vectors |
| `Cosine.CauchySchwarz` | app/infrastructure/vector/memory_store.py:9-11 | the inequality, for vectors of any length |
| `Cosine.SelfSimilarity` | app/infrastructure/vector/memory_store.py:12-14 | 1 with itself, 0 for the zero vector |
| `SectionIndexes.IndexedComesBack` | app/infrastructure/vector/section_index.py:12-49 | a section comes back from the index as it went in, embedding aside, exactly when no stale metadata can stand in for an empty id or content |
| `SectionIndexes.OwnFieldsFirst` | app/infrastructure/vector/section_index.py:35-46 | a record's own fields come before what its metadata says |
| `SectionIndexes.VectorStoreSectionIndex.UpsertSections` | app/infrastructure/vector/section_index.py:12-30 | enriched copies go into the store |
| `SectionIndexes.VectorStoreSectionIndex.SearchSections` | app/infrastructure/vector/section_index.py:32-49 | records built from the hits |
| `SectionIndexes.VectorStoreSectionIndex.DeleteDocument` | app/infrastructure/vector/section_index.py:51-52 | delegates the deletion |
| `Searches.SearchMeetsSpec` | app/application/search/search_sections.py:38-67 | over-fetch, filter and cut give exactly the best `top_k` of all stored sections that pass the threshold |
| `SearchAnswers.SearchAnswer` | app/application/search/search_sections.py:38-67 | place by place of the store: at most `top_k` results, each of a section with a threshold of zero or a cosine of at least the threshold, best first and of equal ones the earlier; a section with enough score that is not among them ranks behind `top_k` that are |
| `SearchAnswers.IndexedIsShown` | app/application/search/search_sections.py:54-66 | a result shows each field of the section it stands for, the cosine of its vector, and the file name or else the document id |
| `Searches.NothingBetterLeftOut` | app/application/search/search_sections.py:49-67 | the specification without the sort: nothing that passes and scores more is left out |
| `Searches.OverFetchSuffices` | app/application/search/search_sections.py:38-42 | cutting before the filter loses nothing |
| `Searches.SearchSections.Search` | app/application/search/search_sections.py:29-70 | with the cached vector or the provider's: that specification; it raises only if the query is not cached and the provider raises |
| `Searches.SearchSections.SearchVector` | app/application/search/search_sections.py:38-67 | the loop meets that specification |
| `Searches.SearchSections.EmbedQuery` | app/application/search/search_sections.py:77-88 | the two critical sections and the provider call between them |
| `Searches.SearchSections.CacheLookup` | app/application/search/search_sections.py:78-82 | first critical section |
| `Searches.SearchSections.CacheStore` | app/application/search/search_sections.py:84-87 | second critical section |
| `SearchOutcomes.ResultsShowCompletedRuns` | app/application/search/search_sections.py:42-67 | in any state of the ingest system: a search result for an INDEXED document is a piece of the markdown that document's last completed run split, under its section id and with the score of its own vector |
| `SearchOutcomes.ResultsShowTheRecord` | app/application/search/search_sections.py:42-67 | in any state of the ingest system: a result for an INDEXED document shows one of its stored sections, with the file name and the addresses its record holds |
| `SearchAnswers.ResultsComeFromTheStore` | app/application/search/search_sections.py:49-67 | every result stands for one stored section |
| `QueryCaches.QueriesGetTheirOwnVectors` | app/application/search/search_sections.py:77-88 | any interleaving of threads keeps the cache bounded and serves only vectors given for that query |
| `QueryCaches.InvKept` | app/application/search/search_sections.py:77-88 | each critical section keeps that |
| `QueryCaches.StoredIs` | app/application/search/search_sections.py:84-87 | what a store leaves, entry by entry: a known query keeps its place, a new one comes last, and only the first entry of a full cache goes |
| `QueryCaches.StoredIsServedNext` | app/application/search/search_sections.py:78-87 | what a thread stored is served to the next that asks for it, and is then the newest |
| `QueryCaches.AskedIffNotHeld` | app/application/search/search_sections.py:78-83 | the provider is asked exactly for queries not in the cache |

## Left out

- MetadataStores.InMemoryMetadataStore.RecordJob: an entry has its document, status, section count and time; embedding model, duration and error message are omitted, because nothing reads them back.
- Fallback sections of the splitter: `SplitterTheorems.NoSectionIffBlank` shows that `split` never asks for them.
- Cancelling a run while a worker thread is inside a store call: only the end of the process does that, and no step of the loop follows; cancellation at the stages before indexing is modelled.
- Cancelling the embedder's timer task from outside (event loop shutdown), and the order in which waiters get the lock, except in `LockOrder` and `StrandedRequests`: any waiter may be next.
- A job the consumer holds when the dispatcher stops: whether and when its task still starts is left open.
- The captioner's own concurrency: it is one stage that returns one text for each section or fails; after splitting every caption is empty, so all sections are captioned.
- Identity of section objects: stores and stages pass values, so changing a section after it was put into the index is not captured.
- Record fields that no decision reads: title, file type, parser and model names, `total_chunks` (always the section count), access control, durations, error messages.
- A page of the S3 listing that fails while it is fetched, which the scan passes on, and suffix detection, which is a parameter.
- `embed_batch` as code: `BatchTheorems.EmbedBatchKeepsOrder` is about the calls of `embed_one` that it gathers.
- Time windows, retries and deadlines: timers fire and stages fail at any moment; rounding of floating-point numbers; hashing itself.
- The SQL, file and Qdrant stores, the web endpoints, settings, logging, parsers and OCR: foreign code or plumbing.
