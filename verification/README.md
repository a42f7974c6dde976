# Verified models of the system design patterns

This Dafny project models the concurrent protocols and stateful structures of a collection of small
Go components and proves what each of them is for. Each file stands for one component; the file's
first comment names it.

**Protocols.** Where goroutines meet, a module has a `State`, its `Event`s, an `Enabled` predicate and
an `Apply` function. One event is one mutex critical section, one channel operation, one condition
wait or one call to code outside the component; `IsRun(s, es, s')` says that the events `es` lead from
`s` to `s'`, so a theorem about all `es` is a theorem about every interleaving of any number of
goroutines. An invariant is shown to be kept by every event, and the theorems headed "What every
interleaving guarantees" follow for whole runs. The section headed "The code" then has the class with
the component's own fields; each of its methods is one atomic step of the Go code and ensures that the
object's `View()` changes as the event says. Ghost parameters name the goroutine; ghost fields keep
history that the theorems speak about (charges made, messages sent, values fetched).

- `KeyedMutex`: the reference-counted mutex per key.
- `Singleflight`, and on top of it `Stampede` (cache with a second look inside the group) and
  `StaleCache` (fallback to old values); `MemoryCaching` is the cache both use.
- `Payment`: the payment state machine and the idempotent pipeline around a charging gateway.
- `BatchLoader`: batches flushed by size or by timer, with stale timers.
- `BoundedQueue`: the condition-variable queue with its three overflow strategies.
- `MessageRouter`: per-key order through partitions. The order theorems hold for any partition
  function in range; the code's own one, 32-bit FNV-1a modulo the number of partitions, is shown to be,
  and is tied to FNV-1a by its step law and published hashes.
- `CancellationPipeline`: workers, closer and collector, with a measure that bounds every run.
- `ConnectionPool`: tokens, idle connections and the `released` flag.
- `CircuitBreaker`: closed, open and half-open under overlapping calls. The rules of a breaker are
  stated on what an observer sees (`Lawful`), apart from the counters.
- `GracefulShutdown`: the in-place insertion sort of the hooks, and the run of them.

**Sequential structures.** `LRU` (map and recency list, down to the list's elements), `CursorCodec` with
`CursorFormat` (what the strings look like) and `KeysetPagination`, `TokenBuckets` (the rate limiter, the
retry budget and the per-client limiter share their window laws), `UnitOfWork` (any callback, seen as a
strategy that depends on the answers it gets), `Saga` and `CacheAside` are functions with theorems about whole traces, and classes whose loops and
updates refine those functions. Beside the laws over whole runs, each operation has its outcome stated
outright: the page size in numbers, the text of a cursor, the tokens a gap earns, the item a Pop returns.

Time is an input that never goes back. Floating-point quantities are `real`. Callbacks have any outcome
they like, given as parameters; in `UnitOfWork` a panic is one of them.

Where the code does not do what one might expect, the exact condition is proved, with a concrete run
that shows the case to be reachable:

- A blocked `Push` is not woken by the cancellation of its context, although the comment on the
  strategy says so: only a Pop that picks it ends its waiting (`OnlyPopReleases`, `PushCanWait`), and
  once woken it adds its item if there is room, cancelled or not (`WokenPushIgnoresCancellation`).
- The cache with the stale fallback queries while an entry is fresh exactly if the entry was stored
  after the goroutine's own look (`QueriesFreshExactlyWhen`, `QueriesAgainWhileFresh`).
- Closing a connection twice is harmless exactly while nobody has acquired it again; otherwise it is
  idle and held at once (`ClosingTwiceIsSafeExactlyWhen`, `SecondCloseCanHarm`).
- A half-open breaker takes late answers of older calls, good or bad, exactly if there are older calls
  in flight (`TrialCountsProbesExactlyWhen`, `LateAnswerCloses`).
- `Stop` of the router makes a sender panic unless every `Route` has returned when it begins
  (`StopIsSafeExactlyWhen`, `SenderCanBeWaiting`).
- The per-client limiter keeps its bound exactly for settings that its constructor does not check
  (`BoundedExactlyWhen`; `OneCallOverBudget` is the run that goes over it).
- A saga does not compensate the step that fails, so even with compensations that do their work it
  restores the world exactly if that step had no effect (`FailingActionIsNotUndone`,
  `FailureCanLeaveTraces`).

`dafny verify dfyconfig.toml` checks the project.

## Model

| member | source | states |
|---|---|---|
| KeyedMutex.MutualExclusion | patterns/23_dataintegrity/pessimistic_lock.go:25-48 | in every interleaving at most one goroutine holds a key, and the mutex it will unlock is locked |
| KeyedMutex.RegistryIsExact | patterns/23_dataintegrity/pessimistic_lock.go:26-46 | a key is mapped exactly while some goroutine is inside for it; the count of its entry is the number of those goroutines; with nobody inside the map is empty |
| KeyedMutex.BlockedOnlyByHolder | patterns/23_dataintegrity/pessimistic_lock.go:35-39 | a waiting goroutine can go on if and only if nobody holds its key |
| KeyedMutex.StepKeepsInv | patterns/23_dataintegrity/pessimistic_lock.go:25-48 | each of the four atomic steps keeps the sharing and counting invariant |
| KeyedMutex.KeyedMutexLock.Enter | patterns/23_dataintegrity/pessimistic_lock.go:26-33 | first critical section: finds or makes the entry, counts the caller, refines the protocol step |
| KeyedMutex.KeyedMutexLock.Acquire | patterns/23_dataintegrity/pessimistic_lock.go:35 | locking the entry refines its step |
| KeyedMutex.KeyedMutexLock.Release | patterns/23_dataintegrity/pessimistic_lock.go:39 | unlocking the entry refines its step |
| KeyedMutex.KeyedMutexLock.Leave | patterns/23_dataintegrity/pessimistic_lock.go:41-46 | second critical section: uncounts the caller and deletes an unused entry |
| Singleflight.OneExecutionPerKey | patterns/09_concurrency/singleflight.go:28-50 | at most one execution per key is in flight, and the closing delete removes the leader's own call |
| Singleflight.SameResult | patterns/09_concurrency/singleflight.go:28-50 | all who return from one call have the same result and key; `shared` is set exactly if somebody else took part |
| Singleflight.JoinerHasLeader | patterns/09_concurrency/singleflight.go:30-43 | a joiner can wake, or its own leader has still to publish |
| Singleflight.StepKeepsInv | patterns/09_concurrency/singleflight.go:28-50 | every step keeps one leader per mapped key and the facts about every call |
| Singleflight.SingleflightGroup.Start | patterns/09_concurrency/singleflight.go:29-40 | joins the mapped call or becomes its leader |
| Singleflight.SingleflightGroup.Join | patterns/09_concurrency/singleflight.go:30-32 | marks the mapped call as shared |
| Singleflight.SingleflightGroup.Lead | patterns/09_concurrency/singleflight.go:37-40 | maps a new call |
| Singleflight.SingleflightGroup.FnReturns | patterns/09_concurrency/singleflight.go:42 | the result is written to the leader's call only |
| Singleflight.SingleflightGroup.Publish | patterns/09_concurrency/singleflight.go:43 | wg.Done refines its step |
| Singleflight.SingleflightGroup.Delete | patterns/09_concurrency/singleflight.go:45-49 | the map entry goes and the leader returns its call's result |
| Singleflight.SingleflightGroup.Wake | patterns/09_concurrency/singleflight.go:33-34 | a joiner returns the result of the call it joined |
| MemoryCaching.MemoryCache.Get | patterns/14_caching/cache_aside.go:37-47 | an entry is served, with the value stored for it, up to and including its expiry time; otherwise a miss |
| MemoryCaching.MemoryCache.Set | patterns/14_caching/cache_aside.go:49-58 | stores with expiry now + ttl and leaves the other keys alone |
| MemoryCaching.MemoryCache.Delete | patterns/14_caching/cache_aside.go:60-66 | removes the key and nothing else |
| CacheAside.StepKeepsAgreement | patterns/14_caching/cache_aside.go:94-120 | every Get and Set keeps cache and database in agreement, and changes the database as the bare write would |
| CacheAside.ReadsAreCurrent | patterns/14_caching/cache_aside.go:90-120 | in a serial run a value read is the one the last successful write left; a read fails only if the database is down or has no row |
| CacheAside.CacheIsTransparent | patterns/14_caching/cache_aside.go:90-120 | with a database that is up, the answers are those of the bare database |
| CacheAside.OutageIsBridged | patterns/14_caching/cache_aside.go:94-110 | after a read that went to the database, every read of that key within ttl is answered with the same value, the database up or down, as long as no write of the key succeeds |
| CacheAside.ExpiryIsSeen | patterns/14_caching/cache_aside.go:94-110 | past that time a read fails if the database is down |
| CacheAside.CacheAsideService.Get | patterns/14_caching/cache_aside.go:94-110 | hit, miss with fill until now + ttl, and database error branches |
| CacheAside.CacheAsideService.Set | patterns/14_caching/cache_aside.go:113-120 | writes the database first, then invalidates |
| Stampede.NoStampede | patterns/14_caching/stampede_prevention.go:24-53 | with entries expiring: one fetch in flight per key, values come from successful fetches of the key and errors from failed ones, no fetch starts while the last stored value is fresh |
| Stampede.FetchedOnce | patterns/14_caching/stampede_prevention.go:24-53 | while nothing stored has expired, at most one fetch succeeds and every nil-error answer is its value |
| Stampede.StepKeepsInv | patterns/14_caching/stampede_prevention.go:24-53 | every step keeps the invariant over cache, group and history |
| Stampede.StampedeProtectedCache.FastGet | patterns/14_caching/stampede_prevention.go:30-33 | fast path: answered exactly if there is an entry that has not expired, with its value |
| Stampede.StampedeProtectedCache.EnterDo | patterns/14_caching/stampede_prevention.go:36 | enters the group as leader or joiner |
| Stampede.StampedeProtectedCache.DoubleCheck | patterns/14_caching/stampede_prevention.go:37-40 | second look at the cache, by the same rule |
| Stampede.StampedeProtectedCache.FetchFails | patterns/14_caching/stampede_prevention.go:42-46 | a failed fetch is the result of the call and stores nothing |
| Stampede.StampedeProtectedCache.FetchSucceeds | patterns/14_caching/stampede_prevention.go:42 | a successful fetch |
| Stampede.StampedeProtectedCache.Store | patterns/14_caching/stampede_prevention.go:48 | stores the value that was fetched |
| Stampede.StampedeProtectedCache.EndFn | patterns/14_caching/stampede_prevention.go:39-49 | the value becomes the result of the call |
| StaleCache.AnswersAreGenuine | patterns/26_advanced/singleflight_cache.go:29-71 | queries of one key never overlap; every value returned, fresh or stale, came from a successful query of that key, and every error from a failed one |
| StaleCache.FallbackIsNewest | patterns/26_advanced/singleflight_cache.go:60-70 | a fallback is the newest value written when it was read; an error means that nothing had been written |
| StaleCache.ItemIsLastStore | patterns/26_advanced/singleflight_cache.go:48 | after any run the cache holds for a key what was stored last in it, or what it held before |
| StaleCache.QueriesFreshExactlyWhen | patterns/26_advanced/singleflight_cache.go:35-54 | a goroutine that has missed goes on to query while the entry is fresh if and only if nobody leads a call for the key and the entry was stored after its own look and has not expired |
| StaleCache.QueriesAgainWhileFresh | patterns/26_advanced/singleflight_cache.go:35-54 | the witness: a concrete run in which that happens |
| StaleCache.StepKeepsInv | patterns/26_advanced/singleflight_cache.go:29-71 | every step keeps the invariant over cache, stale map, group and history |
| StaleCache.SingleflightWithStaleCache.FastGet | patterns/26_advanced/singleflight_cache.go:36-38 | answered exactly if there is an entry that has not expired, with its value |
| StaleCache.SingleflightWithStaleCache.EnterDo | patterns/26_advanced/singleflight_cache.go:41 | enters the group as leader or joiner |
| StaleCache.SingleflightWithStaleCache.QueryFails | patterns/26_advanced/singleflight_cache.go:42-46 | a failed query is the result of the call and writes nothing |
| StaleCache.SingleflightWithStaleCache.QuerySucceeds | patterns/26_advanced/singleflight_cache.go:42 | a successful query |
| StaleCache.SingleflightWithStaleCache.SetCache | patterns/26_advanced/singleflight_cache.go:48 | stores in the cache |
| StaleCache.SingleflightWithStaleCache.SetStale | patterns/26_advanced/singleflight_cache.go:49-51 | stores in the stale map |
| StaleCache.SingleflightWithStaleCache.EndFn | patterns/26_advanced/singleflight_cache.go:53 | the value becomes the result of the call |
| StaleCache.SingleflightWithStaleCache.ReadStale | patterns/26_advanced/singleflight_cache.go:60-70 | the old value flagged as such if there is one, or else the error of the query |
| PaymentStates.OutcomesAreFinal | patterns/23_dataintegrity/state_machine.go:37-67 | whatever transitions are asked for, failed, refunded and unknown states are final, succeeded is only ever refunded, and only what succeeded is refunded |
| PaymentStates.RefundFollowsSuccess | patterns/23_dataintegrity/state_machine.go:46-50 | a refund is always of a payment that had succeeded |
| PaymentStates.TransitionsAre | patterns/23_dataintegrity/state_machine.go:37-53 | the transitions there are: five pairs and no others |
| PaymentStates.PaymentStateMachine.constructor | patterns/23_dataintegrity/state_machine.go:30-53 | any string is a state, the empty one means pending |
| PaymentStates.PaymentStateMachine.TransitionTo | patterns/23_dataintegrity/state_machine.go:56-68 | moves exactly when the table allows it, otherwise an error and no change |
| PaymentPipeline.ChargedAtMostOnce | patterns/26_advanced/idempotent_payment_pipeline.go:47-98 | at most one charge per key succeeds, charges of one key never overlap, and none is attempted after a success |
| PaymentPipeline.AnswersReportTheCharge | patterns/26_advanced/idempotent_payment_pipeline.go:47-98 | all nil-error answers of a key are one response that reports its single charge as SUCCEEDED |
| PaymentPipeline.NewRequest | patterns/26_advanced/idempotent_payment_pipeline.go:47-71 | for every request: no key, and it is told so; otherwise it charges if and only if nobody is at work on its key and nothing was charged, so failures leave the key retryable |
| PaymentPipeline.NoKeyNoCharge | patterns/26_advanced/idempotent_payment_pipeline.go:48-50 | in no run is anything charged, cached or marked for the empty key; every request without a key ends in the error that says so |
| PaymentPipeline.ChargesWereAskedFor | patterns/26_advanced/idempotent_payment_pipeline.go:77-82 | customer and amount of a charge are those of a request with its key |
| PaymentPipeline.FailureIsReported | patterns/26_advanced/idempotent_payment_pipeline.go:77-82 | a gateway failure is what its own request is told, whatever happens between |
| PaymentPipeline.StepKeepsInv | patterns/26_advanced/idempotent_payment_pipeline.go:47-98 | every step keeps marks, cached responses and charges in agreement |
| PaymentPipeline.IdempotentPaymentPipeline.Submit | patterns/26_advanced/idempotent_payment_pipeline.go:48-65 | the four outcomes of the first critical section, the missing key first |
| PaymentPipeline.IdempotentPaymentPipeline.GatewayReturns | patterns/26_advanced/idempotent_payment_pipeline.go:73-91 | drives the state machine and builds the response or the error |
| PaymentPipeline.IdempotentPaymentPipeline.CacheResponse | patterns/26_advanced/idempotent_payment_pipeline.go:93-95 | caches the response while the mark still stands |
| PaymentPipeline.IdempotentPaymentPipeline.Clear | patterns/26_advanced/idempotent_payment_pipeline.go:67-71 | the deferred clearing of the mark |
| BatchLoader.NothingStranded | patterns/13_database/batch_loader.go:54-81 | while requests wait, `b.timer` is set and its closure has yet to run, stale closures or not |
| BatchLoader.ShortFlushesAreTimed | patterns/13_database/batch_loader.go:54-81 | in every run the flushes with fewer than the maximum of requests are no more than the timer closures that have run: by size only full batches are flushed |
| BatchLoader.LoadBelowMaximumWaits | patterns/13_database/batch_loader.go:54-81 | a request that does not fill the batch joins it, flushes nothing and leaves a timer set |
| BatchLoader.LoadAtMaximumFlushes | patterns/13_database/batch_loader.go:57-66 | the request that fills the batch flushes all of it and takes its timer away |
| BatchLoader.FlushesPartitionRequests | patterns/13_database/batch_loader.go:54-81 | flushes are consecutive pieces of the arrival order, none empty, none above the maximum; each request is in exactly one or waits |
| BatchLoader.OneAnswerEach | patterns/13_database/batch_loader.go:95-121 | each request gets exactly one answer once served, and no send blocks |
| BatchLoader.AnswersSpelledOut | patterns/13_database/batch_loader.go:106-120 | what is sent: the reason of a failed batch, the value found for the key, or that there is none |
| BatchLoader.UniqueKeysAreTheKeys | patterns/13_database/batch_loader.go:96-104 | the keys asked for are those of the requests, each once |
| BatchLoader.BatchingIsTransparent | patterns/13_database/batch_loader.go:95-121 | for a pointwise batch function every answer is that of a one-key lookup |
| BatchLoader.StepKeepsInv | patterns/13_database/batch_loader.go:47-121 | every step keeps timer, batch and mailbox invariants |
| BatchLoader.BatchLoader.constructor | patterns/13_database/batch_loader.go:27-44 | the size default |
| BatchLoader.BatchLoader.Load | patterns/13_database/batch_loader.go:54-81 | append, then flush exactly the whole batch at the limit or arm the timer; an empty result flushes nothing and keeps all requests waiting |
| BatchLoader.BatchLoader.TimerRuns | patterns/13_database/batch_loader.go:69-78 | the closure takes whatever is pending |
| BatchLoader.BatchLoader.CollectKeys | patterns/13_database/batch_loader.go:96-104 | the loop yields the first occurrences in order |
| BatchLoader.BatchLoader.Deliver | patterns/13_database/batch_loader.go:106-120 | the delivery loops are a run of send steps that serves the whole flush |
| BatchLoader.BatchLoader.SendAnswer | patterns/13_database/batch_loader.go:107-119 | the value, the not-found error or the batch error goes to the channel of the request |
| LRU.RunWellFormed | patterns/14_caching/bounded_lru.go:34-72 | keys stay distinct and at most `capacity` of them |
| LRU.HitsAreLastPut | patterns/14_caching/bounded_lru.go:34-56 | a cached value is the last one put |
| LRU.EvictsLeastRecent | patterns/14_caching/bounded_lru.go:47-72 | after any trace the cache holds exactly the most recently used keys, in order of last use |
| LRU.RunIncluded | patterns/14_caching/bounded_lru.go:34-72 | inclusion is kept by every step of two caches of different capacity |
| LRU.Inclusion | patterns/14_caching/bounded_lru.go:34-72 | on one trace the smaller recency list is a subsequence of the larger, and its hits are hits with the same value |
| LRU.LRUCache.Get | patterns/14_caching/bounded_lru.go:34-45 | a hit moves its element to the front |
| LRU.LRUCache.Put | patterns/14_caching/bounded_lru.go:48-72 | map and list together follow the recency list |
| LRU.LRUCache.MakeRoom | patterns/14_caching/bounded_lru.go:58-66 | a full cache loses its least recent entry, any other nothing |
| LRU.LRUCache.Evict | patterns/14_caching/bounded_lru.go:58-66 | the back element leaves list and map |
| LRU.LRUCache.Insert | patterns/14_caching/bounded_lru.go:69-71 | a new element at the front of list and map |
| LRU.LRUCache.MoveToFront | patterns/14_caching/bounded_lru.go:39 | list.MoveToFront on the elements |
| LRU.LRUCache.Update | patterns/14_caching/bounded_lru.go:52-56 | the update branch of Put |
| LRU.LRUCache.Len | patterns/14_caching/bounded_lru.go:75-79 | map size equals list length, at most the capacity |
| CursorCodec.IntRoundTrip | patterns/04_persistence/keyset_pagination.go:25-50 | decimal printing and parsing are inverse on all int64 |
| CursorCodec.Base64RoundTrip | patterns/04_persistence/keyset_pagination.go:26-36 | padded base64url (sections 4 and 5 of RFC 4648) is inverted by its decoder, on all byte strings |
| CursorCodec.CursorRoundTrip | patterns/04_persistence/keyset_pagination.go:24-53 | DecodeCursor(c.Encode()) == c for every pair of int64 values |
| CursorCodec.EncodeIsInjective | patterns/04_persistence/keyset_pagination.go:24-27 | different cursors have different strings |
| CursorFormat.DecimalNotation | patterns/04_persistence/keyset_pagination.go:25 | integers are printed in decimal: one digit, one digit more, the sign |
| CursorFormat.ValueOfDigits | patterns/04_persistence/keyset_pagination.go:42-49 | a text has a value exactly if it is all digits, and it is the value of decimal notation |
| CursorFormat.ParsesNumber | patterns/04_persistence/keyset_pagination.go:42-49 | digits with or without a sign are parsed exactly if they fit into 64 bits |
| CursorFormat.ParsesNothingElse | patterns/04_persistence/keyset_pagination.go:42-49 | nothing else is parsed |
| CursorFormat.LetterIs | patterns/04_persistence/keyset_pagination.go:26 | the letters are those of the table of section 5 of RFC 4648 |
| CursorFormat.EncodingIs | patterns/04_persistence/keyset_pagination.go:26 | section 4 of RFC 4648: each letter shows six of the 24 bits of its group of three bytes; where no byte is left there is padding |
| CursorFormat.DecodedExactlyWhen | patterns/04_persistence/keyset_pagination.go:33-36 | a text is decoded exactly if, line breaks apart, it is full groups of letters with at most two signs of padding at the end |
| CursorFormat.DecodingIs | patterns/04_persistence/keyset_pagination.go:33-36 | each byte decoded is eight of the 24 bits of its group, canonical text or not |
| CursorFormat.LineBreaksAreSkipped | patterns/04_persistence/keyset_pagination.go:33-36 | a line break may stand anywhere |
| CursorFormat.CursorText | patterns/04_persistence/keyset_pagination.go:25-26 | what is encoded is the text timestamp, colon, id |
| CursorFormat.DecodesExactly | patterns/04_persistence/keyset_pagination.go:29-41 | nil exactly for the empty string; an encoding error exactly if it is not base64; a format error exactly if there is not one colon |
| CursorFormat.DecodesParts | patterns/04_persistence/keyset_pagination.go:38-52 | the part before the colon is the timestamp, the other the id; a number error exactly if one of them is no int64 |
| CursorFormat.SampleCursor | patterns/04_persistence/keyset_pagination.go:24-27 | timestamp 5 and id 7 are encoded as NTo3 |
| KeysetPagination.PageIsNextRows | patterns/04_persistence/keyset_pagination.go:84-117 | a page is the next rows beyond the cursor; with more to come, its last row is the next cursor |
| KeysetPagination.TraverseIsWalk | patterns/04_persistence/keyset_pagination.go:71-118 | following the string cursors is following the decoded ones |
| KeysetPagination.WalkIsExact | patterns/04_persistence/keyset_pagination.go:71-118 | a traversal from any cursor, over tables that change, is sorted, sound and complete |
| KeysetPagination.DriftFree | patterns/04_persistence/keyset_pagination.go:70-118 | a complete traversal of changing tables returns no row twice and misses none that was there throughout |
| KeysetPagination.FixedTable | patterns/04_persistence/keyset_pagination.go:70-118 | on a fixed table, with pages of 10, the limit or 100 rows, it ends after the expected number of pages and returns exactly the table |
| KeysetPagination.PagesAreFull | patterns/04_persistence/keyset_pagination.go:71-118 | a page with more to come has exactly 10 rows for a limit below 1, the limit itself from 1 to 100, 100 above; a last page no more; a request fails exactly if its cursor does |
| KeysetPagination.PageCountIsCeiling | patterns/04_persistence/keyset_pagination.go:99-117 | the number of pages is the number of rows by the page size, rounded up, and at least one |
| KeysetPagination.KeysetPaginator.FetchPage | patterns/04_persistence/keyset_pagination.go:71-118 | page size with the literal defaults and limits, cursor errors, page |
| KeysetPagination.KeysetPaginator.RowsAfter | patterns/04_persistence/keyset_pagination.go:84-111 | the page loop |
| KeysetPagination.KeysetPaginator.FirstAfter | patterns/04_persistence/keyset_pagination.go:87-97 | the search loop finds the first row after the cursor, or the end |
| BoundedQueue.NobodySleepsForever | patterns/09_concurrency/backpressure_queue.go:50-98 | no lost wakeup: waiting poppers are matched by woken ones for every item, waiting pushers for every free place |
| BoundedQueue.NothingIsLost | patterns/09_concurrency/backpressure_queue.go:50-98 | bounded FIFO: accepted items are those removed from the front, popped or dropped, followed by those queued; the counter counts the drops |
| BoundedQueue.PopReturnsOldest | patterns/09_concurrency/backpressure_queue.go:82-98 | a Pop returns an item exactly if there is one: the first accepted of those not yet taken, which is what leaves the queue |
| BoundedQueue.AnswersSpellOutTheQueue | patterns/09_concurrency/backpressure_queue.go:82-98 | over runs what is returned to poppers, each to its own, is what left the queue other than by a drop, in the order of acceptance |
| BoundedQueue.PushAnswers | patterns/09_concurrency/backpressure_queue.go:58-78 | room: the item is added; full: refused, in place of the oldest, or a cancellation or a wait, as the strategy says |
| BoundedQueue.ReleasedExactlyWhen | patterns/09_concurrency/backpressure_queue.go:58-97 | a step ends the waiting of a Push if and only if it is a Pop that takes an item and whose signal picks that Push |
| BoundedQueue.OnlyPopReleases | patterns/09_concurrency/backpressure_queue.go:66-72 | over runs: a blocked Push waits throughout if and only if no Pop picks it, whatever else is taken, pushed or cancelled |
| BoundedQueue.PushCanWait | patterns/09_concurrency/backpressure_queue.go:66-72 | the witness: a concrete run to a waiting Push that another cancelled Push does not release |
| BoundedQueue.CancellationSeenExactlyWhen | patterns/09_concurrency/backpressure_queue.go:58-78 | a Push reports a cancellation if and only if the queue is full, it would block and its context is done; with room it adds its item |
| BoundedQueue.WokenPushIgnoresCancellation | patterns/09_concurrency/backpressure_queue.go:58-78 | a woken Push with a cancelled context adds its item exactly when there is room |
| BoundedQueue.StepKeepsInv | patterns/09_concurrency/backpressure_queue.go:50-98 | every critical section keeps wakeups and conservation |
| BoundedQueue.BoundedQueue.constructor | patterns/09_concurrency/backpressure_queue.go:34-47 | the capacity default |
| BoundedQueue.BoundedQueue.Push | patterns/09_concurrency/backpressure_queue.go:50-79 | Push up to its end or its first wait |
| BoundedQueue.BoundedQueue.PushAgain | patterns/09_concurrency/backpressure_queue.go:58-78 | Push after a wakeup, with its result |
| BoundedQueue.BoundedQueue.Loop | patterns/09_concurrency/backpressure_queue.go:58-78 | the loop, and with room the append and the signal |
| BoundedQueue.BoundedQueue.FindRoom | patterns/09_concurrency/backpressure_queue.go:58-74 | the overflow loop with its three strategies |
| BoundedQueue.BoundedQueue.Pop | patterns/09_concurrency/backpressure_queue.go:82-98 | Pop up to its end or its first wait; the item returned was at the front |
| BoundedQueue.BoundedQueue.PopAgain | patterns/09_concurrency/backpressure_queue.go:86-97 | Pop after a wakeup; the item returned was at the front |
| BoundedQueue.BoundedQueue.TryPop | patterns/09_concurrency/backpressure_queue.go:86-97 | the loop of Pop; the item returned was at the front |
| MessageRouter.KeysAreFifo | patterns/15_messaging/message_ordering.go:47-77 | for every key what was handled, is handled and is queued are consecutive pieces of what was sent; one worker per key |
| MessageRouter.StopHandlesEverything | patterns/15_messaging/message_ordering.go:86-92 | after Stop without cancellation all messages have been handled |
| MessageRouter.RouterKeepsOrder | patterns/15_messaging/message_ordering.go:73-92 | both laws for the partition function of the code |
| MessageRouter.StopIsSafeExactlyWhen | patterns/15_messaging/message_ordering.go:73-92 | once Stop begins and no new Route is called, no send can panic on a closed channel if and only if every Route, blocked ones included, has returned by then |
| MessageRouter.SenderCanBeWaiting | patterns/15_messaging/message_ordering.go:74-77 | the witness: a run to a Route under way before Stop |
| MessageRouter.WorkersLeave | patterns/15_messaging/message_ordering.go:56-65 | once the channels are closed every worker can step, and each step brings it nearer to leaving |
| MessageRouter.IndexIsFnv | patterns/15_messaging/message_ordering.go:79-83 | FNV-1a by its offset basis and its step for one byte more, and the remainder that picks the partition |
| MessageRouter.FnvTestVectors | patterns/15_messaging/message_ordering.go:79-83 | the published hashes of "a" and "foo" |
| MessageRouter.Index | patterns/15_messaging/message_ordering.go:75-83 | the partition index is in range |
| MessageRouter.StepKeepsInv | patterns/15_messaging/message_ordering.go:29-92 | every step keeps the order invariant |
| MessageRouter.PartitionedMessageRouter.constructor | patterns/15_messaging/message_ordering.go:34-70 | the default of four partitions, all idle |
| MessageRouter.PartitionedMessageRouter.Route | patterns/15_messaging/message_ordering.go:74-75 | the partition is the hash of the key modulo the number of partitions; the send is now pending |
| MessageRouter.PartitionedMessageRouter.Send | patterns/15_messaging/message_ordering.go:76 | the send at the moment it completes |
| MessageRouter.PartitionedMessageRouter.Take | patterns/15_messaging/message_ordering.go:60 | a worker receives the oldest message |
| MessageRouter.PartitionedMessageRouter.CloseNext | patterns/15_messaging/message_ordering.go:88 | one turn of the loop: the next channel is closed |
| MessageRouter.PartitionedMessageRouter.CloseAll | patterns/15_messaging/message_ordering.go:87-89 | the closing loop closes every channel |
| CancellationPipeline.JobsAreConserved | patterns/05_context/cancellation_pipeline.go:22-79 | every job is finished, queued, held or dropped, with multiplicity; emitted and waiting results are those of the finished ones |
| CancellationPipeline.NilErrorMeansAllSquares | patterns/05_context/cancellation_pipeline.go:69-78 | a nil error means the results are the squares of all jobs, as a multiset |
| CancellationPipeline.ResultsAreSquares | patterns/05_context/cancellation_pipeline.go:53-56 | every result is the product of a job with itself, wrapped to 64 bits if it does not fit |
| CancellationPipeline.ErrorMeansCancelled | patterns/05_context/cancellation_pipeline.go:74-76 | without cancellation the error is nil |
| CancellationPipeline.SendsNeverBlock | patterns/05_context/cancellation_pipeline.go:50-57 | a send always has room and an open channel |
| CancellationPipeline.StepsBurnFuel | patterns/05_context/cancellation_pipeline.go:36-72 | every step decreases a measure |
| CancellationPipeline.RunsAreBounded | patterns/05_context/cancellation_pipeline.go:22-79 | so every run is bounded by the measure at its start |
| CancellationPipeline.StuckMeansReturned | patterns/05_context/cancellation_pipeline.go:22-79 | a run that cannot go on has returned: no deadlock |
| CancellationPipeline.Pipeline.constructor | patterns/05_context/cancellation_pipeline.go:23-34 | worker default, enqueueing loop, closed job channel |
| CancellationPipeline.Pipeline.Receive | patterns/05_context/cancellation_pipeline.go:45-48 | a worker takes a job or leaves |
| CancellationPipeline.Pipeline.Send | patterns/05_context/cancellation_pipeline.go:53-56 | the square of the job is emitted |
| CancellationPipeline.Pipeline.ReceiveResult | patterns/05_context/cancellation_pipeline.go:70-71 | one turn of the collector loop, at any moment: a result, or the end when the channel is closed and empty |
| CancellationPipeline.Pipeline.Drain | patterns/05_context/cancellation_pipeline.go:69-78 | the collector loop and the return, from the closing of the channel on |
| TokenBuckets.TokensComeFromSomewhere | patterns/09_concurrency/rate_limiter.go:39-84 | tokens given out and left never exceed what was there, earned and deposited |
| TokenBuckets.RunStaysFilled | patterns/09_concurrency/rate_limiter.go:75-84 | a bucket stays between empty and full |
| TokenBuckets.WindowBound | patterns/09_concurrency/rate_limiter.go:39-84 | in any window of any run, admissions are at most a full bucket, what is earned in the window and what is deposited in it |
| TokenBuckets.RefusedExactlyWhen | patterns/09_concurrency/rate_limiter.go:39-51 | a token is refused if and only if what was left and what has been earned since are below one, or the capacity is |
| TokenBuckets.PacedIsAdmitted | patterns/09_concurrency/rate_limiter.go:39-84 | after any run, a call by which a token has been earned since the one before is admitted |
| TokenBuckets.ExactAccount | patterns/09_concurrency/rate_limiter.go:39-84 | while the capacity is not reached, admissions and tokens left equal what was there, earned and deposited |
| RateLimiter.AdmissionBound | patterns/09_concurrency/rate_limiter.go:39-84 | at most burst + rate * t admissions in any window of t seconds |
| TokenBuckets.RefusedAtRateExactlyWhen | patterns/09_concurrency/rate_limiter.go:39-84 | refused if and only if tokens + rate * elapsed < 1, or burst < 1 |
| RateLimiter.PacedCallsAreAdmitted | patterns/09_concurrency/rate_limiter.go:39-84 | after any run, a call 1/rate seconds or more after the one before is admitted if burst >= 1 |
| RateLimiter.AdmissionAccount | patterns/09_concurrency/rate_limiter.go:39-84 | admissions and tokens left == initial tokens + rate * time, while the burst is not reached |
| RateLimiter.TokenBucketRateLimiter.constructor | patterns/09_concurrency/rate_limiter.go:22-36 | defaults; starts full |
| RateLimiter.TokenBucketRateLimiter.Allow | patterns/09_concurrency/rate_limiter.go:39-51 | refill, then one token or refusal, which comes exactly if tokens + rate * elapsed or burst is below one |
| RateLimiter.TokenBucketRateLimiter.RefillLocked | patterns/09_concurrency/rate_limiter.go:75-84 | adds rate * elapsed, capped at burst |
| RetryBudgets.RetryBound | patterns/08_httpclient/retry_budget.go:41-79 | at most maxTokens + minRetriesSec * t + ratio * requests retries in any window of t seconds |
| RetryBudgets.PacedRetriesAreGranted | patterns/08_httpclient/retry_budget.go:55-79 | after any run, a retry is granted once minRetriesSec * t since the last use is a token |
| RetryBudgets.BudgetAccount | patterns/08_httpclient/retry_budget.go:41-79 | retries granted and tokens left == initial tokens + minRetriesSec * t + ratio * requests, while the budget is not full |
| RetryBudgets.RetryBudget.constructor | patterns/08_httpclient/retry_budget.go:20-38 | defaults; starts full |
| RetryBudgets.RetryBudget.RecordRequest | patterns/08_httpclient/retry_budget.go:41-52 | deposits ratio, capped |
| RetryBudgets.RetryBudget.TryAcquireRetry | patterns/08_httpclient/retry_budget.go:55-67 | takes one token or refuses, which comes exactly if tokens + minRetriesSec * elapsed or maxTokens is below one |
| RetryBudgets.RetryBudget.ReplenishLocked | patterns/08_httpclient/retry_budget.go:69-79 | adds minRetriesSec * elapsed, capped at maxTokens |
| IPRateLimiting.ClientsAreIndependent | patterns/11_middleware/rate_limit_middleware.go:33-61 | a client is served as if it were the only one |
| IPRateLimiting.PerClientBound | patterns/11_middleware/rate_limit_middleware.go:33-61 | at most burst + rate * t admissions per client in any window, for burst >= 1 and rate >= 0 |
| IPRateLimiting.AdmittedExactlyWhen | patterns/11_middleware/rate_limit_middleware.go:37-61 | admitted if and only if the client is new, or tokens + rate * elapsed and burst are at least one |
| IPRateLimiting.PacedClientIsAdmitted | patterns/11_middleware/rate_limit_middleware.go:33-61 | after any run, a client that has earned a token since its own last call is admitted, whatever others did |
| IPRateLimiting.BoundedExactlyWhen | patterns/11_middleware/rate_limit_middleware.go:25-61 | the bound holds in all windows of all runs if and only if burst >= 1 and rate >= 0; the constructor checks neither |
| IPRateLimiting.OneCallOverBudget | patterns/11_middleware/rate_limit_middleware.go:37-45 | the witness: the first call of a client is admitted whatever the settings are |
| IPRateLimiting.IPRateLimiter.Allow | patterns/11_middleware/rate_limit_middleware.go:33-61 | an unknown client is admitted with burst - 1 tokens left; others are refilled and charged; buckets are not shared |
| CircuitBreakers.FollowsTheRules | patterns/08_httpclient/circuit_breaker.go:65-132 | with overlapping calls, everything observed is lawful: it opens exactly on the last allowed failure in a row or a failed trial, closes exactly on the last needed success, and nothing due is left undone |
| CircuitBreakers.CountersCount | patterns/08_httpclient/circuit_breaker.go:99-132 | CLOSED: failures below threshold and equal to the run of failures; HALF_OPEN: successes below threshold and equal to those of the trial; else zero |
| CircuitBreakers.RejectedExactlyInCooldown | patterns/08_httpclient/circuit_breaker.go:65-83 | a call is turned away if and only if some opening is younger than the cooldown |
| CircuitBreakers.NoAdmissionInCooldown | patterns/08_httpclient/circuit_breaker.go:65-83 | no admission follows any opening by less than the cooldown |
| CircuitBreakers.TrialCountsProbesExactlyWhen | patterns/08_httpclient/circuit_breaker.go:87-132 | a half-open breaker counts only successes of its own trial calls, and is reopened only by their failures, if and only if no older call is in flight |
| CircuitBreakers.TakesLateAnswers | patterns/08_httpclient/circuit_breaker.go:99-132 | a late success counts towards closing, a late failure reopens |
| CircuitBreakers.LateAnswerCloses | patterns/08_httpclient/circuit_breaker.go:87-132 | the witness: a concrete run after which a call from before the opening closes or reopens the breaker |
| CircuitBreakers.StepKeepsInv | patterns/08_httpclient/circuit_breaker.go:65-132 | every critical section keeps the invariant |
| CircuitBreakers.CircuitBreaker.constructor | patterns/08_httpclient/circuit_breaker.go:39-55 | defaults 5, 2 and 10 seconds; starts closed |
| CircuitBreakers.CircuitBreaker.CheckStateTransitionLocked | patterns/08_httpclient/circuit_breaker.go:65-72 | OPEN becomes HALF_OPEN after the cooldown, with both readings of the clock |
| CircuitBreakers.CircuitBreaker.Query | patterns/08_httpclient/circuit_breaker.go:58-63 | State() |
| CircuitBreakers.CircuitBreaker.Admit | patterns/08_httpclient/circuit_breaker.go:76-83 | first critical section of Execute |
| CircuitBreakers.CircuitBreaker.Return | patterns/08_httpclient/circuit_breaker.go:87-96 | second critical section of Execute |
| CircuitBreakers.CircuitBreaker.RecordFailureLocked | patterns/08_httpclient/circuit_breaker.go:99-115 | failure in each state |
| CircuitBreakers.CircuitBreaker.RecordSuccessLocked | patterns/08_httpclient/circuit_breaker.go:117-132 | success in each state |
| UnitOfWork.CallAgrees | patterns/04_persistence/unit_of_work.go:79-109 | each call on the session answers, and after a commit leaves, what the same call on the store would |
| UnitOfWork.AllOrNothing | patterns/04_persistence/unit_of_work.go:112-141 | for any callback, success leaves the store as direct execution would, with the same answers; error or panic leaves it untouched |
| UnitOfWork.ReadsAndCommit | patterns/04_persistence/unit_of_work.go:79-141 | reads see the latest write of the transaction; a commit leaves the latest writes and appends the posted entries |
| UnitOfWork.WritesAreAnswered | patterns/04_persistence/unit_of_work.go:95-109 | in every transaction a wallet is refused exactly if it is nil or has no id, a ledger entry exactly if it is nil |
| UnitOfWork.TxSession.GetWallet | patterns/04_persistence/unit_of_work.go:79-93 | staged, store, or not found; the caller gets a copy |
| UnitOfWork.TxSession.UpdateWallet | patterns/04_persistence/unit_of_work.go:95-101 | stages a copy; refuses exactly nil and an empty id |
| UnitOfWork.TxSession.CreateLedgerEntry | patterns/04_persistence/unit_of_work.go:103-109 | appends; refuses exactly nil |
| UnitOfWork.InMemoryUnitOfWork.ExecuteTx | patterns/04_persistence/unit_of_work.go:112-141 | commit, rollback and panic branches refine the transaction function |
| UnitOfWork.InMemoryUnitOfWork.Apply | patterns/04_persistence/unit_of_work.go:131-138 | the commit applies all staged wallets and entries |
| UnitOfWork.InMemoryUnitOfWork.ApplyWallets | patterns/04_persistence/unit_of_work.go:135-137 | the commit loop, in whatever order the map is walked |
| ConnectionPool.CapacityIsConserved | patterns/04_persistence/pool_limiter.go:67-118 | tokens + idle + outstanding connections, those being opened included, == maxCapacity; no connection is idle and out, or out twice |
| ConnectionPool.ReleaseIsDirect | patterns/04_persistence/pool_limiter.go:31-118 | a Close by the one use that has the connection finds the flag unset, and the release after it is possible at once, through the idle channel |
| ConnectionPool.ReleaseHasRoom | patterns/04_persistence/pool_limiter.go:105-118 | release finds room on the idle channel, so it neither blocks nor takes its default branch |
| ConnectionPool.BlockedOnlyWhenExhausted | patterns/04_persistence/pool_limiter.go:85-102 | an Acquire is kept waiting if and only if all maxCapacity connections are out or being opened |
| ConnectionPool.StatsCount | patterns/04_persistence/pool_limiter.go:121-135 | with anything between its two reads, Stats never needs its clamp and counts the connections out or being opened and those begun in between |
| ConnectionPool.UndisturbedAcquire | patterns/04_persistence/pool_limiter.go:67-102 | an Acquire left alone gets the connection idle for longest, or else a new one with the next id, or else its wait is counted |
| ConnectionPool.UndisturbedClose | patterns/04_persistence/pool_limiter.go:31-118 | a Close left alone sets the flag and puts the connection at the end of the idle channel |
| ConnectionPool.OpenedForGood | patterns/04_persistence/pool_limiter.go:77-118 | in every run connections opened, being opened and tokens left add up to maxCapacity; ids run from 1 on; the waits counted are the tries that found no token |
| ConnectionPool.ClosingTwiceIsSafeExactlyWhen | patterns/04_persistence/pool_limiter.go:31-35 | a second Close by a finished use changes nothing if and only if the flag is still set, that is, nobody has acquired the connection since; otherwise the connection ends up idle while held and the pool one above capacity |
| ConnectionPool.SecondCloseCanHarm | patterns/04_persistence/pool_limiter.go:31-35 | the witness: a concrete run to the harmful case |
| ConnectionPool.StepKeepsInv | patterns/04_persistence/pool_limiter.go:31-118 | every channel and flag operation keeps the invariant |
| ConnectionPool.ConnectionPoolLimiter.constructor | patterns/04_persistence/pool_limiter.go:49-64 | default of ten, tokens filled by the loop |
| ConnectionPool.ConnectionPoolLimiter.TryIdle | patterns/04_persistence/pool_limiter.go:69-74 | first select: the front of the idle channel, or null exactly if it is empty |
| ConnectionPool.ConnectionPoolLimiter.TryToken | patterns/04_persistence/pool_limiter.go:77-87 | second select: a token exactly if there is one, otherwise one more wait is counted |
| ConnectionPool.ConnectionPoolLimiter.TakeFirst | patterns/04_persistence/pool_limiter.go:70 | receive from the idle channel |
| ConnectionPool.ConnectionPoolLimiter.TakeOneToken | patterns/04_persistence/pool_limiter.go:91 | receive a token |
| ConnectionPool.ConnectionPoolLimiter.OpenConnection | patterns/04_persistence/pool_limiter.go:92-97 | a new connection with the next id |
| ConnectionPool.ConnectionPoolLimiter.Revive | patterns/04_persistence/pool_limiter.go:99 | clearing the flag of a reused connection |
| ConnectionPool.ConnectionPoolLimiter.Close | patterns/04_persistence/pool_limiter.go:31-33 | the compare-and-swap |
| ConnectionPool.ConnectionPoolLimiter.Release | patterns/04_persistence/pool_limiter.go:112-117 | hand back to the idle channel, or a token |
| HookOrder.SortIsStable | patterns/01_lifecycle/graceful_shutdown.go:62-73 | the hooks come out in falling priority, those of equal priority as registered |
| HookOrder.OrderIsUnique | patterns/01_lifecycle/graceful_shutdown.go:62-73 | there is no other such order |
| HookOrder.SortIsPermutation | patterns/01_lifecycle/graceful_shutdown.go:62-73 | no hook is lost or doubled |
| HookOrder.SortHooks | patterns/01_lifecycle/graceful_shutdown.go:65-73 | the in-place loop computes that order |
| HookOrder.InsertInPlace | patterns/01_lifecycle/graceful_shutdown.go:66-72 | the inner loop inserts in place |
| GracefulShutdown.HooksRunInOrder | patterns/01_lifecycle/graceful_shutdown.go:54-92 | over all Shutdown calls the hooks run are a prefix of the sorted ones, so each at most once |
| GracefulShutdown.RepliesAreTrue | patterns/01_lifecycle/graceful_shutdown.go:54-92 | a timeout means a proper prefix was run; otherwise all were run and all failures are reported in order; at most one caller gets either |
| GracefulShutdown.RecordsAreTrue | patterns/01_lifecycle/graceful_shutdown.go:38-91 | the hooks are those registered before the first Shutdown, and what is recorded for each one run is what it returned |
| GracefulShutdown.EveryErrorIsReported | patterns/01_lifecycle/graceful_shutdown.go:84-91 | a caller told of no timeout is told of exactly the hooks that returned an error, in order, each with its name and error |
| GracefulShutdown.LateHooksAreIgnored | patterns/01_lifecycle/graceful_shutdown.go:42-44 | registering after the first Shutdown changes nothing |
| GracefulShutdown.StepKeepsInv | patterns/01_lifecycle/graceful_shutdown.go:38-92 | every step keeps progress and replies in agreement |
| GracefulShutdown.GracefulShutdownManager.Register | patterns/01_lifecycle/graceful_shutdown.go:38-51 | appends unless closed |
| GracefulShutdown.GracefulShutdownManager.BeginShutdown | patterns/01_lifecycle/graceful_shutdown.go:55-74 | refuses a second call, else closes and sorts a copy |
| GracefulShutdown.GracefulShutdownManager.RunHooks | patterns/01_lifecycle/graceful_shutdown.go:79-91 | the hook loop is the run of protocol steps that its turns dictate |
| GracefulShutdown.GracefulShutdownManager.RunOne | patterns/01_lifecycle/graceful_shutdown.go:84-88 | one hook: its failure joins the others |
| GracefulShutdown.GracefulShutdownManager.TimeOut | patterns/01_lifecycle/graceful_shutdown.go:81-83 | the early return on an expired context |
| Saga.UndoneInReverse | patterns/16_distributed/saga_orchestrator.go:45-61 | completed steps that have a compensation are compensated exactly once, last first, whatever fails |
| Saga.UndoneIsCalled | patterns/16_distributed/saga_orchestrator.go:45-61 | compensating calls each compensation on the world the one before it left, and lists exactly those that returned an error, with step name and error |
| Saga.TraceOfFailure | patterns/16_distributed/saga_orchestrator.go:27-43 | when action k is the first to fail, the trace is actions 0 to k, then the compensations of the steps before k backwards |
| Saga.TraceOfSuccess | patterns/16_distributed/saga_orchestrator.go:27-43 | success if and only if no action fails, with all actions and no compensation |
| Saga.FailureRestores | patterns/16_distributed/saga_orchestrator.go:27-61 | if compensations take their actions back and the failing action had no effect, the initial world is restored |
| Saga.FailingActionIsNotUndone | patterns/16_distributed/saga_orchestrator.go:30-38 | the failing step is not compensated: with compensations that take back and hide no difference, the initial world is restored if and only if the failing action had no effect |
| Saga.FailureCanLeaveTraces | patterns/16_distributed/saga_orchestrator.go:30-38 | the witness: a concrete saga that leaves the world changed |
| Saga.SagaOrchestrator.Execute | patterns/16_distributed/saga_orchestrator.go:27-43 | the loop refines the execution function |
| Saga.SagaOrchestrator.CompensateAll | patterns/16_distributed/saga_orchestrator.go:45-61 | the backward loop, collecting every error |

## Left out

- HTTP servers, clients, middleware, headers, JSON, configuration, probes, signals and loggers: input and output around libraries.
- Cryptography, jitter and token generation: foreign primitives or probability.
- The semaphore, bulkheads, shedders, optimistic locks, leases, leader election, inbox, outbox, dead letters and reconciliation: they would add easier members.
- Wall-clock liveness and scheduler fairness: the theorems are about safety, lost wakeups and decreasing measures.
- Concurrent use of `UnitOfWork` and `CacheAside`: their laws hold for serial runs, so they are stated for those; the read lock inside `GetWallet` and the commit lock are not modelled.
- Rounding of `float64` and overflow of `int64` durations and times: `real` and `int` are used; `UnixNano` values are taken to be in the `int64` range.
- A goroutine that calls its unlock closure twice: `KeyedMutex` has each closure called once.
- Context cancellation inside `BatchLoader.Load` and `flush`: a caller that gives up only stops listening to its buffered channels; the answer it would have had is still sent.
- The wait duration of the batch loader and the timeout of the shutdown manager: a timer may fire, and a context may expire, at any moment.
- `Wait` of the rate limiter, which polls `Allow`; `String` and the plain getters.
- The `closed` fields of the bounded queue and of the connection pool: nothing in their code sets them, so the branches they guard are never taken.
- `hashKey` on platforms where `int` has 32 bits, where the index could be negative.
- The steps of other goroutines between two turns of a loop: `Drain`, `Deliver`, `CloseAll` and `RunHooks` are the loops left alone; their turns are single steps that the interleaving theorems cover.
- Senders that call `Route` for the first time after `Stop` has begun: the theorem about panics leaves them out, since they always may meet a closed channel.
- A callback of `ExecuteTx` that never ends: it is followed for `fuel` calls, for every `fuel`.
- Pool connections beyond `int32` identifiers: at most `maxCapacity` are ever opened.
- The pool's three-way select after a counted wait has no method of its own: it is the events `WaitToken`, `WaitIdle` and `GiveUp`, whose code is `TakeOneToken` (with `OpenConnection` after it), `TakeFirst` and an error return.
- Error texts and wrapped errors: errors are values that say which one it is.
