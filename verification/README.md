# Ryla: a verified model of its state machines

Ryla is a Go web framework. This project models the small state machines in it that carry guarantees, and proves
those guarantees over whole runs: the job queue with its three drivers and its worker, the in-memory cache and
`Remember`, the migration runner, the token bucket with the two-factor verifier and the recovery codes that share it,
and the Redis session store's per-user index. `dafny verify dfyconfig.toml` checks everything.

Code that works by changing things is modelled twice over one set of functions. A class or method with the source's
own loops and assignments (`Driver.Claim` with the Lua reclaim loop, `Memory.Evict`, `Runner.Rollback`,
`Limiter.Allow`, `ConsumeRecoveryCode`, `Store.DestroyForUser`, ...) is proved to do exactly what a function on the
stored state says; a world of many actors then interleaves those same functions one atomic command at a time.
Operations that cannot be interleaved, such as a Lua script, a MongoDB single-document update or a SQL transaction
that only writes, are one step.

## The queue

Every driver is compared with one abstract queue (`QueueSpec`) that keeps one number per job: the instant from which
it may be handed out. In Redis a reservation lapses at its expiry; in MongoDB and SQL it lapses strictly after the
timeout, so there the number is one later. The Lua loop only raises past times to the present.

* With timely settlement, that is, workers settle only while their reservation stands, the Redis and MongoDB drivers
  refine the abstract queue: a claim returns a claimable job and returns nothing exactly when there is none, no two
  live claims of one job coexist, no job is settled more often than its limit allows, and a job that always fails and
  is never abandoned runs exactly that often and enters the failed store once.
* In Redis an execution is recorded and settled by one pipeline. MongoDB's Fail records the failure before it deletes
  the job, so a worker that dies in between, or is late for the second write, has recorded an execution it never
  settled. A job's recorded executions exceed its budget by at most the number of its Fails cut short in this way, and
  for every number there is a run that does exceed it by that much: the budget itself is kept exactly when no Fail is
  cut short (`MongoBudget.BudgetExactly`).
* `RedisLate.LateSettlementShares` is a run in which one late hand-back gives a job to two live workers, so the
  assumption cannot be dropped. `SettleKeepsTidyExactly` says which settlements, late or not, are harmless: those of a
  job that no other live claim is on and, if the record goes, that is not waiting in pending.
* With or without timely settlement, in every reachable state and with a crash possible between any two commands, the Redis key layout holds
  and no job is lost: following the copies that retries make, every pushed job is completed, stored, or recorded as
  failed with its name and payload unchanged, or, in Redis only, fell off the 1000-entry failed list.
* The SQL driver's claim is two steps, a select and a guarded update that reuses the clock reading of the select.
  Exclusivity holds for every interleaving of these. Its other promises do not: the guard does not look at
  `available_at` again, and the update writes an attempt count computed from the earlier read. `EarlyClaim` and
  `BudgetExceeded` are runs in which a job is handed out before it is due and runs more often than its limit. Whoever
  wins or loses the updates, a run with timely settlement is a run of the abstract queue, with due jobs only, exact
  counts and budgets kept, exactly when every update that affects a row finds it due and its count as read
  (`SqlRefines.SqlRefinesQueue`).
* In Redis, a job completed late leaves its id in `pending` with no record. The script then drops the id and returns
  nothing even if another job is due; `RedisLate.NilThoughDue` is such a run, and `RedisRefines.NilExactly` states
  exactly when it happens, for any state of the keys. It costs one empty answer per stranded id: on every run such
  answers, with the ids still astray, number at most the settlements that stranded one
  (`RedisLate.SpuriousAreBounded`).

A pushed job waits as it was asked for: on every run of every driver it is first handed out no earlier than its due
time, with its content, limit and attempts as pushed, and so is a retried one, with no attempts and due at once
(`FirstClaim` in `RedisLife`, `MongoLife` and `SqlLife`). No claim passes over a free job that is due earlier, or on
MongoDB and SQL as early with a lower id; on a MongoDB run without releases and lapses this makes the queue first due,
first out.

The worker's loop, slot semaphore and goroutines are steps of their own: at most `Concurrency` jobs run, at most one
further claimed record is unsettled, and a drained `Run` has settled every record once, with the verdict its outcome
asks for. `Run` stops, and hands a record back unstarted, only once it is cancelled, and then claims at most one more.

## The cache

The in-memory cache returns exactly what an unbounded expiring map would, evicts only when nothing expired is left and
only what was unused longest, and satisfies LRU inclusion. The documentation calls the limit a ceiling; the code gives
up when the oldest key is the empty string. `OverfullExactly` says exactly when the limit is exceeded.
`Remember` over one working store runs at most one successful computation under any interleaving.

## Migrations

In every history of Up, Rollback, Reset and Refresh in which no Up logs the out-of-order warning, whichever migration
fails, the schema is the composition of the recorded Ups in id order and batches never go back with the id. For an Up
that applies something the warning marks exactly the loss of that order. Rolling back one batch right after an Up that
applied something restores schema and ledger even when it warned. Rolling back as many batches as there were Ups
always restores the ledger, but Downs run in descending id order, not in the reverse of the order of application: the
schema is restored when the ids were applied in ascending order throughout, as they are when no Up but the first
warned, and for a schema that remembers the order only then (`MigrateBatches`).

## Rate limit, two factors, recovery codes

Tokens, times and waits are exact rationals. That requests let through for a key in any span without a Reset are at
most the burst plus what the span earns holds on every run exactly when `burst <= 2 * limit`, and so does that
sweeping is invisible; `New` guarantees it, `NewWithBurst` does not. A new limiter lets its whole burst through at
once and the next request exactly after `window / limit`; whoever asks no more often than that is never refused. App
codes and recovery codes share one budget. Recovery codes are conserved: accepted plus stored is issued, code by code,
through normalisation, hashing, joining and splitting.

## Sessions

Every store command is a step; requests, saves, destroys and `DestroyForUser` interleave freely and may stop after any
command. A session is settled when its last save ran to the end, found itself listed, and nothing took it off the index
since. The index never misses a live settled session, on any run, exactly when the hour of slack covers the slowest
handler plus the minute `Touch` leaves unextended (or one lifetime, if shorter) plus the client's rounding
(`SessionSlack.AgreesExactly`); without rounding that is a handler of 59 minutes. DestroyForUser leaves alive exactly
the sessions that were not on the index when it read it. Three things leave a live session off the index whatever the
slack: a save or destroy that has not finished, an index that lapses between a save's SADD and its EXPIRE
(`LapseLosesSession` is a run in which every command was sent), and a DestroyForUser that overlaps a save of the same
user (`OverlapLosesSession`).

## Model

| member | source | states |
|---|---|---|
| `RedisRefines.RedisRefinesQueue` | queue/redis/redis.go:68-277 | Every run with timely settlement is a run of the abstract queue. |
| `RedisRefines.RedisIsExclusive` | queue/driver.go:51-54 | With timely settlement no two live claims of a job coexist and no job exceeds its budget. |
| `RedisRefines.ClaimExact` | queue/redis/redis.go:154-184 | With timely settlement a claim returns a job exactly when one is claimable, and returns a claimable one. |
| `RedisRefines.NoJobIsLost` | queue/redis/redis.go:250-360 | In every reachable state each pushed job, followed through its retry copies, is completed, stored and pending or reserved, on the failed list with its content, or was trimmed off that list. |
| `RedisRefines.RunIsSafe` | queue/redis/redis.go:47-60 | In every reachable state, late settlements included, the layout and the ledger hold. |
| `RedisRefines.RedisAlwaysFailing` | queue/worker.go:172-183 | An always-failing job on Redis runs exactly its budget and is buried once. |
| `RedisRefines.NilExactly` | queue/redis/redis.go:84-103 | In any layout, late completions included: the script returns nothing exactly when no stored job is claimable or the id it picked has no record, and otherwise returns a claimable job. |
| `RedisLate.SettleKeepsTidyExactly` | queue/redis/redis.go:209-277 | A settlement, late or not, keeps what exclusivity rests on exactly when no other live claim is on the job and, if it removes the record, the id is not pending. |
| `RedisLate.SpuriousAreBounded` | queue/redis/redis.go:89-99 | On every run such answers, with the ids still astray, number at most the settlements that stranded an id. |
| `RedisLife.FirstClaim` | queue/redis/redis.go:121-184 | On every run, late settlements included, a pushed or retried job is first handed out no earlier than its due time, with the content and limit it was given, as its first attempt. |
| `RedisLife.NoOvertaking` | queue/redis/redis.go:84-91 | No claim takes an id whose score is later than that of another pending id; a lapsed reservation counts as due now. |
| `RedisLife.DueExactly` | queue/redis/redis.go:143-150 | A stored job never handed out is claimable exactly from its due time on, with no attempt spent. |
| `RedisLife.ReservedUntil` | queue/redis/redis.go:159-161 | A claimed job, left alone, is claimable again from exactly the end of its timeout; no other job is touched. |
| `RedisLife.ReleasedThenClaimed` | queue/redis/redis.go:221-247 | A released job is next handed out from exactly the time given, with the reason, one more attempt and all else as in the record released. |
| `RedisLife.FailedThenRetried` | queue/redis/redis.go:250-360 | A failed job heads the list with its attempts and reason; retried, it is queued afresh under a new id with its own limit, due now, and that entry is gone. |
| `Books.NothingLost` | queue/mongo/mongo.go:282-312 | If every job is queued, failed, completed, trimmed or copied to a later job, then following copies from any pushed job reaches one that is not just copied and carries the same content. |
| `QueueSpec.NextKeepsInv` | queue/driver.go:48-63 | Every step of the abstract queue keeps live claims exclusive, the queue in agreement with each live claim, and executions within attempts and budget. |
| `QueueSpec.RunIsSafe` | queue/driver.go:48-63 | In every state of every run: no two live claims of one job, and no job with more recorded executions than its limit. |
| `QueueSpec.PlainKeepsAccurate` | queue/worker.go:143-186 | For a job that always fails and is never abandoned, each step keeps executions equal to attempts no longer in flight, and burials at zero until the budget is spent. |
| `QueueSpec.AlwaysFailingRun` | queue/worker.go:172-183 | Over any run in which a job always fails and nobody abandons it or hands it back: once it is gone it ran exactly its budget and was buried once. |
| `RedisRuns.TrimKeeps` | queue/redis/redis.go:270-271 | The trimmed list holds the new entry, at most 1000 in all, and everything else except what fell off the end. |
| `RedisRuns.NextKeepsLayout` | queue/redis/redis.go:47-60 | Every command by anyone keeps pending and reserved apart, a record for every reserved id and attempt count, every record pending or reserved, every id at most seq, and the failed list within 1000. |
| `RedisRuns.NextKeepsSafe` | queue/redis/redis.go:121-360 | Every command keeps the layout, the secrecy of ids not yet written, the content of every stored, held and failed job, and the ledger in which each pushed job is accounted for. |
| `RedisRefines.ReclaimOnlyRaises` | queue/redis/redis.go:76-82 | To the abstract queue the reclaim loop only raises past hand-out times to at most the present. |
| `RedisRefines.NextRefines` | queue/redis/redis.go:68-277 | From a reachable state with timely settlement, each command is one step of the abstract queue. |
| `RedisLate.LateSettlementShares` | queue/redis/redis.go:238-245 | There is a run in which a hand-back after the lapse leads to two live claims of one job. |
| `RedisLate.HandBackKeepsTidyExactly` | queue/redis/redis.go:221-247 | A hand-back keeps what exclusivity rests on exactly when no other live claim is on the job. |
| `RedisLate.NilThoughDue` | queue/redis/redis.go:93-99 | There is a run after which a claim returns nothing although a stored job is claimable. |
| `RedisLate.StraysStep` | queue/redis/redis.go:93-99 | Each answer of nothing for a picked id removes one id without a record from pending, and only a settlement that removes a pending id's record adds one. |
| `RedisQueue.Reclaimed` | queue/redis/redis.go:76-82 | Reclaiming keeps the ids of pending and reserved together, only moves ids from reserved to pending, and keeps the two sets apart. |
| `RedisQueue.RangeByScore` | queue/redis/redis.go:78-84 | ZRANGEBYSCORE yields exactly the ids at or below the bound, each once, lowest score first. |
| `RedisQueue.Driver.Mint` | queue/redis/redis.go:122-126 | INCR yields the next id and changes nothing else. |
| `RedisQueue.Driver.Write` | queue/redis/redis.go:141-150 | The pipeline stores the record and makes it pending at its due time, together. |
| `RedisQueue.Driver.Push` | queue/redis/redis.go:121-151 | Push stores the record under a newly minted id, pending at its due time with no attempts. |
| `RedisQueue.Driver.Reclaim` | queue/redis/redis.go:76-82 | The loop moves exactly the lapsed reservations to pending, due now, and leaves every other id and score alone. |
| `RedisQueue.Driver.Claim` | queue/redis/redis.go:68-103 | The script reclaims, then reserves a due id of lowest score until the timeout and returns its record with the count raised by one, or drops it when its record is gone, or returns nothing when nothing is due. |
| `RedisQueue.Driver.Complete` | queue/redis/redis.go:209-218 | Complete removes reservation, record and count, and does not touch pending. |
| `RedisQueue.Driver.Release` | queue/redis/redis.go:221-247 | Release rewrites the record with the truncated reason, drops the reservation, and makes the job pending at the given time. |
| `RedisQueue.Driver.Fail` | queue/redis/redis.go:250-277 | Fail puts the job in front of the failed list, trims that to 1000, and removes reservation, record and count. |
| `RedisQueue.Driver.Retry` | queue/redis/redis.go:329-360 | Retry reports no such failure exactly when the list has none with the id; otherwise it queues a copy of the newest one under a new id and removes that one from the list. |
| `MongoRefines.MongoRefinesQueue` | queue/mongo/mongo.go:224-312 | Every run with timely settlement is a run of the abstract queue. |
| `MongoRefines.MongoIsExclusive` | queue/mongo/mongo.go:212-223 | With timely settlement no two live claims of a job coexist and no job is settled beyond its budget. |
| `MongoBudget.BudgetExactly` | queue/mongo/mongo.go:291-312 | With at most n Fails of a job cut short, every timely run stays within the budget plus m exactly when n <= m; so the budget is kept exactly when none is cut short. |
| `MongoBudget.RecordedWithinBudget` | queue/mongo/mongo.go:302-311 | With timely settlement a job's recorded executions, failures counted when they are written, exceed its budget by at most the number of its Fails cut short. |
| `MongoRuns.NoJobIsLost` | queue/mongo/mongo.go:291-392 | In every reachable state each pushed job, followed through its retry copies, is completed, stored, or recorded as failed, with its content. |
| `MongoLife.FirstClaim` | queue/mongo/mongo.go:180-258 | On every run a pushed or retried job is first handed out no earlier than its due time, as it was asked for, with one more attempt. |
| `MongoLife.NoOvertaking` | queue/mongo/mongo.go:243-247 | No claim passes over a job that is due and free for one due later, or as early with a higher id. |
| `MongoLife.FirstDueFirstOut` | queue/mongo/mongo.go:243-247 | On a run without releases and lapses, of two jobs both due at the earlier claim, that claim took the one due first, or of two due together the one pushed first. |
| `MongoLife.DueExactly` | queue/mongo/mongo.go:191-200 | A stored job never handed out is claimable exactly from its due time on, with the attempts and limit it was pushed with. |
| `MongoLife.ReservedUntil` | queue/mongo/mongo.go:226-241 | A claimed job, left alone, is claimable again exactly once its timeout has run out; no other job is touched. |
| `MongoLife.ReleasedThenClaimed` | queue/mongo/mongo.go:269-280 | A released job is next handed out from exactly the time given, with the reason, one more attempt and all else as stored. |
| `MongoLife.FailedThenRetried` | queue/mongo/mongo.go:291-392 | A failed job is recorded with its attempts and reason; retried, it is queued afresh under a new id with no attempts and a limit of three, due now, and the failure is gone. |
| `MongoRuns.RunIsSafe` | queue/mongo/mongo.go:282-290 | With Fail and Retry as two writes each, crashes between them and late settlements, every reachable state keeps ids fresh, contents intact and every job accounted for. |
| `MongoRuns.NothingTrimmed` | queue/mongo/mongo.go:302-306 | No failure is ever dropped for room. |
| `MongoRefines.ClaimExact` | queue/mongo/mongo.go:224-258 | A claim succeeds exactly when some job is claimable, settled on time or not. |
| `MongoRefines.MongoAlwaysFailing` | queue/worker.go:172-183 | An always-failing job on MongoDB is settled exactly its budget of times and buried once. |
| `Rows.SelectableFromAvail` | queue/mongo/mongo.go:228-236 | The claim filter matches a job exactly from its abstract hand-out time on. |
| `Rows.SelectsExactly` | queue/db_driver.go:56-69 | The query finds something exactly when the abstract queue has a job to hand out. |
| `Rows.SelectsInOrder` | queue/db_driver.go:57-62 | The row found is due before every other row that is due and free, or as early with a lower id. |
| `MongoBudget.RunTallied` | queue/mongo/mongo.go:282-312 | In every reachable state executions recorded are those settled, those whose Fail is half done, and those whose worker died half-way through it. |
| `MongoBudget.CutFailsAddUp` | queue/mongo/mongo.go:282-290 | For every n there is a timely run with n Fails cut short and n executions recorded over budget. |
| `MongoBudget.AlwaysFailingRecords` | queue/worker.go:172-183 | An always-failing job that nobody abandons has exactly its budget of executions recorded. |
| `MongoQueue.Driver.NextId` | queue/mongo/mongo.go:161-177 | The counter yields the next id. |
| `MongoQueue.Driver.Push` | queue/mongo/mongo.go:180-210 | Push stores an unreserved document under a newly minted id. |
| `MongoQueue.Driver.Claim` | queue/mongo/mongo.go:224-258 | One step reserves the first matching document by due time and id, raises its count and returns it, or returns nothing exactly when none matches. |
| `MongoQueue.Driver.Complete` | queue/mongo/mongo.go:261-266 | Complete deletes the document. |
| `MongoQueue.Driver.Release` | queue/mongo/mongo.go:269-280 | Release clears the reservation and sets due time and truncated error of a document still there, and does nothing otherwise. |
| `MongoQueue.Driver.Fail` | queue/mongo/mongo.go:291-312 | Fail records the failure under the job's id, replacing an earlier one, and then deletes the job. |
| `MongoQueue.Driver.Retry` | queue/mongo/mongo.go:364-392 | Retry fails exactly when there is no such failure; otherwise it queues a copy with no attempts under a new id and clears the failure. |
| `Rows.Find` | queue/mongo/mongo.go:228-250 | The query finds the selectable job due longest, lowest id first, and nothing exactly when none is selectable. |
| `SqlRefines.SqlIsExclusive` | queue/db_driver.go:45-48 | With timely settlement, for every interleaving of selects and updates, no two live claims of a job coexist and every live claim's reservation is in the table. |
| `SqlRefines.SqlRefinesQueue` | queue/db_driver.go:43-95 | With timely settlement, and whoever wins or loses the updates: the run is a run of the abstract queue exactly when every update that affects a row finds it due and its count as read, and then every job keeps within its budget. |
| `SqlRuns.NoJobIsLost` | queue/db_driver.go:117-172 | In every reachable state each pushed job, followed through its retry copies, is completed, in the jobs table or in the failed table, with its content. |
| `SqlLife.FirstClaim` | queue/db_driver.go:39-95 | On every run, whatever comes between selects and updates, a pushed or retried job is first handed out no earlier than its due time, as it was asked for, with one more attempt. |
| `SqlLife.NoOvertaking` | queue/db_driver.go:57-62 | No select passes over a job that is due and free for one due later, or as early with a higher id. |
| `SqlLife.DueExactly` | queue/db_driver.go:39-41 | A stored job never handed out is claimable exactly from its due time on, with the attempts and limit it was pushed with. |
| `SqlLife.ReservedUntil` | queue/db_driver.go:53-80 | A job claimed without disturbance, left alone, is claimable again exactly once its timeout has run out; no other row is touched. |
| `SqlLife.ReleasedThenClaimed` | queue/db_driver.go:103-111 | A released job is next handed out from exactly the time given, with the reason, one more attempt and all else as stored. |
| `SqlLife.FailedThenRetried` | queue/db_driver.go:117-172 | A failed job is in the failed table with its attempts and reason; retried, it is queued afresh under a new key with no attempts and a limit of three, due now, and that row is gone. |
| `SqlRuns.RunIsSafe` | queue/db_driver.go:113-132 | In every reachable state, late settlements included, keys are fresh, contents intact and every job accounted for. |
| `SqlRuns.NothingTrimmed` | queue/db_driver.go:117-132 | No failure is ever dropped for room. |
| `SqlRefines.GuardSparesLiveHolds` | queue/db_driver.go:71-76 | A guarded update made with any earlier clock reading cannot hit a row that a live claim holds. |
| `SqlRefines.UpdateExact` | queue/db_driver.go:74-90 | The update hands out a job exactly when its guard holds and changes nothing otherwise; that job was due exactly when the row is due now; it is a claim of the abstract queue exactly when the row is due and its count the one read. |
| `SqlRefines.EarlyClaim` | queue/db_driver.go:74-76 | There is a run with timely settlement in which a live claim holds a job whose due time is as far in the future as one likes. |
| `SqlRefines.BudgetExceeded` | queue/db_driver.go:77-80 | There is a run with timely settlement in which a job with a limit of two runs three times. |
| `SqlRefines.NextRefinesExactly` | queue/db_driver.go:49-132 | From a state of a timely run in which every live claim has its job, a step is a step of the abstract queue exactly unless it is an update that affects a row not due or claimed since it was read. |
| `SqlQueue.DBDriver.Push` | queue/db_driver.go:39-41 | Push inserts an unreserved row under the next key. |
| `SqlQueue.DBDriver.Select` | queue/db_driver.go:56-69 | The select returns the first row, by due time and id, that is due and unreserved or lapsed, and nothing exactly when there is none. |
| `SqlQueue.DBDriver.Reserve` | queue/db_driver.go:71-86 | The update hits exactly when the row is still there and unreserved or lapsed, and then writes the reservation and the count read earlier plus one. |
| `SqlQueue.DBDriver.Claim` | queue/db_driver.go:49-95 | With nothing in between, the update always hits the selected row and the claim returns it with one more attempt. |
| `SqlQueue.DBDriver.Complete` | queue/db_driver.go:98-100 | Complete deletes the row. |
| `SqlQueue.DBDriver.Release` | queue/db_driver.go:103-111 | Release clears the reservation and sets due time and truncated error of a row still there. |
| `SqlQueue.DBDriver.Fail` | queue/db_driver.go:117-132 | One transaction adds a failure under the next key and deletes the job. |
| `SqlQueue.DBDriver.Retry` | queue/db_driver.go:152-172 | Retry fails exactly when the failure is missing; otherwise one transaction queues a copy with no attempts and deletes the failure. |
| `Worker.NextKeepsInv` | queue/worker.go:58-130 | Every step keeps the slots within the limit and gives each claimed record no settle call while it is open and exactly one afterwards. |
| `Worker.BoundedConcurrency` | queue/worker.go:46-60 | At every moment at most `Concurrency` jobs run, one if that is less than one, and any other unsettled record is the single one waiting for a slot. |
| `Worker.DrainedMeansSettledOnce` | queue/worker.go:63-130 | When Run returns after a successful wait, each record it claimed has had exactly one settle call: its outcome's verdict, or Release if it never started. |
| `Worker.NeverSettledTwice` | queue/worker.go:143-186 | No record is settled twice, even when the wait times out. |
| `Worker.WaitsOnlyForJobs` | queue/worker.go:58-130 | A claimed record waits for a slot only while as many jobs as `Concurrency` have the slots; draining waits only for jobs, and each of those can always move on. |
| `Worker.StopsOnlyWhenCancelled` | queue/worker.go:63-99 | On every run, Run stops, and releases a record unstarted, only once it has been cancelled. |
| `Worker.OneClaimAfterCancel` | queue/worker.go:63-76 | Once cancelled, Run claims at most the one record it was about to claim. |
| `LruInclusion.Inclusion` | cache/memory.go:55-159 | After any common run over non-empty keys with increasing clock readings, every live entry of the cache with the smaller limit is in the larger with the same value, expiry and use time. |
| `MemoryCache.HitsAreRight` | cache/memory.go:55-77 | Over every run, each hit returns what an unbounded expiring map holds under the key. |
| `MemoryCache.Bounded` | cache/memory.go:10-15 | On every run over non-empty keys the cache never holds more than its limit. |
| `MemoryCache.EvictsLeastRecentlyUsed` | cache/memory.go:123-159 | On every run, a Set that drops a live entry leaves no expired one, no fewer than the limit, and none whose key was last set or found before the dropped one's. |
| `MemoryCache.TouchedIsLastUse` | cache/memory.go:70-93 | On every run an entry's use time is when its key was last set or found. |
| `Remember.ComputedOnce` | cache/cache.go:79-119 | Under every interleaving at most one computation succeeds, none if the value was stored, and every caller that gets a value gets that one. |
| `Remember.AfterSuccess` | cache/cache.go:93-99 | A caller not yet in a flight when the value is stored returns that value, and nothing is computed again. |
| `MemoryCache.NothingEvictedNothingMissed` | cache/memory.go:127-131 | While the unbounded map has never exceeded the limit, the cache answers exactly as it does, misses included. |
| `MemoryCache.OverfullExactly` | cache/memory.go:154-156 | With distinct use times, eviction leaves more than the limit exactly when the empty key is live and more than `limit` live entries are no older than it. |
| `MemoryCache.EmptyKeyOverflows` | cache/memory.go:154-156 | With a limit of one, an older empty key and one other entry, eviction leaves both. |
| `LruInclusion.BothEvict` | cache/memory.go:145-158 | When two nested caches both drop a live entry, the smaller cannot keep what the larger drops. |
| `Remember.FoundAtOnce` | cache/cache.go:88-91 | A call whose first look comes after the value was stored joins no flight and returns that value. |
| `Remember.NeverStuck` | cache/cache.go:93-112 | Until a call has its answer, it or the flight it is in has a next step. |
| `Remember.FailuresStoreNothing` | cache/cache.go:101-104 | The store holds what it held at the start or the one computed value, whatever failed. |
| `Remember.ErrorExactly` | cache/cache.go:110-112 | A caller gets an error exactly when the computation of the flight it joined failed. |
| `MemoryCache.Memory.Get` | cache/memory.go:55-77 | A hit returns the stored bytes and marks the entry used now; an expired entry is removed and is a miss. |
| `MemoryCache.Memory.Set` | cache/memory.go:80-96 | Set stores value, expiry and use time, and then leaves what eviction may leave. |
| `MemoryCache.Memory.Delete` | cache/memory.go:99-105 | Exactly that key is gone. |
| `MemoryCache.Memory.Clear` | cache/memory.go:108-114 | Nothing is left. |
| `MemoryCache.Memory.Evict` | cache/memory.go:127-159 | Eviction ends; within the limit it drops nothing; otherwise everything expired goes, and live entries only if that is not enough, none used later than a kept one, and no more than needed; above the limit it stops only at a live empty key that is oldest. |
| `MemoryCache.Memory.Purge` | cache/memory.go:133-137 | Exactly the expired entries go. |
| `MemoryCache.Oldest` | cache/memory.go:146-153 | In whatever order the map is walked, the key found is one used no later than any other. |
| `MigrateRuns.QuietHistoryIsSound` | migrate/runner.go:66-227 | After any history in which no Up warns, with any failures and any code registered at each call, schema and batches are as recorded ids in order require. |
| `MigrateRuns.WarningMarksExactly` | migrate/runner.go:89-106 | For an Up that applies something, batches stay in id order exactly when it does not warn. |
| `MigrateRuns.RollbackUndoesUp` | migrate/runner.go:63-65 | A successful Rollback of one batch right after an Up that applied something restores schema and ledger exactly, warned or not. |
| `MigrateBatches.RollbackUndoesUps` | migrate/runner.go:144-207 | For every number of Ups that each applied something: a successful Rollback of as many batches restores the ledger, and the schema too if the ids were applied in ascending order throughout. |
| `MigrateBatches.OnlyAscendingIsRestored` | migrate/runner.go:173-174 | For a schema that remembers the order of application, a successful Rollback of those batches restores it exactly if the order was ascending. |
| `MigrateBatches.RollbackUndoesQuietUps` | migrate/runner.go:89-106 | When no Up but the first warned, it restores schema and ledger. |
| `MigrateBatches.RollbackKeepsExactly` | migrate/runner.go:162-172 | A successful Rollback of k batches, one if none is asked for, keeps exactly the ids whose batch is at most the highest less k. |
| `MigrateBatches.UpExactly` | migrate/runner.go:76-141 | Up applies the lowest pending ids, as many as are pending, asked for by a positive `steps`, or come before the failure, under one new highest batch, changes no other entry, and reports success exactly when none of the planned failed. |
| `MigrateBatches.RollbackExactly` | migrate/runner.go:162-206 | Wherever a Rollback stops, it has undone exactly the ids asked for that no missing migration, missing Down or failure at or above them held up, keeps every other entry, and reports success exactly when nothing was in the way. |
| `MigrateBatches.ResetEmpties` | migrate/runner.go:209-219 | After any history, warned or not, a successful Reset leaves nothing applied. |
| `MigrateBatches.RefreshAppliesAll` | migrate/runner.go:221-227 | A successful Refresh leaves exactly the registered migrations applied, all in batch one. |
| `MigrateBatches.HistoryIsNumbered` | migrate/runner.go:112 | In every history recorded batch numbers start at one. |
| `MigrateRuns.ResetRestores` | migrate/runner.go:209-219 | A Reset that reports success leaves the initial schema and an empty ledger. |
| `MigrateRuns.UpKeepsSound` | migrate/runner.go:89-141 | An Up that does not warn keeps the schema the composition of the recorded Ups in id order, and batches in id order, wherever it fails. |
| `MigrateRuns.RollbackKeepsSound` | migrate/runner.go:162-206 | So does a Rollback, wherever it stops. |
| `Migrate.Sort` | migrate/runner.go:76-82 | Pending ids come in ascending order, each once. |
| `Migrate.SortDown` | migrate/runner.go:173-174 | Targets come in descending order, each once. |
| `Migrate.Runner.MaxBatch` | migrate/runner.go:46-61 | The result bounds every recorded batch and is one of them, or zero when nothing is recorded. |
| `Migrate.Runner.OutOfOrder` | migrate/runner.go:93-106 | The warning is logged exactly when some pending id precedes some applied one. |
| `Migrate.Runner.ApplyAll` | migrate/runner.go:112-141 | The migrations before the first failure are applied and recorded in order under one batch; success exactly when none failed. |
| `Migrate.Runner.Up` | migrate/runner.go:66-142 | Up applies the first pending ids in order, cut to `steps`, up to the failure, under one new batch number, and warns exactly when a pending id precedes an applied one. |
| `Migrate.Runner.UndoAll` | migrate/runner.go:181-206 | Downs run in the given order up to the first id that is not in the code, has no Down, or fails. |
| `Migrate.Runner.Rollback` | migrate/runner.go:145-207 | Rollback undoes the last batches, one if none is asked for, newest id first, as far as it gets. |
| `Migrate.Runner.Reset` | migrate/runner.go:210-219 | Reset rolls back as many batches as the highest batch number. |
| `Migrate.Runner.Refresh` | migrate/runner.go:222-227 | Refresh applies everything again only if the reset succeeded. |
| `RateLimitRuns.BoundedExactly` | ratelimit/ratelimit.go:49-72 | That bound holds on every span of every run exactly when burst <= 2 * limit. |
| `RateLimitRuns.SweepInvisibleExactly` | ratelimit/ratelimit.go:121-134 | A sweeping limiter gives the same answers and waits as one that never sweeps, on every run, exactly when burst <= 2 * limit. |
| `RateLimitAsked.AskedBound` | ratelimit/ratelimit.go:55-102 | In the limit, window and burst asked for, or what stands in for values below one or a window that is not positive: at most burst + limit * span / window requests of a key are let through in a span without its Reset, if the burst is at most twice the limit. |
| `RateLimitAsked.FirstBurst` | ratelimit/ratelimit.go:83-102 | A new limiter lets the first `burst` requests through at once, refuses the next with a wait of window / limit, and lets one through exactly from then on. |
| `RateLimitAsked.SpacedAllPass` | ratelimit/ratelimit.go:83-102 | Requests of a key that has a token, each at least window / limit after the one before, are never refused. |
| `TwoFactorRuns.GuessBudget` | twofactor/verifier.go:83-88 | After any history, app codes and recovery codes checked for a subject in a span in which its record is not cleared are together at most attempts + attempts * span / window, in the attempts and window asked for. |
| `TwoFactorRuns.CodesAreConserved` | twofactor/verifier.go:83-106 | Through any run of tries by anyone, with write-back: for each code, times accepted plus copies of its hash stored equal times issued. |
| `TwoFactorRuns.AcceptedExactly` | twofactor/recovery.go:88-97 | After any run, a try that is not throttled is accepted exactly when its code was issued more often than it was accepted. |
| `TwoFactorRuns.AnyOrderSpendsAll` | twofactor/recovery.go:98-121 | The issued codes can be spent in any order, each is accepted, and nothing is left. |
| `RateLimitRuns.SpanBalance` | ratelimit/ratelimit.go:76-102 | With burst <= 2 * limit: over any span without a Reset of the key, requests let through are at most the tokens held at its start plus those earned in it. |
| `RateLimitRuns.BucketBound` | ratelimit/ratelimit.go:24-29 | With burst <= 2 * limit: after any history with sweeps, requests let through for a key in a span without a Reset of it are at most burst + limit * span / window. |
| `RateLimitRuns.WaitIsExact` | ratelimit/ratelimit.go:94-98 | After a refusal, and with no request in between, the key has a whole token from exactly the announced wait on, and that wait is positive. |
| `RateLimitRuns.SweepNoticed` | ratelimit/ratelimit.go:121-134 | With burst > 2 * limit there is a run on which sweeping changes an answer. |
| `RateLimitRuns.OnlyRecentKeysTracked` | ratelimit/ratelimit.go:39-41 | Right after any request every tracked key was seen within the last three windows. |
| `RateLimitRuns.FinalIsRecent` | ratelimit/ratelimit.go:123-134 | The invariant behind that holds after every run. |
| `Recovery.JunkIgnored` | twofactor/recovery.go:144-146 | Characters outside the alphabet, anywhere in the code, do not change its normal form. |
| `Recovery.IssuedCounts` | twofactor/recovery.go:76-86 | A normal form is issued once for every code in the list that has it, and the empty one never. |
| `Recovery.CaseIgnored` | twofactor/recovery.go:144-149 | Codes that agree in upper case have one normal form. |
| `Recovery.CanonicalStays` | twofactor/recovery.go:147-155 | A code already in the alphabet and in upper case is its own normal form. |
| `Recovery.PaddingIgnored` | twofactor/recovery.go:134-142 | Blanks around a stored hash, and blank lines, do not matter. |
| `Recovery.SplitJoin` | twofactor/recovery.go:76-142 | Joining clean hashes and splitting again gives them back in order. |
| `Recovery.ConsumeTakesOne` | twofactor/recovery.go:88-97 | A code is accepted exactly when its normal form is not empty and its hash is stored; then exactly one copy of that hash goes and all else stays in order; otherwise the stored string is unchanged. |
| `TwoFactorRuns.OtherStepsStoreNothing` | twofactor/verifier.go:93-106 | Throttled, wrong and other subjects' tries leave what is stored unchanged; an accepted one takes its own hash. |
| `TwoFactorRuns.ClearedIsWhole` | twofactor/verifier.go:77-80 | Clearing gives the subject its whole burst back and changes nobody else's. |
| `RateLimitRuns.TwoBurstsExceed` | ratelimit/ratelimit.go:121-134 | With burst > 2 * limit there is a run that lets through more than that. |
| `RateLimit.NewWithBurst` | ratelimit/ratelimit.go:56-72 | A positive limit, window and burst are taken as asked; a limit or burst below one becomes one and a window that is not positive a minute. |
| `RateLimit.New` | ratelimit/ratelimit.go:51-53 | A positive limit and window are taken as asked, with the limit as the burst, which equals the limit whatever is asked. |
| `RateLimit.Limiter.Allow` | ratelimit/ratelimit.go:76-102 | Allow sweeps, refills the key up to the burst and spends a token if there is a whole one, and otherwise says how long until there is. |
| `RateLimit.Limiter.Reset` | ratelimit/ratelimit.go:108-112 | Reset forgets exactly that key. |
| `RateLimit.Limiter.Sweep` | ratelimit/ratelimit.go:123-134 | At most once a window, exactly the keys unseen for more than two windows are forgotten. |
| `Recovery.NormalizeRecoveryCode` | twofactor/recovery.go:147-155 | The loop keeps exactly the upper-cased characters that are in the alphabet, in order. |
| `Recovery.HashRecoveryCodes` | twofactor/recovery.go:76-86 | What is stored is the joined hashes of the codes with a non-empty normal form, in order. |
| `Recovery.SplitRecoveryCodes` | twofactor/recovery.go:134-142 | Splitting yields the trimmed non-empty lines, in order. |
| `Recovery.SplitIsClean` | twofactor/recovery.go:134-142 | Whatever was stored, everything split out of it is clean, so it survives being joined again. |
| `Recovery.ConsumeRecoveryCode` | twofactor/recovery.go:98-121 | The loop, which runs to the end, drops exactly the first match and reports whether there was one. |
| `TwoFactor.Verifier.constructor` | twofactor/verifier.go:44-49 | The throttle is a limiter whose burst equals the attempts. |
| `TwoFactor.Verifier.VerifyAt` | twofactor/verifier.go:67-81 | An attempt is spent before the code is checked; a right code clears the subject's record; a wait is reported only when throttled. |
| `TwoFactor.Verifier.VerifyRecovery` | twofactor/verifier.go:93-106 | The same for recovery codes, on the same limiter; what is to be stored changes only when the code is accepted. |
| `TwoFactor.Verifier.Reset` | twofactor/verifier.go:108-110 | Reset clears exactly that subject. |
| `SessionSlack.AgreesExactly` | session/redis/redis.go:98-107 | The index agrees with a scan of live settled sessions on every run exactly when min(handler + minute, lifetime - 1) + rounding is at most an hour. |
| `SessionIndex.IndexAgrees` | session/redis/redis.go:98-108 | In every reachable state every live settled session of a user is on that user's index, and stays so until it expires if nothing happens. |
| `SessionIndex.LogOutEverywhere` | session/redis/redis.go:128-146 | After DestroyForUser run without interruption from any reachable state, the user's live sessions are exactly those alive that were not listed when it read the index, so none exactly when all were listed; none of them was settled. |
| `SessionLaws.SaveThenLoad` | session/redis/redis.go:52-112 | After a save of anyone's session, a load by its id gives back id, data and expiry whole until it expires and nothing after; every other session loads as before. |
| `SessionLaws.SaveThenListed` | session/redis/redis.go:98-108 | A session saved for a user is on that user's index for its remaining life and an hour less the rounding, with all that was there; other users' indexes are as they were. |
| `SessionLaws.DestroyThenLoad` | session/redis/redis.go:115-126 | A destroyed session loads no more and is on its user's index no more; every other one is as before. |
| `SessionLaws.OpenedIsLoaded` | session/middleware.go:28-39 | A handler gets the loaded session with its data whole, extended by a lifetime exactly when that gains more than a minute, and an empty clean new one when none loads. |
| `SessionLaws.GuestIsSaved` | session/redis/redis.go:93-101 | The one command of a guest session's save is the method's save, and touches no index. |
| `SessionLaws.LoginRenames` | session/session.go:136-140 | After Regenerate and putting the user id, the id is the new one, the user is found, and all other data and the expiry are kept. |
| `SessionLaws.LogoutForgets` | session/session.go:143-146 | After Invalidate the id is the new one and neither a user nor any old value is found. |
| `SessionLaws.PutThenLookup` | session/session.go:64-83 | A put value is the one found afterwards, and every other is as before. |
| `SessionLaws.ForgetThenLookup` | session/session.go:93-99 | A forgotten key is found no more, and every other is as before. |
| `SessionLaws.ClearedIsEmpty` | session/session.go:102-108 | After Clear no value and no user is found, under the same id. |
| `Sessions.ApplyExpiry` | session/session.go:73-157 | No operation shortens a session's life or extends it beyond one lifetime from now, and any change marks it for saving. |
| `SessionIndex.ExpireKeepsIndex` | session/redis/redis.go:98-107 | Given the slack, setting the index's expiry keeps it no earlier than the expiry of any session there can be at that time. |
| `SessionIndex.NextKeepsInv` | session/redis/redis.go:82-146 | Every command of every save, destroy and request keeps the index ahead of all settled live sessions. |
| `SessionSlack.CommandsAreSaved` | session/redis/redis.go:93-108 | The three interleaved commands, run together, are the method's save. |
| `SessionSlack.SlowSaveDropsAnother` | session/redis/redis.go:88-107 | When the slack does not cover handler, touch and rounding there is a run in which a slow save ends the index before another live session. |
| `SessionSlack.FiftyNineMinutes` | session/session.go:149-157 | Without rounding and with a lifetime above an hour, that is a handler of at most 59 minutes. |
| `SessionSlack.OverlapLosesSession` | session/redis/redis.go:131-145 | Reachable with any setting: a login that runs between a DestroyForUser's read of the index and its deletions ends alive, saved in full and on no index, and a second DestroyForUser misses it. |
| `SessionSlack.LapseLosesSession` | session/redis/redis.go:102-107 | Reachable with any setting, slack included: the index lapses between a save's SADD and EXPIRE, and the session is alive and on no index though every command was sent. |
| `Sessions.Session.New` | session/session.go:43-50 | A new session is empty, clean and lasts one lifetime. |
| `Sessions.Session.PutValue` | session/session.go:74-83 | A value that is already there changes nothing; any other is stored and marks the session. |
| `Sessions.Session.ForgetKey` | session/session.go:93-99 | Forgetting a key that is not there changes nothing. |
| `Sessions.Session.ClearAll` | session/session.go:102-108 | Clearing an empty session changes nothing. |
| `Sessions.Session.RegenerateAs` | session/session.go:136-140 | The id changes, the data stays, the session is marked. |
| `Sessions.Session.InvalidateAs` | session/session.go:143-146 | Data and id both go. |
| `Sessions.Session.TouchAt` | session/session.go:149-157 | The expiry moves only when that gains more than a minute. |
| `SessionStore.Store.Load` | session/redis/redis.go:52-79 | A session is found exactly when its key stands and its own expiry has not passed. |
| `SessionStore.Store.SAdd` | session/redis/redis.go:102-104 | The id joins the standing set, whose expiry stays, or starts a new one without expiry. |
| `SessionStore.Store.Expire` | session/redis/redis.go:105-107 | Only a standing set gets the new expiry. |
| `SessionStore.Store.SRem` | session/redis/redis.go:122-124 | The id leaves the standing set, which is gone when that empties it. |
| `SessionStore.Store.Save` | session/redis/redis.go:82-112 | With nothing in between, Save writes the session for what is left of it, or a whole lifetime when nothing is, lists it under its user if it has one, and lets the index outlast that by an hour less rounding. |
| `SessionStore.Store.Destroy` | session/redis/redis.go:115-126 | The session leaves its user's index and its key goes. |
| `SessionStore.Store.DestroyForUser` | session/redis/redis.go:130-146 | Exactly the listed sessions' keys and the index itself go. |
| `SessionStore.Saver.Save` | session/middleware.go:81-94 | A session is written at most once per request, and only if it is dirty. |
| `SessionStore.Open` | session/middleware.go:28-39 | A handler gets the stored session, touched, or a new one when none is found. |
| `Jobs.Truncate` | queue/db_driver.go:174-179 | What is kept of an error is its first 4000 characters, or all of it when it is shorter. |
| `Lists.RemoveFirstTakesOne` | queue/redis/redis.go:357 | LREM with count one takes exactly one occurrence out of the list's multiset. |

## Left out

- SqlRefines.SqlRefinesQueue: the refinement fails for runs in which an update affects a row that is not due or was claimed since the select (`EarlyClaim`, `BudgetExceeded`); the statement is the exact condition.
- RedisQueue.Driver.Claim: which of several due ids of equal score is taken is left open; Redis orders them as strings.
- QueueSpec.RunIsSafe: the budget bounds executions that were settled; a worker that dies mid-job may have run it once more, and on MongoDB may have recorded that (`MongoBudget.BudgetExactly`).
- RedisRefines.NoJobIsLost: a failure pushed off the 1000-entry list by later ones counts as trimmed.
- LruInclusion.Inclusion: clock readings must differ between operations, since the source breaks ties by map order.
- RateLimitRuns.BucketBound: assumes burst at most twice the limit, without which the bound is false (`BoundedExactly`), and a clock that does not go back in the order the lock is taken; `now` is read before the lock.
- TwoFactorRuns.CodesAreConserved: assumes an injective hash that yields one clean line, and write-back in the same transaction as the check, as the package asks; two checks against one stale string accept a code twice.
- SessionIndex.IndexAgrees: promises nothing of a live session whose save has not finished, whose index lapsed under its save, or that was taken off the index, because each of those can be off it (`LapseLosesSession`, `OverlapLosesSession`); handlers change a session only through its methods, every save comes through the middleware with one lifetime, and all clocks are one clock.
- SessionIndex.LogOutEverywhere: the source means to end every session, and the code ends those on the index; and it speaks of the instant after the call, since a request already being served may save its session again later.
- One queue per world: other queues appear only as what they do to the shared counter and failed list in Redis and the shared counter in MongoDB, so the queue filter of a claim is not modelled.
- Ids are numbers where the source has decimal strings, and migration ids are numbers standing for their place in string order.
- JSON, BSON, base64, SHA-256 and TOTP: encodings are taken to round trip, the hash is a parameter, checking an app code is a parameter.
- A record that does not decode inside a driver's Claim, and store or network errors in general: an operation that errors is one whose remaining steps do not happen.
- Copying of byte slices, and aliasing of cached values.
- Float rounding and truncation of waits to nanoseconds; integer width of counters and durations.
- The retry delay (`DefaultBackoff`, whose comment says exponential while the code is quadratic, and per-job backoffs): any retry time is allowed.
- `Dispatcher`, the job and migration registries, `Pending`, `Failed`, `Status`, `Len`, `Pull`, typed session getters: reads and short guards.
- `Remember` over several stores, stores that fail, expire or evict, a computation that panics, and the type check after the flight; `GetJSON`, `SetJSON` and `Jitter`.
- Migrations whose transaction is not atomic, as on MySQL, and code that changes what an id means between runs.
- MigrateBatches.RollbackUndoesUps: the schema is not restored for every order of application, because Downs run in descending id order across batches (`OnlyAscendingIsRestored`).
- SqlLife.NoOvertaking: speaks of the select; between select and update another worker may take or release the row.
- Generating and counting recovery codes; upper-casing is one character to one character.
- Redis session ids that look like user index keys; cookies and their attributes; the cookie, SQL and MongoDB session stores.
- The schedule runner, the rate-limit and session middleware's HTTP parts, and the rest of the framework.
